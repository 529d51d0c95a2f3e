/** The current dispatcher: filter a compilation's assets, split them into
    cache hits (replaced at once from the cache) and misses (minified by a
    worker farm), merge each miss's outcome and collect one build error per
    failed miss. */
module AssetUglifier {
  import opened Wrappers
  import opened Plugin
  import opened Cache
  import opened Worker
  import Seqs
  import RoundRobin

  /** A webpack source object: one produced by the build, or one of the two
      kinds the dispatcher builds from a result. */
  datatype Source =
    | CompiledSource(code: string, inputMap: Option<SourceMap>)
    | RawSource(code: string)
    | SourceMapSource(code: string, name: string, sourceMap: SourceMap)
  {
    /** `source.map()`. */
    function Map(): Option<SourceMap> {
      match this
      case CompiledSource(_, m) => m
      case RawSource(_) => None
      case SourceMapSource(_, _, m) => Some(m)
    }
  }

  /** An entry of `compilation.errors`. */
  datatype BuildError = BuildError(message: string)

  const ErrorPrefix: string := "Encountered an error while minifying "

  /** The default `test` option, `/\.js$/i`. */
  const DefaultTest: Pattern := Pattern("\\.js$", true)

  /** Everything outside the core a batch depends on: the cpu count, webpack's
      `matchObject`, the digest, the cache directory's contents and the way
      each job sent to the worker farm settles. */
  datatype Environment = Environment(
    cpus: nat,
    matches: (PluginOptions, string) -> bool,
    createCacheKey: KeyFunction,
    cache: Store,
    minify: JobMessage -> JobOutcome)

  /** The compilation the plugin runs on: its assets keyed by name, the
      order of the names, and its error list. */
  class Compilation {
    const assetNames: seq<string>
    var assets: map<string, Source>
    var errors: seq<BuildError>

    ghost predicate Valid()
      reads this
    {
      Seqs.Distinct(assetNames) && forall n :: n in assetNames <==> n in assets
    }

    constructor (assetNames: seq<string>, assets: map<string, Source>)
      requires Seqs.Distinct(assetNames) && forall n :: n in assetNames <==> n in assets
      ensures Valid() && this.assetNames == assetNames && this.assets == assets && errors == []
    {
      this.assetNames := assetNames;
      this.assets := assets;
      errors := [];
    }
  }

  /** `workerCount(options, assetCount)`: an explicit, non-zero
      `workerCount` option is returned as is; otherwise one less than the
      cpu count, at least one, but never more than there are assets. */
  function WorkerCount(options: PluginOptions, assetCount: nat, cpus: nat): (n: int)
    ensures options.workerCount.Some? && options.workerCount.value != 0 ==> n == options.workerCount.value
    ensures !(options.workerCount.Some? && options.workerCount.value != 0) ==>
      && 0 <= n <= assetCount
      && n <= RoundRobin.ThreadCount(cpus)
      && (n == assetCount || n == RoundRobin.ThreadCount(cpus))
      && (assetCount >= 1 ==> n >= 1)
  {
    if options.workerCount.Some? && options.workerCount.value != 0 then options.workerCount.value
    else
      var threads := RoundRobin.ThreadCount(cpus);
      if assetCount < threads then assetCount else threads
  }

  /** `options.sourceMap || false`: source maps are on exactly when the
      option is `true`. */
  function UseSourceMaps(options: PluginOptions): (r: bool)
    ensures r <==> options.sourceMap == Some(true)
  {
    options.sourceMap.GetOr(false)
  }

  /** The copy of the options the cache keys and the workers see: the same
      options with `cacheDir` undefined. */
  function WithoutCacheDir(options: PluginOptions): (r: PluginOptions)
    ensures r.cacheDir.None?
    ensures r.(cacheDir := options.cacheDir) == options
  {
    options.(cacheDir := None)
  }

  /** `options.test = options.test || /\.js$/i`, written back into the
      caller's options after the copy above was taken. */
  function WithDefaultTest(options: PluginOptions): (r: PluginOptions)
    ensures options.test.Some? ==> r == options
    ensures options.test.None? ==> r.test == Some(DefaultTest)
    ensures r.(test := options.test) == options
  {
    options.(test := Some(options.test.GetOr(DefaultTest)))
  }

  /** `ModuleFilenameHelpers.matchObject.bind(null, options)`. */
  function MatchObject(options: PluginOptions, env: Environment): string -> bool {
    (n: string) => env.matches(options, n)
  }

  /** The names of the assets to minify, in the order of the compilation. */
  function Selected(assetNames: seq<string>, options: PluginOptions, env: Environment): (r: seq<string>)
    ensures forall n :: n in r <==> n in assetNames && env.matches(WithDefaultTest(options), n)
  {
    Seqs.Filter(assetNames, MatchObject(WithDefaultTest(options), env))
  }

  /** The text hashed for an asset, `source + useSourceMaps`: the source
      followed by `"true"` or `"false"`. */
  function KeyInputFor(asset: Source, options: PluginOptions): (r: string)
    ensures |asset.code| <= |r| && r[..|asset.code|] == asset.code
    ensures r[|asset.code|..] == BoolText(UseSourceMaps(options))
  {
    asset.code + BoolText(UseSourceMaps(options))
  }

  /** The dispatcher's cache key for an asset, computed from its
      pre-minification source. */
  function CacheKeyFor(asset: Source, options: PluginOptions, env: Environment): CacheKey {
    env.createCacheKey(KeyInputFor(asset, options), WithoutCacheDir(options))
  }

  /** The cache directory does not enter the key: the same asset under
      options that differ only in `cacheDir` gets the same key, so a key
      stays valid when the directory moves. */
  lemma CacheKeyIgnoresCacheDir(asset: Source, options: PluginOptions, env: Environment, dir: Option<string>)
    ensures CacheKeyFor(asset, options.(cacheDir := dir), env) == CacheKeyFor(asset, options, env)
  {
    assert WithoutCacheDir(options.(cacheDir := dir)) == WithoutCacheDir(options);
  }

  /** An asset is a hit when its key is among the keys on disk. */
  predicate IsHit(assets: map<string, Source>, options: PluginOptions, env: Environment, name: string) {
    name in assets && CacheKeyFor(assets[name], options, env) in env.cache
  }

  function Uncached(assets: map<string, Source>, options: PluginOptions, env: Environment): string -> bool {
    (n: string) => !IsHit(assets, options, env, n)
  }

  /** `uncachedAssets`: the selected assets that miss, in selection order. */
  function Misses(assets: map<string, Source>, names: seq<string>, options: PluginOptions, env: Environment)
    : (r: seq<string>)
    ensures forall n :: n in r <==> n in names && !IsHit(assets, options, env, n)
  {
    Seqs.Filter(names, Uncached(assets, options, env))
  }

  /** The source object made from a `{source, map}` result: a
      `SourceMapSource` when there is a map, a `RawSource` otherwise. */
  function FromResult(name: string, code: string, sourceMap: Option<SourceMap>): (s: Source)
    ensures s.code == code && s.Map() == sourceMap
    ensures !s.CompiledSource?
  {
    match sourceMap
    case Some(m) => SourceMapSource(code, name, m)
    case None => RawSource(code)
  }

  /** The message written to a miss's temp file. */
  function JobFor(assets: map<string, Source>, name: string, options: PluginOptions): (job: JobMessage)
    requires name in assets
    ensures job.assetName == name && job.source == assets[name].code
    ensures job.options == WithoutCacheDir(options) && job.cacheDir == options.cacheDir
    ensures job.sourceMap == if UseSourceMaps(options) then assets[name].Map() else None
    ensures job.sourceMap.Some? <==> UseSourceMaps(options) && assets[name].Map().Some?
  {
    JobMessage(name, WithoutCacheDir(options), assets[name].code,
               if UseSourceMaps(options) then assets[name].Map() else None, options.cacheDir)
  }

  /** An asset after its job settles: the result when it resolves, the
      asset as it was when it rejects. */
  function Settled(name: string, outcome: JobOutcome, asset: Source): (s: Source)
    ensures outcome.Resolved? ==> s.code == outcome.source && s.Map() == outcome.sourceMap
    ensures outcome.Rejected? ==> s == asset
  {
    if outcome.Resolved? then FromResult(name, outcome.source, outcome.sourceMap) else asset
  }

  /** The build error for a failed miss: it names the asset and carries the
      worker's message. */
  function ErrorFor(name: string, error: string): (r: BuildError)
    ensures |ErrorPrefix| + |name| + 2 + |error| == |r.message|
    ensures r.message[..|ErrorPrefix|] == ErrorPrefix
    ensures r.message[|r.message| - |error|..] == error
  {
    BuildError(ErrorPrefix + name + ":\n" + error)
  }

  /** An asset after the hit phase: the cached result when it is a hit,
      the asset as it was otherwise. */
  function HitResult(assets: map<string, Source>, options: PluginOptions, env: Environment, name: string): (s: Source)
    requires name in assets
    ensures !IsHit(assets, options, env, name) ==> s == assets[name]
    ensures IsHit(assets, options, env, name) ==>
      var entry := env.cache[CacheKeyFor(assets[name], options, env)];
      s.code == entry.source && s.Map() == entry.sourceMap
  {
    if IsHit(assets, options, env, name) then
      var entry := env.cache[CacheKeyFor(assets[name], options, env)];
      FromResult(name, entry.source, entry.sourceMap)
    else assets[name]
  }

  /** The assets after the hits among `hitNames` were read from the cache
      and the outcomes of the misses among `missNames` were merged. */
  function Stage(assets: map<string, Source>, hitNames: seq<string>, missNames: seq<string>,
                 options: PluginOptions, env: Environment): map<string, Source>
  {
    map n | n in assets :: StagedAsset(assets, hitNames, missNames, options, env, n)
  }

  /** One asset of `Stage(...)`. */
  function StagedAsset(assets: map<string, Source>, hitNames: seq<string>, missNames: seq<string>,
                       options: PluginOptions, env: Environment, n: string): Source
    requires n in assets
  {
    if n in hitNames && IsHit(assets, options, env, n) then HitResult(assets, options, env, n)
    else if n in missNames then Settled(n, env.minify(JobFor(assets, n, options)), assets[n])
    else assets[n]
  }

  /** The assets after a whole batch. An asset that is not selected is left
      alone; a hit is replaced by the cached result; a miss is replaced by
      its minified result when its job resolves and left alone when it
      rejects. */
  function Processed(assets: map<string, Source>, selected: seq<string>, options: PluginOptions, env: Environment)
    : (r: map<string, Source>)
    ensures r.Keys == assets.Keys
    ensures forall n :: n in assets && n !in selected ==> r[n] == assets[n]
    ensures forall n :: n in selected && IsHit(assets, options, env, n) ==>
      var entry := env.cache[CacheKeyFor(assets[n], options, env)];
      r[n] == FromResult(n, entry.source, entry.sourceMap)
    ensures forall n :: n in assets && n in selected && !IsHit(assets, options, env, n) ==>
      r[n] == Settled(n, env.minify(JobFor(assets, n, options)), assets[n])
  {
    Stage(assets, selected, Misses(assets, selected, options, env), options, env)
  }

  /** The key pushed to `usedCacheKeys` for each of `names`, in order. */
  function KeysOf(assets: map<string, Source>, names: seq<string>, options: PluginOptions, env: Environment)
    : (keys: seq<CacheKey>)
    requires forall n :: n in names ==> n in assets
    ensures |keys| == |names|
    ensures forall i :: 0 <= i < |names| ==> keys[i] == CacheKeyFor(assets[names[i]], options, env)
  {
    if names == [] then []
    else
      var n := |names| - 1;
      KeysOf(assets, names[..n], options, env) + [CacheKeyFor(assets[names[n]], options, env)]
  }

  function Rejects(assets: map<string, Source>, options: PluginOptions, env: Environment): string -> bool {
    (n: string) => n in assets && env.minify(JobFor(assets, n, options)).Rejected?
  }

  /** The errors pushed while the misses settle, in the order of the
      misses; `ErrorsOfRejections` says which. */
  function Errors(assets: map<string, Source>, misses: seq<string>, options: PluginOptions, env: Environment)
    : (errors: seq<BuildError>)
    requires forall n :: n in misses ==> n in assets
    ensures |errors| <= |misses|
  {
    if misses == [] then []
    else
      var n := |misses| - 1;
      var name := misses[n];
      Errors(assets, misses[..n], options, env) +
        match env.minify(JobFor(assets, name, options))
        case Rejected(e) => [ErrorFor(name, e)]
        case Resolved(_, _) => []
  }

  /** One error per rejected job, in the order of the misses, each naming
      its asset and carrying the job's error. */
  lemma {:induction false} ErrorsOfRejections(assets: map<string, Source>, misses: seq<string>,
                                              options: PluginOptions, env: Environment)
    requires forall n :: n in misses ==> n in assets
    ensures var errors := Errors(assets, misses, options, env);
      var failed := Seqs.Filter(misses, Rejects(assets, options, env));
      && |errors| == |failed|
      && forall j :: 0 <= j < |failed| ==>
           errors[j] == ErrorFor(failed[j], env.minify(JobFor(assets, failed[j], options)).error)
  {
    if misses != [] {
      var n := |misses| - 1;
      ErrorsOfRejections(assets, misses[..n], options, env);
    }
  }

  /** An error's message holds the name of the asset right after the fixed
      prefix. */
  lemma ErrorNamesAsset(name: string, error: string)
    ensures var message := ErrorFor(name, error).message;
      |ErrorPrefix| + |name| <= |message| && message[|ErrorPrefix|..|ErrorPrefix| + |name|] == name
  {
  }

  /** The worker derives the key it saves under from the job message, the
      dispatcher the key it looks up from the asset. The two agree exactly
      when the asset has a map or source maps are off: an asset without a
      map under `sourceMap: true` is saved under a key never looked up. */
  lemma WorkerKeyAgrees(assets: map<string, Source>, name: string, options: PluginOptions, env: Environment)
    requires name in assets
    ensures var job := JobFor(assets, name, options);
      KeyInput(job) == KeyInputFor(assets[name], options) <==> (UseSourceMaps(options) ==> assets[name].Map().Some?)
    ensures var job := JobFor(assets, name, options);
      (UseSourceMaps(options) ==> assets[name].Map().Some?) ==>
        env.createCacheKey(KeyInput(job), job.options) == CacheKeyFor(assets[name], options, env)
  {
  }

  /** The converse needs a digest that tells its inputs apart: with one,
      an asset without a map under `sourceMap: true` is saved by the worker
      under a key the dispatcher never looks up for it. */
  lemma WorkerKeyMisses(assets: map<string, Source>, name: string, options: PluginOptions, env: Environment)
    requires name in assets && UseSourceMaps(options) && assets[name].Map().None?
    requires forall a, b :: env.createCacheKey(a, WithoutCacheDir(options)) == env.createCacheKey(b, WithoutCacheDir(options)) ==> a == b
    ensures var job := JobFor(assets, name, options);
      env.createCacheKey(KeyInput(job), job.options) != CacheKeyFor(assets[name], options, env)
  {
    var code := assets[name].code;
    assert KeyInput(JobFor(assets, name, options)) == code + "false";
    assert KeyInputFor(assets[name], options) == code + "true";
    assert (code + "false")[|code|] == 'f' && (code + "true")[|code|] == 't';
  }

  /** A job whose failure carries an empty message is not rejected: the
      dispatcher reads the temp file back as it wrote it, so the asset is
      replaced by its own unminified code (with its input map when source
      maps are on) and no error is recorded. */
  lemma SilentFailure(assets: map<string, Source>, name: string, options: PluginOptions,
                      minifier: Minifier, faults: IoFaults)
    requires name in assets
    requires var result := MinifyJob(JobFor(assets, name, options), minifier);
      || (result.Failure? && result.error == "")
      || (result.Success? && faults.save == Some(""))
      || (result.Success? && faults.save.None? && faults.update == Some(""))
    ensures var outcome := Outcome(JobFor(assets, name, options), minifier, faults);
      var s := Settled(name, outcome, assets[name]);
      && outcome.Resolved?
      && s.code == assets[name].code
      && s.Map() == (if UseSourceMaps(options) then assets[name].Map() else None)
  {
  }

  /** The module-level state of the dispatcher: `usedCacheKeys`, which every
      batch appends to and which is never cleared. */
  class UglifierModule {
    var usedCacheKeys: seq<CacheKey>

    constructor ()
      ensures usedCacheKeys == []
    {
      usedCacheKeys := [];
    }

    /** `processAssets(compilation, options)`. The assets become
        `Processed(...)`; one key per selected asset is appended to
        `usedCacheKeys`, hits and misses alike; one error per rejected miss
        is appended to the compilation's errors; the pool is sized from the
        number of misses alone; and the caller's options get the default
        `test`. */
    method ProcessAssets(compilation: Compilation, options: PluginOptions, env: Environment)
      returns (updatedOptions: PluginOptions, poolSize: int)
      requires compilation.Valid()
      modifies this, compilation
      ensures compilation.Valid()
      ensures updatedOptions == WithDefaultTest(options)
      ensures var selected := Selected(compilation.assetNames, options, env);
        var misses := Misses(old(compilation.assets), selected, options, env);
        && compilation.assets == Processed(old(compilation.assets), selected, options, env)
        && compilation.errors == old(compilation.errors) + Errors(old(compilation.assets), misses, options, env)
        && usedCacheKeys == old(usedCacheKeys) + KeysOf(old(compilation.assets), selected, options, env)
        && poolSize == WorkerCount(updatedOptions, |misses|, env.cpus)
    {
      ghost var original := compilation.assets;
      updatedOptions := options.(test := Some(options.test.GetOr(DefaultTest)));
      var assetNames := Seqs.Filter(compilation.assetNames, MatchObject(updatedOptions, env));
      assert assetNames == Selected(compilation.assetNames, options, env);
      Seqs.FilterDistinct(compilation.assetNames, MatchObject(updatedOptions, env));
      var staged, keys, uncachedAssets := ReadHits(compilation.assets, assetNames, options, env);
      compilation.assets, usedCacheKeys := staged, usedCacheKeys + keys;
      poolSize := WorkerCount(updatedOptions, |uncachedAssets|, env.cpus);
      var jobs := WriteJobs(compilation.assets, uncachedAssets, options);
      forall k | 0 <= k < |uncachedAssets|
        ensures jobs[k] == JobFor(original, uncachedAssets[k], options)
      {
        assert uncachedAssets[k] in uncachedAssets;
      }
      Seqs.FilterDistinct(assetNames, Uncached(original, options, env));
      var settled, errors := SettleJobs(original, assetNames, staged, uncachedAssets, jobs, options, env);
      compilation.assets, compilation.errors := settled, compilation.errors + errors;
    }

    /** `pruneCache(options)`: the cache layer is handed every key used since
        the module was loaded, and keeps exactly those entries. */
    method PruneCache(options: PluginOptions, disk: Store) returns (remaining: Store)
      ensures forall k :: k in remaining <==> k in disk && k in usedCacheKeys
      ensures forall k :: k in remaining ==> remaining[k] == disk[k]
    {
      remaining := Prune(disk, usedCacheKeys);
    }
  }

  /** Before any asset is handled, the assets are as they were. */
  lemma StageNothing(assets: map<string, Source>, options: PluginOptions, env: Environment)
    ensures Stage(assets, [], [], options, env) == assets
  {
  }

  /** The first pass over the selected assets: each one's key is used; a
      hit is replaced at once by the cached result; a miss is queued, in
      order. */
  method ReadHits(assets: map<string, Source>, assetNames: seq<string>, options: PluginOptions, env: Environment)
    returns (staged: map<string, Source>, usedKeys: seq<CacheKey>, uncachedAssets: seq<string>)
    requires Seqs.Distinct(assetNames) && forall n :: n in assetNames ==> n in assets
    ensures staged == Stage(assets, assetNames, [], options, env)
    ensures usedKeys == KeysOf(assets, assetNames, options, env)
    ensures uncachedAssets == Misses(assets, assetNames, options, env)
  {
    staged, usedKeys, uncachedAssets := assets, [], [];
    var i := 0;
    assert assetNames[..i] == [];
    StageNothing(assets, options, env);
    while i < |assetNames|
      invariant 0 <= i <= |assetNames|
      invariant staged == Stage(assets, assetNames[..i], [], options, env)
      invariant usedKeys == KeysOf(assets, assetNames[..i], options, env)
      invariant uncachedAssets == Misses(assets, assetNames[..i], options, env)
    {
      var assetName := assetNames[i];
      KeyStep(assets, assetNames, i, options, env);
      HitStep(assets, assetNames, i, options, env);
      MissStep(assets, assetNames, i, options, env);
      var cacheKey := CacheKeyFor(staged[assetName], options, env);
      usedKeys := usedKeys + [cacheKey];
      if cacheKey in env.cache {
        var content := env.cache[cacheKey];
        staged := staged[assetName := FromResult(assetName, content.source, content.sourceMap)];
      } else {
        uncachedAssets := uncachedAssets + [assetName];
      }
      i := i + 1;
    }
    assert assetNames[..i] == assetNames;
  }

  /** One job message per miss, all written before any job settles. */
  method WriteJobs(assets: map<string, Source>, uncachedAssets: seq<string>, options: PluginOptions)
    returns (jobs: seq<JobMessage>)
    requires forall n :: n in uncachedAssets ==> n in assets
    ensures |jobs| == |uncachedAssets|
    ensures forall k :: 0 <= k < |jobs| ==> jobs[k] == JobFor(assets, uncachedAssets[k], options)
  {
    var useSourceMaps := options.sourceMap.GetOr(false);
    var optionsWithoutCacheDir := options.(cacheDir := None);
    jobs := [];
    var j := 0;
    while j < |uncachedAssets|
      invariant 0 <= j <= |uncachedAssets|
      invariant |jobs| == j
      invariant forall k :: 0 <= k < j ==> jobs[k] == JobFor(assets, uncachedAssets[k], options)
    {
      var assetName := uncachedAssets[j];
      assert assetName in uncachedAssets;
      var asset := assets[assetName];
      jobs := jobs + [JobMessage(assetName, optionsWithoutCacheDir, asset.code,
                                 if useSourceMaps then asset.Map() else None, options.cacheDir)];
      j := j + 1;
    }
  }

  /** Each job settles in turn: a result replaces its asset, a failure adds
      an error naming the asset. */
  method SettleJobs(ghost original: map<string, Source>, ghost assetNames: seq<string>, staged: map<string, Source>,
                    uncachedAssets: seq<string>, jobs: seq<JobMessage>, options: PluginOptions, env: Environment)
    returns (settled: map<string, Source>, errors: seq<BuildError>)
    requires forall n :: n in assetNames ==> n in original
    requires uncachedAssets == Misses(original, assetNames, options, env) && Seqs.Distinct(uncachedAssets)
    requires staged == Stage(original, assetNames, [], options, env)
    requires |jobs| == |uncachedAssets|
    requires forall k :: 0 <= k < |jobs| ==> jobs[k] == JobFor(original, uncachedAssets[k], options)
    ensures settled == Stage(original, assetNames, uncachedAssets, options, env)
    ensures errors == Errors(original, uncachedAssets, options, env)
  {
    settled, errors := staged, [];
    var j := 0;
    while j < |uncachedAssets|
      invariant 0 <= j <= |uncachedAssets|
      invariant settled == Stage(original, assetNames, uncachedAssets[..j], options, env)
      invariant errors == Errors(original, uncachedAssets[..j], options, env)
    {
      var assetName := uncachedAssets[j];
      SettleStep(original, assetNames, uncachedAssets, j, options, env);
      var outcome := env.minify(jobs[j]);
      settled := settled[assetName := Settled(assetName, outcome, settled[assetName])];
      errors := errors + (if outcome.Rejected? then [ErrorFor(assetName, outcome.error)] else []);
      j := j + 1;
    }
    assert uncachedAssets[..j] == uncachedAssets;
  }

  /** Handling selected asset `i` in the hit phase reads it from the cache
      when it is a hit and leaves every other asset alone. */
  lemma HitStep(assets: map<string, Source>, names: seq<string>, i: nat, options: PluginOptions, env: Environment)
    requires i < |names| && Seqs.Distinct(names) && names[i] in assets
    ensures var n := names[i];
      && Stage(assets, names[..i], [], options, env)[n] == assets[n]
      && (IsHit(assets, options, env, n) ==>
           var entry := env.cache[CacheKeyFor(assets[n], options, env)];
           Stage(assets, names[..i + 1], [], options, env) ==
           Stage(assets, names[..i], [], options, env)[n := FromResult(n, entry.source, entry.sourceMap)])
      && (!IsHit(assets, options, env, n) ==>
           Stage(assets, names[..i + 1], [], options, env) == Stage(assets, names[..i], [], options, env))
  {
  }

  /** Each selected asset handled in the hit phase adds its key. */
  lemma KeyStep(assets: map<string, Source>, names: seq<string>, i: nat, options: PluginOptions, env: Environment)
    requires i < |names| && forall n :: n in names ==> n in assets
    ensures names[i] in assets
    ensures KeysOf(assets, names[..i + 1], options, env) ==
            KeysOf(assets, names[..i], options, env) + [CacheKeyFor(assets[names[i]], options, env)]
  {
  }

  /** Each selected asset handled in the hit phase is queued exactly when it
      misses. */
  lemma MissStep(assets: map<string, Source>, names: seq<string>, i: nat, options: PluginOptions, env: Environment)
    requires i < |names|
    ensures IsHit(assets, options, env, names[i]) ==>
      Misses(assets, names[..i + 1], options, env) == Misses(assets, names[..i], options, env)
    ensures !IsHit(assets, options, env, names[i]) ==>
      Misses(assets, names[..i + 1], options, env) == Misses(assets, names[..i], options, env) + [names[i]]
  {
    Seqs.FilterSnoc(names, i, Uncached(assets, options, env));
  }

  /** Settling miss `j` adds an error exactly when its job rejects. */
  lemma ErrorStep(assets: map<string, Source>, misses: seq<string>, j: nat, options: PluginOptions, env: Environment)
    requires j < |misses| && forall n :: n in misses ==> n in assets
    ensures misses[j] in assets
    ensures var outcome := env.minify(JobFor(assets, misses[j], options));
      Errors(assets, misses[..j + 1], options, env) ==
      Errors(assets, misses[..j], options, env) + (if outcome.Rejected? then [ErrorFor(misses[j], outcome.error)] else [])
  {
    assert misses[j] in misses;
    assert misses[..j + 1][..j] == misses[..j];
  }

  /** Settling miss `j`, stated on the loop's running values: the outcome
      is merged into the asset it names and a rejection adds its error. */
  lemma SettleStep(assets: map<string, Source>, names: seq<string>, misses: seq<string>, j: nat,
                   options: PluginOptions, env: Environment)
    requires misses == Misses(assets, names, options, env)
    requires Seqs.Distinct(misses) && j < |misses| && forall n :: n in names ==> n in assets
    ensures var n := misses[j];
      var before := Stage(assets, names, misses[..j], options, env);
      var outcome := env.minify(JobFor(assets, n, options));
      && n in assets && n in before
      && Stage(assets, names, misses[..j + 1], options, env) == before[n := Settled(n, outcome, before[n])]
      && Errors(assets, misses[..j + 1], options, env) ==
         Errors(assets, misses[..j], options, env) + (if outcome.Rejected? then [ErrorFor(n, outcome.error)] else [])
  {
    StageMissStep(assets, names, misses, j, options, env);
    ErrorStep(assets, misses, j, options, env);
  }

  /** Settling miss `j` merges its outcome into the asset it names. */
  lemma StageMissStep(assets: map<string, Source>, names: seq<string>, misses: seq<string>, j: nat,
                      options: PluginOptions, env: Environment)
    requires misses == Misses(assets, names, options, env)
    requires Seqs.Distinct(misses) && j < |misses| && forall n :: n in names ==> n in assets
    ensures var n := misses[j];
      && n in assets && !IsHit(assets, options, env, n)
      && Stage(assets, names, misses[..j], options, env)[n] == assets[n]
      && Stage(assets, names, misses[..j + 1], options, env) ==
         Stage(assets, names, misses[..j], options, env)[n :=
           Settled(n, env.minify(JobFor(assets, n, options)), assets[n])]
  {
    var n := misses[j];
    assert n in misses;
    assert n !in misses[..j];
    var before, after := Stage(assets, names, misses[..j], options, env), Stage(assets, names, misses[..j + 1], options, env);
    assert misses[..j + 1] == misses[..j] + [n];
    forall m | m in assets && m != n
      ensures after[m] == before[m]
    {
      assert m in misses[..j + 1] <==> m in misses[..j];
    }
  }
}
