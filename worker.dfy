/** The job body run in a worker process: minify one asset, write the
    result to the cache and back into the job's temp file, then report
    through the callback. */
module Worker {
  import opened Wrappers
  import opened Plugin
  import opened Cache

  /** The url handed to the minifier so that it accepts an input map; the
      comment it appends for it is stripped again afterwards. */
  const BogusSourceMapString: string := "ABCDEFGHIJKLMNOPQRSTUVWXYZ"
  const UrlPrefix: string := "//# sourceMappingURL="
  const BogusSourceMapUrl: string := "\n" + UrlPrefix + BogusSourceMapString

  /** Which minifier package a job runs on. */
  datatype Engine = UglifyES | UglifyJS

  /** What `uglifier.minify(source, opts)` returns. */
  datatype MinifyOutput = MinifyOutput(error: Option<string>, code: string, sourceMap: Option<SourceMap>)

  /** The external minifiers, as one function of the engine, the source and
      the options object. */
  type Minifier = (Engine, string, MinifyOptions) -> MinifyOutput

  /** A successful minification: code and optional output map. */
  datatype Minified = Minified(code: string, sourceMap: Option<SourceMap>)

  /** The job message the dispatcher writes into the temp file. */
  datatype JobMessage = JobMessage(
    assetName: string,
    options: PluginOptions,
    source: string,
    sourceMap: Option<SourceMap>,
    cacheDir: Option<string>)

  /** What the worker writes back into the temp file on success. */
  datatype MinifiedMessage = MinifiedMessage(source: string, sourceMap: Option<SourceMap>, cacheKey: CacheKey)

  /** What a job does to the world, in order. */
  datatype Effect =
    | SaveToCache(key: CacheKey, entry: CacheEntry, cacheDir: Option<string>)
    | UpdateTmpFile(location: string, content: MinifiedMessage)
    | Callback(error: Option<string>, location: string)

  /** The message of the exception `saveToCache` or `tmpFile.update` throws,
      when it fails. */
  datatype IoFaults = IoFaults(save: Option<string>, update: Option<string>)

  /** How a job settles, as the dispatcher observes it: the promise resolves
      and the temp file holds the result, or it rejects with a message. */
  datatype JobOutcome = Resolved(source: string, sourceMap: Option<SourceMap>) | Rejected(error: string)

  predicate OccursAt(s: string, pattern: string, i: nat) {
    i + |pattern| <= |s| && s[i..i + |pattern|] == pattern
  }

  /** The first position at or after `start` where `pattern` occurs. */
  function IndexFrom(s: string, pattern: string, start: nat): (r: Option<nat>)
    requires start <= |s|
    decreases |s| - start
    ensures r.Some? ==> start <= r.value && OccursAt(s, pattern, r.value)
    ensures r.Some? ==> forall i :: start <= i < r.value ==> !OccursAt(s, pattern, i)
    ensures r.None? ==> forall i :: start <= i <= |s| ==> !OccursAt(s, pattern, i)
  {
    if start + |pattern| > |s| then None
    else if OccursAt(s, pattern, start) then Some(start)
    else IndexFrom(s, pattern, start + 1)
  }

  /** The first position where `pattern` occurs in `s`. */
  function IndexOf(s: string, pattern: string): Option<nat> {
    IndexFrom(s, pattern, 0)
  }

  /** `s.replace(new RegExp(pattern), '')` for a pattern without special
      characters: the first occurrence is cut out, and putting it back at
      the same place gives `s` again; without one, `s` is unchanged. */
  function RemoveFirst(s: string, pattern: string): (r: string)
    ensures IndexOf(s, pattern).None? ==> r == s
    ensures IndexOf(s, pattern).Some? ==>
      var i := IndexOf(s, pattern).value;
      i <= |r| && |r| + |pattern| == |s| && s == r[..i] + pattern + r[i..]
  {
    match IndexOf(s, pattern)
    case None => s
    case Some(i) =>
      assert s == s[..i] + s[i..i + |pattern|] + s[i + |pattern|..];
      var r := s[..i] + s[i + |pattern|..];
      assert r[..i] == s[..i] && r[i..] == s[i + |pattern|..];
      r
  }

  /** The bogus url holds a newline only as its first character. */
  lemma OnlyLeadingNewline()
    ensures |BogusSourceMapUrl| == 48 && BogusSourceMapUrl[0] == '\n'
    ensures forall j :: 1 <= j < |BogusSourceMapUrl| ==> BogusSourceMapUrl[j] != '\n'
  {
  }

  /** What the minifier appends for the bogus url is stripped again: code
      that does not itself hold the comment comes back exactly. */
  lemma {:induction false} StripAppendedUrl(code: string)
    requires IndexOf(code, BogusSourceMapUrl).None?
    ensures RemoveFirst(code + BogusSourceMapUrl, BogusSourceMapUrl) == code
  {
    var s := code + BogusSourceMapUrl;
    var url := BogusSourceMapUrl;
    OnlyLeadingNewline();
    forall i | 0 <= i < |code|
      ensures !OccursAt(s, url, i)
    {
      if i + |url| <= |code| {
        assert s[i..i + |url|] == code[i..i + |url|];
        assert !OccursAt(code, url, i);
      } else {
        var j := |code| - i;
        assert s[i..i + |url|][j] == s[|code|] == '\n';
        assert url[j] != '\n';
      }
    }
    assert OccursAt(s, url, |code|) by {
      assert s[|code|..|code| + |url|] == url;
    }
    FirstOccurrence(s, url, |code|);
  }

  /** A position where the pattern occurs, with none before it, is the one
      `IndexOf` finds. */
  lemma {:induction false} FirstOccurrence(s: string, pattern: string, i: nat)
    requires OccursAt(s, pattern, i)
    requires forall j :: 0 <= j < i ==> !OccursAt(s, pattern, j)
    ensures IndexOf(s, pattern) == Some(i)
  {
  }

  /** The options object `minify` passes on: a copy of `uglifyOptions`
      (`{}` when there are none), with a `sourceMap` block pointing at the
      input map and the bogus url replacing any existing one when a map is
      given. */
  function MinifyOptionsFor(uglifyOptions: Option<MinifyOptions>, inputMap: Option<SourceMap>): (opts: MinifyOptions)
    ensures inputMap.None? ==> opts == uglifyOptions.GetOr(map[])
    ensures inputMap.Some? ==> opts.Keys == uglifyOptions.GetOr(map[]).Keys + {"sourceMap"}
    ensures inputMap.Some? ==> opts["sourceMap"] == SourceMapSetting(inputMap.value, BogusSourceMapString)
    ensures forall key :: key in opts && key != "sourceMap" ==> opts[key] == uglifyOptions.GetOr(map[])[key]
  {
    var copy := uglifyOptions.GetOr(map[]);
    match inputMap
    case None => copy
    case Some(content) => copy["sourceMap" := SourceMapSetting(content, BogusSourceMapString)]
  }

  /** `minify(source, map, uglifyOptions, uglifier)`: the minifier's error
      is thrown; otherwise its code comes back with the first bogus
      source-map comment cut out, together with its map. */
  function Minify(source: string, inputMap: Option<SourceMap>, uglifyOptions: Option<MinifyOptions>,
                  engine: Engine, minifier: Minifier): (r: Result<Minified, string>)
    ensures var out := minifier(engine, source, MinifyOptionsFor(uglifyOptions, inputMap));
      && (out.error.Some? ==> r == Failure(out.error.value))
      && (out.error.None? ==> r.Success? && r.value.sourceMap == out.sourceMap)
      && (out.error.None? && IndexOf(out.code, BogusSourceMapUrl).None? ==> r.value.code == out.code)
      && (out.error.None? && IndexOf(out.code, BogusSourceMapUrl).Some? ==>
            var i := IndexOf(out.code, BogusSourceMapUrl).value;
            i <= |r.value.code| && out.code == r.value.code[..i] + BogusSourceMapUrl + r.value.code[i..])
  {
    var out := minifier(engine, source, MinifyOptionsFor(uglifyOptions, inputMap));
    if out.error.Some? then Failure(out.error.value)
    else Success(Minified(RemoveFirst(out.code, BogusSourceMapUrl), out.sourceMap))
  }

  /** A minifier that appends the comment for the bogus url to clean code
      yields exactly that code. */
  lemma MinifyStripsBogusUrl(source: string, inputMap: Option<SourceMap>, uglifyOptions: Option<MinifyOptions>,
                             engine: Engine, minifier: Minifier, code: string)
    requires IndexOf(code, BogusSourceMapUrl).None?
    requires var out := minifier(engine, source, MinifyOptionsFor(uglifyOptions, inputMap));
      out.error.None? && out.code == code + BogusSourceMapUrl
    ensures Minify(source, inputMap, uglifyOptions, engine, minifier).Success?
    ensures Minify(source, inputMap, uglifyOptions, engine, minifier).value.code == code
  {
    StripAppendedUrl(code);
  }

  /** `uglifyES ? require('uglify-es') : require('uglify-js')`. */
  function EngineFor(options: PluginOptions): (e: Engine)
    ensures e == UglifyES <==> options.uglifyES.Some?
  {
    if options.uglifyES.Some? then UglifyES else UglifyJS
  }

  /** `uglifyES || uglifyJS`: the uglify-es options when present, else the
      uglify-js ones. */
  function EngineOptions(options: PluginOptions): (r: Option<MinifyOptions>)
    ensures options.uglifyES.Some? ==> r == options.uglifyES
    ensures options.uglifyES.None? ==> r == options.uglifyJS
  {
    if options.uglifyES.Some? then options.uglifyES else options.uglifyJS
  }

  /** The text the worker hashes, `source + !!map`: the source followed by
      `"true"` or `"false"`. */
  function KeyInput(message: JobMessage): (r: string)
    ensures |message.source| <= |r| && r[..|message.source|] == message.source
    ensures r[|message.source|..] == BoolText(message.sourceMap.Some?)
  {
    message.source + BoolText(message.sourceMap.Some?)
  }

  /** The result of `minify` for a job message: the minifier is run with the
      engine and the options the message's plugin options select, on the
      message's source and map. */
  function MinifyJob(message: JobMessage, minifier: Minifier): (r: Result<Minified, string>)
    ensures var out := minifier(EngineFor(message.options), message.source,
                                MinifyOptionsFor(EngineOptions(message.options), message.sourceMap));
      && (r.Failure? <==> out.error.Some?)
      && (r.Failure? ==> r.error == out.error.value)
      && (r.Success? ==> r.value.sourceMap == out.sourceMap)
  {
    Minify(message.source, message.sourceMap, EngineOptions(message.options), EngineFor(message.options), minifier)
  }

  /** The temp file as the dispatcher reads it back after the job: the last
      content written to it, or the job message itself when the worker never
      wrote it. */
  function ReadBack(message: JobMessage, effects: seq<Effect>): (r: JobOutcome)
    ensures r.Resolved?
  {
    if effects == [] then Resolved(message.source, message.sourceMap)
    else
      var last := effects[|effects| - 1];
      if last.UpdateTmpFile? then Resolved(last.content.source, last.content.sourceMap)
      else ReadBack(message, effects[..|effects| - 1])
  }

  /** What the dispatcher makes of a job's effects. `pify` rejects the
      promise only on a truthy callback error, so a message that is empty
      lets the promise resolve, and the temp file is then read back. */
  function Observed(message: JobMessage, effects: seq<Effect>): (r: JobOutcome)
    requires effects != [] && effects[|effects| - 1].Callback?
    ensures r.Rejected? ==> r.error != "" && effects[|effects| - 1].error == Some(r.error)
    ensures r.Resolved? ==> r == ReadBack(message, effects[..|effects| - 1])
  {
    var error := effects[|effects| - 1].error;
    if error.Some? && error.value != "" then Rejected(error.value)
    else ReadBack(message, effects[..|effects| - 1])
  }

  /** How a job settles for the dispatcher when the worker throws an
      exception with this message before writing the temp file: rejected
      with a non-empty message, otherwise resolved with the job message the
      file still holds. */
  function Thrown(message: JobMessage, error: string): JobOutcome {
    if error != "" then Rejected(error) else Resolved(message.source, message.sourceMap)
  }

  /** How the job settles for the dispatcher. The first exception (from the
      minifier, the cache write or the temp-file write) decides it as
      `Thrown` says; without one the job resolves with the minified code and
      map. */
  function Outcome(message: JobMessage, minifier: Minifier, faults: IoFaults): (r: JobOutcome)
    ensures r.Rejected? ==> r.error != ""
    ensures var result := MinifyJob(message, minifier);
      && (result.Failure? ==> r == Thrown(message, result.error))
      && (result.Success? && faults.save.Some? ==> r == Thrown(message, faults.save.value))
      && (result.Success? && faults.save.None? && faults.update.Some? ==> r == Thrown(message, faults.update.value))
      && (result.Success? && faults.save.None? && faults.update.None? ==>
            r == Resolved(result.value.code, result.value.sourceMap))
  {
    match MinifyJob(message, minifier)
    case Failure(e) => Thrown(message, e)
    case Success(m) =>
      if faults.save.Some? then Thrown(message, faults.save.value)
      else if faults.update.Some? then Thrown(message, faults.update.value)
      else Resolved(m.code, m.sourceMap)
  }

  /** `processMessage(msgLocation, callback)`: derive the key from the
      pre-minification source and `!!map`, minify, save `{source, map}` in
      the cache, overwrite the temp file with `{source, map, cacheKey}`, and
      call back with no error; the first exception instead ends the job with
      one call back carrying its message, after whatever was written before
      it. The callback is the last effect and happens exactly once, and what
      the dispatcher observes of the effects is `Outcome`. */
  method ProcessMessage(location: string, message: JobMessage, createCacheKey: KeyFunction,
                        minifier: Minifier, faults: IoFaults)
    returns (effects: seq<Effect>)
    ensures |effects| >= 1 && effects[|effects| - 1].Callback? && effects[|effects| - 1].location == location
    ensures forall i :: 0 <= i < |effects| - 1 ==> !effects[i].Callback?
    ensures Observed(message, effects) == Outcome(message, minifier, faults)
    ensures var result := MinifyJob(message, minifier);
      result.Failure? ==> effects == [Callback(Some(result.error), location)]
    ensures var result := MinifyJob(message, minifier);
      result.Success? && faults.save.Some? ==> effects == [Callback(faults.save, location)]
    ensures var result := MinifyJob(message, minifier);
      var key := createCacheKey(KeyInput(message), message.options);
      result.Success? && faults.save.None? && faults.update.Some? ==>
        effects == [SaveToCache(key, CacheEntry(result.value.code, result.value.sourceMap), message.cacheDir),
                    Callback(faults.update, location)]
    ensures var result := MinifyJob(message, minifier);
      var key := createCacheKey(KeyInput(message), message.options);
      result.Success? && faults.save.None? && faults.update.None? ==>
        effects == [SaveToCache(key, CacheEntry(result.value.code, result.value.sourceMap), message.cacheDir),
                    UpdateTmpFile(location, MinifiedMessage(result.value.code, result.value.sourceMap, key)),
                    Callback(None, location)]
  {
    var cacheKey := createCacheKey(message.source + BoolText(message.sourceMap.Some?), message.options);
    var uglifyES := message.options.uglifyES;
    var uglifyJS := message.options.uglifyJS;
    var uglifier := if uglifyES.Some? then UglifyES else UglifyJS;
    var minified := Minify(message.source, message.sourceMap, if uglifyES.Some? then uglifyES else uglifyJS,
                           uglifier, minifier);
    if minified.Failure? {
      effects := [Callback(Some(minified.error), location)];
      return;
    }
    var code, sourceMap := minified.value.code, minified.value.sourceMap;
    if faults.save.Some? {
      effects := [Callback(Some(faults.save.value), location)];
      return;
    }
    effects := [SaveToCache(cacheKey, CacheEntry(code, sourceMap), message.cacheDir)];
    if faults.update.Some? {
      assert ReadBack(message, effects) == ReadBack(message, []);
      effects := effects + [Callback(Some(faults.update.value), location)];
      assert effects[..|effects| - 1] == [SaveToCache(cacheKey, CacheEntry(code, sourceMap), message.cacheDir)];
      return;
    }
    effects := effects + [UpdateTmpFile(location, MinifiedMessage(code, sourceMap, cacheKey))];
    effects := effects + [Callback(None, location)];
  }
}
