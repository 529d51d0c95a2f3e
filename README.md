# webpack-parallel-uglify-plugin, modelled in Dafny

This project models the dispatching core of webpack-parallel-uglify-plugin and proves properties of that model. Three generations of code split a build's JavaScript output across parallel minifier processes, and the model covers all three:

- `lib/Uglifier.js`: an `Uglifier` object deals the files round-robin to cluster workers, one batch per worker.
- `lib/uglify-master.js`: a module-level pool of forked child processes. It is grown to the default thread count, the files are dealt round-robin, and each process with files gets one message.
- `lib/uglifier.js`: the current dispatcher, `processAssets`. It steps through these operations:
  - selects the compilation's assets;
  - derives one cache key per asset and records it in the module-wide `usedCacheKeys`;
  - replaces cache hits at once;
  - sends each miss as a job to a worker farm;
  - merges each job's outcome into the compilation: success replaces the asset, failure adds a build error naming the asset.
- `lib/worker.js`: the job body run in a worker process. It minifies, strips the bogus source-map comment, saves the result to the cache, writes it back into the job's temp file, and reports through the callback.

The project has these files:

- `round_robin.dfy`: the pool size `max(1, cpus - 1)` and the round-robin dealing, each defined once. All three generations size their pool with `ThreadCount`; the current one also caps it by the number of misses. Only the first two deal files with `Bucket`; the current one hands one job per miss to a worker farm. The lemmas fix where each file lands, that bucket sizes are balanced, and that the buckets partition the batch.
- `file_uglifier.dfy`: the first generation dispatcher.
- `uglify_master.dfy`: the second generation dispatcher.
- `asset_uglifier.dfy` and `worker.dfy`: the current generation. The dispatcher is a class holding `usedCacheKeys`. It works in three loops: the hit pass, the job writes and the settling of the jobs. Each loop is proved against a declarative description of the batch (`Processed`, `KeysOf`, `Errors`, `Misses`).
- `cache.dfy`: the cache layer. Its key function, the keys on disk and their contents are abstract.
- `plugin.dfy`, `seqs.dfy` and `wrappers.dfy`: shared data types and sequence helpers.

The environment is a parameter of the model. This covers the cpu count, webpack's `matchObject`, the digest, the cache directory, the minifier, and how each job settles. I/O faults in the worker are parameters as well.

Two lemmas prove consequences of the cache design.
- The dispatcher hashes `source + useSourceMaps` (lib/uglifier.js:55).
- The worker hashes `source + !!map` (lib/worker.js:53).
- `WorkerKeyAgrees`: the two texts hashed are equal exactly when source maps are off or the asset has a map, and then the two keys are equal.
- `WorkerKeyMisses`: the digest is abstract, so the converse needs an assumption. If the digest tells apart different texts under the same options, then with `sourceMap: true` an asset without a map is saved by its worker under a key the dispatcher never looks up. Every build then minifies that asset again.

The worker reports a failure by calling back with `e.message` (lib/worker.js:72), and the dispatcher's promise rejects only on a truthy error. An error with an empty message therefore lets the job resolve. The dispatcher then reads back the temp file as it wrote it, and the asset is replaced by its own unminified code, with no build error. `Worker.Outcome` models this and `AssetUglifier.SilentFailure` states the consequence.

## Model

| member | source | states |
|---|---|---|
| RoundRobin.ThreadCount | lib/Uglifier.js:10-12 | the pool size is `max(1, cpus - 1)`: at least one, and one less than the cpu count from two cpus on (8 cpus give 7, 1 cpu gives 1) |
| RoundRobin.Bucket | lib/Uglifier.js:29-32 | the bucket is built by one push per file in index order, so it is never longer than the batch; its exact size and contents are the lemmas below |
| RoundRobin.Buckets | lib/Uglifier.js:23-32 | `chunkFiles` has exactly the keys `0` to `k - 1` |
| RoundRobin.BucketSnoc | lib/uglify-master.js:25-31 | dealing file `i` appends it to bucket `i % k` and leaves every other bucket unchanged |
| RoundRobin.BucketsSnoc | lib/Uglifier.js:29-32 | the same step on the map of all buckets: only entry `i % k` changes, by appending file `i` |
| RoundRobin.BucketsShape | lib/Uglifier.js:29-32 | file `i` is in bucket `i % k` at position `i / k`, so input order is kept within a bucket; bucket sizes differ by at most one and a lower-numbered bucket is never the smaller |
| RoundRobin.BucketsExact | lib/Uglifier.js:29-32 | position `j` of bucket `b` holds file `b + j * k`, which exists: a bucket holds nothing but files of the batch, each in the slot its index names |
| RoundRobin.BucketsTotal | lib/Uglifier.js:29-32 | the sizes of the `k` buckets add up to the number of files, so together with `BucketsExact` and `SlotUnique` the buckets partition the batch |
| RoundRobin.SlotUnique | lib/Uglifier.js:29-32 | the slot `b + j * k` of a bucket `b` below `k` equals file index `i` only when `b == i % k` and `j == i / k`: no file is dealt to two slots |
| RoundRobin.BucketSize | lib/Uglifier.js:29-32 | bucket `b` holds one file per full round of `k` files, plus one from the last, partial round when `b` is below the number of files left over |
| RoundRobin.BucketAt | lib/Uglifier.js:29-32 | every file is dealt, to bucket `i % k` at position `i / k` |
| RoundRobin.BucketElement | lib/Uglifier.js:29-32 | a bucket's `j`-th file is file `b + j * k` of the batch |
| RoundRobin.BucketsBalanced | lib/Uglifier.js:29-32 | any two buckets differ in size by at most one, the lower-numbered one being the larger |
| RoundRobin.BucketNonEmpty | lib/uglify-master.js:25-31 | bucket `b` receives a file exactly when there are more than `b` files |
| RoundRobin.BucketsExample | test/lib/Uglifier.js:43-50 | three files dealt into two buckets give `{0: ['1', '3'], 1: ['2']}` |
| Seqs.Filter | lib/Uglifier.js:46 | `Array.prototype.filter`: the result keeps exactly the elements satisfying the predicate and is no longer than the input |
| Seqs.FilterSingle | lib/uglifier.js:42-43 | filtering the empty sequence gives the empty sequence, and a single element is kept exactly when it satisfies the predicate |
| Seqs.FilterConcat | lib/uglifier.js:42-43 | filtering a concatenation is the concatenation of the filtered parts, so together with `FilterSingle` the result keeps the input's order |
| Seqs.FilterSubmultiset | lib/uglifier.js:42-43 | filtering keeps each element at most as often as it occurs in the input |
| Seqs.FilterDistinct | lib/uglifier.js:42-43 | filtering keys without repetitions yields names without repetitions |
| FileUglifier.UglifyWorker.constructor | lib/Uglifier.js:17 | a new worker holds the options it was constructed with and has processed nothing |
| FileUglifier.UglifyWorker.Process | lib/Uglifier.js:51 | a `process` call appends exactly its batch to what the worker was handed |
| FileUglifier.ShouldMinify | lib/Uglifier.js:36-42 | every file passes without a configured filter; otherwise the filter's answer is returned |
| FileUglifier.FilesToMinify | lib/Uglifier.js:46 | exactly the files that pass `shouldMinify` remain, and there are no more of them than files |
| FileUglifier.CreateWorkers | lib/Uglifier.js:14-20 | exactly `workerCount` new, distinct workers (none for a count below one), each constructed with the same options and handed nothing yet |
| FileUglifier.ChunkFiles | lib/Uglifier.js:22-34 | the map has exactly the keys `0` to `chunks - 1`, and bucket `b` holds the files with `index % chunks == b` in input order |
| FileUglifier.ProcessFiles | lib/Uglifier.js:44-53 | `threadCount()` new workers constructed with `uglifyJS`; worker `i` gets exactly one `process` call, with bucket `i` of the files that pass `shouldMinify` |
| UglifyMaster.ChildProcess.constructor | lib/uglify-master.js:16 | a forked process has been sent nothing and is not killed |
| UglifyMaster.ChildProcess.Send | lib/uglify-master.js:18-21 | `process.send` appends its message and does not kill the process |
| UglifyMaster.ChildProcess.Kill | lib/uglify-master.js:9 | `process.kill` kills the process and sends it nothing |
| UglifyMaster.ChildProcessMessageHandler | lib/uglify-master.js:7-11 | a `'done'` message kills the process; any other message type changes nothing |
| UglifyMaster.Master.constructor | lib/uglify-master.js:3-6 | `defaultThreads` is fixed at `max(1, cpus - 1)` when the module loads, and the pool starts empty |
| UglifyMaster.Master.Uglify | lib/uglify-master.js:13-39 | the pool is topped up to `defaultThreads` processes and earlier processes are kept; each new process is sent the options before anything else. Process `i` then gets one `'files'` message holding bucket `i` exactly when there are more than `i` files. A process from an earlier call gets no second options message, and once the pool is full no further process is spawned |
| UglifyMaster.Master.Spawn | lib/uglify-master.js:15-23 | forks processes until there are `defaultThreads`, keeping the existing ones; each new process is sent exactly one options message |
| UglifyMaster.Master.SendChunks | lib/uglify-master.js:33-38 | each process whose index is a key of the chunk map is sent that bucket once; the others are sent nothing and no process is killed |
| UglifyMaster.ChunkFiles | lib/uglify-master.js:24-31 | the buckets that exist are exactly the non-empty ones, and each holds the files with `fileIndex % processCount` equal to its key, in input order |
| Cache.Prune | lib/uglifier.js:118-120 | after pruning, exactly the entries whose key was used remain, with their contents unchanged |
| Cache.PruneKeepsEarlierKeys | lib/uglifier.js:25 | since `usedCacheKeys` only grows, an entry whose key was used by any earlier batch survives the prune |
| Worker.IndexFrom | lib/worker.js:24 | the `RegExp` search finds the first position at or after `start` where the pattern occurs, or reports that there is none |
| Worker.RemoveFirst | lib/worker.js:24 | the first occurrence of the pattern is cut out, and putting it back gives the original text; without an occurrence the text is unchanged |
| Worker.OnlyLeadingNewline | lib/worker.js:3-6 | the bogus url is 48 characters long, and its only newline is the leading one |
| Worker.StripAppendedUrl | lib/worker.js:24 | code that does not itself contain the bogus comment comes back exactly when the comment is appended and then stripped |
| Worker.FirstOccurrence | lib/worker.js:24 | a position where the pattern occurs, with no occurrence before it, is the one the search finds |
| Worker.MinifyOptionsFor | lib/worker.js:12-20 | without a map the options passed on are a copy of `uglifyOptions` (`{}` when absent). With a map they gain a `sourceMap` block that points at the map with the bogus url and overrides any existing one; every other option is copied unchanged |
| Worker.Minify | lib/worker.js:8-27 | the minifier's error is thrown as a failure; otherwise its map is returned together with its code, minus the first bogus comment and unchanged when there is none |
| Worker.MinifyStripsBogusUrl | lib/worker.js:9-24 | a minifier that appends the bogus comment to clean code yields exactly that code |
| Worker.EngineFor | lib/worker.js:58 | the engine is uglify-es exactly when `options.uglifyES` is set |
| Worker.EngineOptions | lib/worker.js:59 | the options passed on are `uglifyES` when set, else `uglifyJS` |
| Worker.KeyInput | lib/worker.js:53 | the text hashed by the worker is the source followed by `"true"` when the message has a map and `"false"` otherwise |
| Worker.MinifyJob | lib/worker.js:56-59 | the job fails exactly when the minifier chosen by `uglifyES`, run with `uglifyES` or else `uglifyJS` and the message's map, reports an error, and then carries that error; on success it carries the minifier's map |
| Worker.ReadBack | lib/uglifier.js:95-101 | reading the temp file back always yields a result: the last content the worker wrote there, or the job message itself when it wrote nothing |
| Worker.Observed | lib/uglifier.js:81-106 | the dispatcher sees a rejection only for a callback with a non-empty error, carrying that error; otherwise it reads back the temp file as the earlier effects left it |
| Worker.Outcome | lib/worker.js:46-74 | the job resolves with the minified code and map when minification, the cache write and the temp-file write all succeed. The first failure's message becomes the rejection, unless it is empty: then the job resolves with the message's own source and map. A rejection never carries an empty message. `Thrown` is the `catch` of lib/worker.js:71-72 as the dispatcher's promise sees it: rejected with a non-empty message, otherwise resolved with the temp file as written |
| Worker.ProcessMessage | lib/worker.js:46-74 | the key is derived from `source + !!map` and the message's options. The effects on each path are fixed: a minifier error gives one callback with that error. A cache-write failure gives one callback with its error. A temp-file failure gives the cache save, then a callback with its error. Success gives the cache save of `{source, map}` under the key, the temp-file overwrite with `{source, map, cacheKey}`, then a callback with no error. What the dispatcher observes is `Outcome` |
| AssetUglifier.Compilation.constructor | lib/uglifier.js:28 | the compilation's asset names are distinct and are exactly the keys of its assets; its error list starts empty |
| AssetUglifier.WorkerCount | lib/uglifier.js:18-23 | a non-zero `workerCount` option is returned unchanged. Otherwise the result is `min(assetCount, max(1, cpus - 1))`: never above the asset count or the thread count, and at least one whenever there is an asset |
| AssetUglifier.UseSourceMaps | lib/uglifier.js:29 | source maps are on exactly when the `sourceMap` option is `true` |
| AssetUglifier.WithoutCacheDir | lib/uglifier.js:37-38 | the stripped copy equals the options in every field except `cacheDir`, which is undefined |
| AssetUglifier.WithDefaultTest | lib/uglifier.js:41 | a missing `test` becomes `/\.js$/i`, a given one is kept, and no other field changes |
| AssetUglifier.Selected | lib/uglifier.js:42-43 | an asset name is selected exactly when it belongs to the compilation and `matchObject` accepts it under the options with the default `test` |
| AssetUglifier.KeyInputFor | lib/uglifier.js:54-55 | the text hashed by the dispatcher is the asset's source followed by `"true"` or `"false"`, as source maps are on or off |
| AssetUglifier.CacheKeyIgnoresCacheDir | lib/uglifier.js:34-38 | the cache key does not depend on `cacheDir`: options that differ only there give the same key |
| AssetUglifier.Misses | lib/uglifier.js:57-68 | a selected asset is queued as uncached exactly when it is not a hit; `IsHit` is `cacheKeysOnDisk.has(cacheKey)` (lib/uglifier.js:57), its key being among the keys on disk |
| AssetUglifier.FromResult | lib/uglifier.js:60-64 | a result with a map becomes a `SourceMapSource` and one without becomes a `RawSource`, carrying the result's code and map |
| AssetUglifier.JobFor | lib/uglifier.js:84-91 | the job message names the asset and carries its source, the stripped options and the real `cacheDir`; its map is the asset's map when source maps are on and absent otherwise |
| AssetUglifier.Settled | lib/uglifier.js:94-106 | a resolved job replaces the asset with its code and map; a rejected one leaves the asset unchanged |
| AssetUglifier.HitResult | lib/uglifier.js:57-64 | a hit is replaced by the cached code and map; a miss is left unchanged |
| AssetUglifier.Processed | lib/uglifier.js:42-107 | after a batch the asset map has the same keys, and assets that fail the filter are unchanged. A selected hit holds the cached result, and a selected miss holds its job's result when the job resolves and its old value when it rejects |
| AssetUglifier.KeysOf | lib/uglifier.js:51-56 | one key per selected asset, hits and misses alike, in selection order, each derived from the asset's own source |
| AssetUglifier.ErrorFor | lib/uglifier.js:104 | the message is the fixed prefix, the asset name, a colon and newline, then the error, which ends the message |
| AssetUglifier.Errors | lib/uglifier.js:103-106 | at most one error per miss |
| AssetUglifier.ErrorsOfRejections | lib/uglifier.js:103-106 | there is exactly one error per rejected miss, in the order of the misses, each carrying that job's message |
| AssetUglifier.ErrorNamesAsset | lib/uglifier.js:104 | an error's message holds the asset's name right after the fixed prefix |
| AssetUglifier.WorkerKeyAgrees | lib/uglifier.js:55 | the worker's key input `source + !!map` (lib/worker.js:53) equals the dispatcher's exactly when source maps are off or the asset has a map. In that case both sides derive the same key from the same stripped options |
| AssetUglifier.WorkerKeyMisses | lib/uglifier.js:55 | with a digest that tells texts apart, an asset without a map under `sourceMap: true` is saved by the worker under a key other than the one the dispatcher looks up |
| AssetUglifier.SilentFailure | lib/uglifier.js:93-106 | a job whose failure has an empty message resolves, and the asset becomes its own unminified code, with its input map when source maps are on |
| AssetUglifier.UglifierModule.constructor | lib/uglifier.js:25 | `usedCacheKeys` starts empty when the module loads |
| AssetUglifier.UglifierModule.ProcessAssets | lib/uglifier.js:27-116 | the assets become `Processed(...)`, and `usedCacheKeys` grows by one key per selected asset. The errors grow by the miss errors, the pool is sized from the number of misses alone, and the caller's options get the default `test`; the compilation stays well-formed |
| AssetUglifier.UglifierModule.PruneCache | lib/uglifier.js:118-120 | the cache layer keeps exactly the on-disk entries whose key is in `usedCacheKeys`, unchanged |
| AssetUglifier.ReadHits | lib/uglifier.js:51-69 | the hit pass replaces exactly the hits from the cache, records one key per selected asset in order, and queues exactly the misses, in selection order |
| AssetUglifier.WriteJobs | lib/uglifier.js:83-91 | one job message per miss, in order, each built from the asset as the hit pass left it |
| AssetUglifier.SettleJobs | lib/uglifier.js:93-107 | merging every job's outcome gives the assets of the finished batch, and the errors pushed are exactly the miss errors |

## Left out

- FileUglifier.ChunkFiles: requires `chunks >= 1`. With zero chunks and at least one file, `chunkFiles` throws a `TypeError` on `chunkMap[NaN].push`. Its only caller passes `threadCount()`, which is at least one.
- UglifyMaster.ChunkFiles: requires a process count of at least one. With zero processes, `fileIndex % 0` is `NaN`, so every file would be pushed into one bucket keyed `"NaN"`, and the send loop would then throw a `TypeError` on `processes['NaN'].send`. `uglify` never gets there, because the pool has just been grown to `defaultThreads >= 1`.
- `sourceMap` and `workerCount` are modelled as a boolean and an integer. Other truthy or falsy JavaScript values are not modelled: a string `sourceMap` would change the key text `source + useSourceMaps`, and a `NaN` worker count would behave like zero.
- A source map is an opaque value. A map that JavaScript reads as falsy, such as an empty string, is treated as present.
- `lib/cache.js` as given defines only `createHashFromContent`, a SHA-256 digest of a string. The helpers the dispatcher and the worker call on it (`createCacheKey`, `getCacheKeysFromDisk`, `retrieveFromCache`, `saveToCache`, `pruneCache`) are not part of this model. The digest `createCacheKey` is an uninterpreted function, and the cache directory is a map from key to contents.
- Cache.Prune: the effect of `cache.pruneCache` is assumed from the cache design, not taken from its code: it keeps exactly the on-disk entries whose key was used. `UglifierModule.PruneCache`'s ensures follow from that assumption and from the hand-over of `usedCacheKeys` at lib/uglifier.js:119.
- The plugin options are reduced to the fields the core reads. The real object also carries `include`, `exclude` and anything else the user passes, all of which reach `matchObject` and `createCacheKey`. No proved property depends on them, because `matches` and the digest are arbitrary functions of the environment.
- Reading the cache file and the temp file, and the JSON encoding of their contents, are left out: messages and cache entries are handed over as values. A failure of these reads or of `JSON.parse` is not modelled. The cache-write and temp-file-write failures of the worker are parameters.
- `os.cpus()`, webpack's `matchObject`, the minifiers and the way each job settles are parameters of the environment.
- The worker farm is left out: its process creation, its two retries, its concurrency limit and `endWorkers`. The pool size it is given is returned by `ProcessAssets`. Each job's outcome is a function of its message.
- AssetUglifier.UglifierModule.ProcessAssets: errors are appended in the order of the misses. In `processAssets` the promises settle concurrently, so the errors come in completion order. Each miss touches its own asset, so the final assets do not depend on that order.
- AssetUglifier.UglifierModule.ProcessAssets: the hit pass writes the new assets and keys back after its loop instead of during it. The loop is synchronous and reads each asset once before replacing it, so the final state is the same.
- `mkdirp` of the cache directory is left out.
- A thrown value without a `message` (something other than an `Error`) would make the worker call back with `undefined`. The model represents every failure's message as a string.
- A failing temp-file write is taken to leave the temp file as the dispatcher wrote it.
- `lib/UglifyWorker.js`, `lib/uglify-worker.js`, `lib/tmp-file.js` and `index.js` are not part of this model. They hold the cluster and child-process plumbing, the temp-file helpers and the webpack hook.
- The mutation of the caller's options (`options.test = ...`) is modelled by returning the updated options.
- UglifyMaster.Master.Uglify: a process that a `'done'` message has killed stays in the pool and is still sent files on later calls, as `uglify` does. What a killed process does with them is not modelled.
