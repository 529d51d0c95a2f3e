/** The first-generation dispatcher: an `Uglifier` object that deals the
    build's output files round-robin to a pool of cluster workers, one batch
    per worker. */
module FileUglifier {
  import opened Wrappers
  import opened RoundRobin
  import Seqs

  /** The `Uglifier`'s options: an optional file filter, and the options
      every worker is constructed with. */
  datatype UglifierOptions<O> = UglifierOptions(shouldMinify: Option<string -> bool>, uglifyJS: O)

  /** A cluster worker as the dispatcher sees it: constructed once with
      its options, then handed batches of files through `process`. */
  class UglifyWorker<O> {
    const options: O
    /** Every batch handed to `process`, in call order. */
    var batches: seq<seq<string>>

    constructor (options: O)
      ensures this.options == options && batches == []
    {
      this.options := options;
      batches := [];
    }

    method Process(files: seq<string>)
      modifies this
      ensures batches == old(batches) + [files]
    {
      batches := batches + [files];
    }
  }

  /** `shouldMinify(file)`: every file passes when no filter is configured,
      otherwise the filter decides. */
  function ShouldMinify<O>(options: UglifierOptions<O>, file: string): (r: bool)
    ensures options.shouldMinify.None? ==> r
    ensures options.shouldMinify.Some? ==> (r <==> options.shouldMinify.value(file))
  {
    match options.shouldMinify
    case None => true
    case Some(filter) => filter(file)
  }

  /** `files.filter(this.shouldMinify, this)`. */
  function FilesToMinify<O>(options: UglifierOptions<O>, files: seq<string>): (r: seq<string>)
    ensures |r| <= |files|
    ensures forall f :: f in r <==> f in files && ShouldMinify(options, f)
  {
    Seqs.Filter(files, (f: string) => ShouldMinify(options, f))
  }

  /** `createWorkers(workerCount, options)`: `workerCount` new workers (none
      for a count below one), each constructed with the same options. */
  method CreateWorkers<O>(workerCount: int, options: O) returns (workers: seq<UglifyWorker<O>>)
    ensures |workers| == if workerCount <= 0 then 0 else workerCount
    ensures forall i :: 0 <= i < |workers| ==>
      fresh(workers[i]) && workers[i].options == options && workers[i].batches == []
    ensures forall i, j :: 0 <= i < j < |workers| ==> workers[i] != workers[j]
  {
    workers := [];
    while |workers| < workerCount
      invariant |workers| <= if workerCount <= 0 then 0 else workerCount
      invariant forall i :: 0 <= i < |workers| ==>
        fresh(workers[i]) && workers[i].options == options && workers[i].batches == []
      invariant forall i, j :: 0 <= i < j < |workers| ==> workers[i] != workers[j]
      decreases workerCount - |workers|
    {
      var worker := new UglifyWorker(options);
      workers := workers + [worker];
    }
  }

  /** `chunkFiles(files, chunks)`: a map with exactly the keys `0` to
      `chunks - 1` holding the round-robin buckets; `BucketsShape` says where
      each file lands. */
  method ChunkFiles(files: seq<string>, chunks: nat) returns (chunkMap: map<nat, seq<string>>)
    requires chunks >= 1
    ensures chunkMap == Buckets(files, chunks)
    ensures forall b :: b in chunkMap <==> 0 <= b < chunks
  {
    chunkMap := map[];
    var key := 0;
    while key < chunks
      invariant 0 <= key <= chunks
      invariant forall b :: b in chunkMap <==> 0 <= b < key
      invariant forall b :: b in chunkMap ==> chunkMap[b] == []
    {
      chunkMap := chunkMap[key := []];
      key := key + 1;
    }
    assert chunkMap == Buckets(files[..0], chunks);
    var index := 0;
    while index < |files|
      invariant 0 <= index <= |files|
      invariant chunkMap == Buckets(files[..index], chunks)
    {
      var chunk := index % chunks;
      BucketsSnoc(files, chunks, index);
      chunkMap := chunkMap[chunk := chunkMap[chunk] + [files[index]]];
      index := index + 1;
    }
    assert files[..index] == files;
  }

  /** `processFiles(files)`: as many workers as `threadCount()`, each
      constructed with `options.uglifyJS`; worker `i` is handed bucket `i` of
      the files that pass `shouldMinify`, in exactly one `process` call. */
  method ProcessFiles<O>(options: UglifierOptions<O>, cpus: nat, files: seq<string>)
    returns (workers: seq<UglifyWorker<O>>)
    ensures |workers| == ThreadCount(cpus)
    ensures forall i, j :: 0 <= i < j < |workers| ==> workers[i] != workers[j]
    ensures forall i :: 0 <= i < |workers| ==>
      fresh(workers[i]) && workers[i].options == options.uglifyJS &&
      workers[i].batches == [Bucket(FilesToMinify(options, files), |workers|, i)]
  {
    var chunks := ThreadCount(cpus);
    var filesToMinify := FilesToMinify(options, files);
    var chunkMap := ChunkFiles(filesToMinify, chunks);
    workers := CreateWorkers(chunks, options.uglifyJS);
    var index := 0;
    while index < |workers|
      invariant 0 <= index <= |workers|
      invariant forall i :: 0 <= i < |workers| ==>
        fresh(workers[i]) && workers[i].options == options.uglifyJS
      invariant forall i :: 0 <= i < index ==> workers[i].batches == [chunkMap[i]]
      invariant forall i :: index <= i < |workers| ==> workers[i].batches == []
    {
      workers[index].Process(chunkMap[index]);
      index := index + 1;
    }
  }
}
