/** The second-generation dispatcher: a module-level pool of forked child
    processes, grown to the default thread count on every call, to which
    files are dealt round-robin, one `'files'` message per process that has
    any. */
module UglifyMaster {
  import opened RoundRobin

  /** Messages the parent sends a child. */
  datatype ParentMessage<O> = OptionsMessage(options: O) | FilesMessage(files: seq<string>)

  /** A message a child sends back; only its `type` is read. */
  datatype ChildMessage = ChildMessage(kind: string)

  /** A forked child process, seen from the parent: what it was sent and
      whether it has been killed. */
  class ChildProcess<O> {
    var received: seq<ParentMessage<O>>
    var killed: bool

    constructor ()
      ensures received == [] && !killed
    {
      received := [];
      killed := false;
    }

    method Send(message: ParentMessage<O>)
      modifies this
      ensures received == old(received) + [message] && killed == old(killed)
    {
      received := received + [message];
    }

    method Kill()
      modifies this
      ensures killed && received == old(received)
    {
      killed := true;
    }
  }

  /** `childProcessMessageHandler(process, message)`: a `'done'` message
      kills the process; every other message is ignored. */
  method ChildProcessMessageHandler<O>(process: ChildProcess<O>, message: ChildMessage)
    modifies process
    ensures process.killed == (old(process.killed) || message.kind == "done")
    ensures process.received == old(process.received)
  {
    if message.kind == "done" {
      process.Kill();
    }
  }

  /** The state of the module: `defaultThreads`, fixed when the module is
      loaded, and the `processes` array shared by every call. */
  class Master<O> {
    const defaultThreads: nat
    var processes: seq<ChildProcess<O>>

    ghost predicate Valid()
      reads this
    {
      && defaultThreads >= 1
      && |processes| <= defaultThreads
      && forall i, j :: 0 <= i < j < |processes| ==> processes[i] != processes[j]
    }

    constructor (cpus: nat)
      ensures Valid() && defaultThreads == ThreadCount(cpus) && processes == []
    {
      defaultThreads := ThreadCount(cpus);
      processes := [];
    }

    /** `uglify(files, options)`: the pool is topped up to `defaultThreads`
        processes, each new one being sent the options first; then file `i`
        goes to process `i % defaultThreads`, and exactly the processes with
        files receive one `'files'` message holding their bucket. Processes
        from earlier calls are reused and are not sent the options again. */
    method Uglify(files: seq<string>, options: O)
      requires Valid()
      modifies this, processes
      ensures Valid() && |processes| == defaultThreads
      ensures processes[..|old(processes)|] == old(processes)
      ensures forall i :: |old(processes)| <= i < |processes| ==>
        fresh(processes[i]) && !processes[i].killed
      ensures forall i :: 0 <= i < |old(processes)| ==>
        processes[i].killed == old(processes[i].killed)
      ensures forall i :: 0 <= i < |processes| ==>
        processes[i].received ==
          (if i < |old(processes)| then old(processes[i].received) else [OptionsMessage(options)]) +
          (if i < |files| then [FilesMessage(Bucket(files, defaultThreads, i))] else [])
    {
      Spawn(options);
      var chunkMap := ChunkFiles(files, |processes|);
      SendChunks(chunkMap);
      forall i | 0 <= i < |processes|
        ensures i in chunkMap <==> i < |files|
      {
        BucketNonEmpty(files, defaultThreads, i);
      }
    }

    /** The `while` loop of `uglify`: fork processes, sending each the
        options, until the pool has `defaultThreads` of them. */
    method Spawn(options: O)
      requires Valid()
      modifies this
      ensures Valid() && |processes| == defaultThreads
      ensures processes[..|old(processes)|] == old(processes)
      ensures forall i :: |old(processes)| <= i < |processes| ==>
        fresh(processes[i]) && !processes[i].killed && processes[i].received == [OptionsMessage(options)]
    {
      ghost var before := processes;
      while |processes| < defaultThreads
        invariant Valid() && |before| <= |processes|
        invariant processes[..|before|] == before
        invariant forall i :: |before| <= i < |processes| ==>
          fresh(processes[i]) && !processes[i].killed && processes[i].received == [OptionsMessage(options)]
        decreases defaultThreads - |processes|
      {
        var process := new ChildProcess();
        process.Send(OptionsMessage(options));
        processes := processes + [process];
      }
    }

    /** The sending loop of `uglify`: every process whose index is a key of
        `chunkMap` is sent that bucket, once; the others are sent nothing. */
    method SendChunks(chunkMap: map<nat, seq<string>>)
      requires Valid()
      modifies processes
      ensures forall i :: 0 <= i < |processes| ==>
        processes[i].killed == old(processes[i].killed) &&
        processes[i].received == old(processes[i].received) + (if i in chunkMap then [FilesMessage(chunkMap[i])] else [])
    {
      var index := 0;
      while index < |processes|
        invariant 0 <= index <= |processes|
        invariant forall i :: 0 <= i < |processes| ==>
          processes[i].killed == old(processes[i].killed) &&
          processes[i].received == old(processes[i].received) + (if i < index && i in chunkMap then [FilesMessage(chunkMap[i])] else [])
      {
        if index in chunkMap {
          processes[index].Send(FilesMessage(chunkMap[index]));
        }
        index := index + 1;
      }
    }
  }

  /** The `chunkMap` of `uglify`: file `i` is pushed to bucket
      `i % processCount`, a bucket being created on its first file, so the
      buckets that exist are exactly the non-empty ones. */
  method ChunkFiles(files: seq<string>, processCount: nat) returns (chunkMap: map<nat, seq<string>>)
    requires processCount >= 1
    ensures forall b: nat :: b in chunkMap <==> b < processCount && Bucket(files, processCount, b) != []
    ensures forall b: nat :: b in chunkMap ==> chunkMap[b] == Bucket(files, processCount, b)
  {
    chunkMap := map[];
    var fileIndex := 0;
    while fileIndex < |files|
      invariant 0 <= fileIndex <= |files|
      invariant forall b: nat :: b in chunkMap <==> b < processCount && Bucket(files[..fileIndex], processCount, b) != []
      invariant forall b: nat :: b in chunkMap ==> chunkMap[b] == Bucket(files[..fileIndex], processCount, b)
    {
      var processIndex := fileIndex % processCount;
      if processIndex !in chunkMap {
        chunkMap := chunkMap[processIndex := []];
      }
      BucketSnoc(files, processCount, fileIndex);
      chunkMap := chunkMap[processIndex := chunkMap[processIndex] + [files[fileIndex]]];
      fileIndex := fileIndex + 1;
    }
    assert files[..fileIndex] == files;
  }
}
