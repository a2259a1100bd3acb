/** What the handlers act on besides their own variables: the local file
    system (the set of paths that exist), the calls they make to S3 and to
    the database, and Go's `defer` mechanism, which runs the deferred calls
    of a function in last-in, first-out order when it returns. */
module Host {
  import opened Wrappers

  /** The part of `database.Video` the handlers read or write. */
  datatype Video = Video(id: string, userID: string, thumbnailURL: Option<string>, videoURL: Option<string>)

  /** An open file: the multipart part of the request, or a file on disk. */
  datatype Handle = FormPart | DiskFile(path: string)

  /** A call scheduled with `defer`. */
  datatype Deferred = Close(handle: Handle) | Remove(path: string)

  /** The arguments of `s3.PutObject`; `body` is the path of the file whose
      bytes are streamed. */
  datatype PutObjectInput = PutObjectInput(bucket: string, key: string, body: string, contentType: string)

  /** One externally visible call, in the order the handler makes them. */
  datatype Call =
    | Ran(action: Deferred)        // a deferred call, run on return
    | Removed(path: string)        // an immediate `os.Remove`
    | PutObject(input: PutObjectInput)
    | UpdateVideo(video: Video)

  /** The calls that unwinding `stack` makes: its entries, last first. */
  function Unwound(stack: seq<Deferred>): (calls: seq<Call>)
    ensures |calls| == |stack|
    ensures forall k :: 0 <= k < |calls| ==> calls[k].Ran?
  {
    if stack == [] then [] else Unwound(stack[1..]) + [Ran(stack[0])]
  }

  /** The k-th call of the unwinding runs the k-th entry from the top of the
      stack. */
  lemma {:induction false} UnwoundLifo(stack: seq<Deferred>, k: int)
    requires 0 <= k < |stack|
    ensures Unwound(stack)[k] == Ran(stack[|stack| - 1 - k])
  {
    if k < |stack| - 1 {
      UnwoundLifo(stack[1..], k);
    }
  }

  /** The paths the `os.Remove` entries of `stack` delete. */
  function RemovedBy(stack: seq<Deferred>): set<string>
  {
    set k | 0 <= k < |stack| && stack[k].Remove? :: stack[k].path
  }

  /** The file system and the record of calls one handler invocation sees. */
  class Environment {
    /** The paths that exist on the local disk. */
    var disk: set<string>
    /** The calls made so far, oldest first. */
    var calls: seq<Call>

    constructor (existing: set<string>)
      ensures disk == existing && calls == []
    {
      disk := existing;
      calls := [];
    }

    /** A file comes into existence (`os.CreateTemp`, `os.Create`, or the
        output of `ffmpeg`). */
    method CreateFile(path: string)
      modifies this
      ensures disk == old(disk) + {path} && calls == old(calls)
    {
      disk := disk + {path};
    }

    /** An immediate `os.Remove` whose error is ignored. */
    method RemoveFile(path: string)
      modifies this
      ensures disk == old(disk) - {path}
      ensures calls == old(calls) + [Removed(path)]
    {
      disk := disk - {path};
      calls := calls + [Removed(path)];
    }

    /** A call to S3 or to the database; what it returns is the handler's
        input, so only the call itself is recorded. */
    method Record(call: Call)
      requires call.PutObject? || call.UpdateVideo?
      modifies this
      ensures disk == old(disk) && calls == old(calls) + [call]
    {
      calls := calls + [call];
    }

    /** Returning from a function: its deferred calls run, the most recently
        scheduled first. */
    method Unwind(stack: seq<Deferred>)
      modifies this
      ensures disk == old(disk) - RemovedBy(stack)
      ensures calls == old(calls) + Unwound(stack)
    {
      var i := |stack|;
      while i > 0
        invariant 0 <= i <= |stack|
        invariant disk == old(disk) - RemovedBy(stack[i..])
        invariant calls == old(calls) + Unwound(stack[i..])
      {
        i := i - 1;
        var action := stack[i];
        assert stack[i..][1..] == stack[i + 1..];
        assert RemovedBy(stack[i..]) ==
               RemovedBy(stack[i + 1..]) + (if action.Remove? then {action.path} else {});
        if action.Remove? {
          disk := disk - {action.path};
        }
        calls := calls + [Ran(action)];
      }
      assert stack[0..] == stack;
    }
  }
}
