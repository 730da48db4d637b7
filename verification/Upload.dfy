// Streaming an upload to the staging disk (api/routes_upload.py:62-112).
module Upload {
  type Bytes = seq<bv8>

  // An incremental hash object of hashlib: update() and hexdigest().
  datatype Hasher<!S> = Hasher(start: S, update: (S, Bytes) -> S, digest: S -> string)

  function Fed<S>(hasher: Hasher<S>, chunks: seq<Bytes>): S {
    if chunks == [] then hasher.start
    else hasher.update(Fed(hasher, chunks[..|chunks| - 1]), chunks[|chunks| - 1])
  }

  function Joined(chunks: seq<Bytes>): Bytes {
    if chunks == [] then [] else Joined(chunks[..|chunks| - 1]) + chunks[|chunks| - 1]
  }

  // The law of incremental hashing: feeding the pieces is hashing the whole.
  ghost predicate Hashes<S>(hasher: Hasher<S>, hash: Bytes -> string) {
    forall chunks: seq<Bytes> :: hasher.digest(Fed(hasher, chunks)) == hash(Joined(chunks))
  }

  // What one turn of the loop meets: a chunk, with whether the disk takes it, or
  // a failing read.
  datatype Arrival = Chunk(bytes: Bytes, writable: bool) | ReadError

  // The chunks up to the end of the stream (an empty chunk, or no more of them).
  function Body(arrivals: seq<Arrival>): seq<Bytes> {
    if arrivals == [] || arrivals[0].ReadError? || arrivals[0].bytes == [] then []
    else [arrivals[0].bytes] + Body(arrivals[1..])
  }

  // Nothing raises before the end of the stream.
  predicate Faultless(arrivals: seq<Arrival>) {
    if arrivals == [] then true
    else if arrivals[0].ReadError? then false
    else arrivals[0].bytes == [] || (arrivals[0].writable && Faultless(arrivals[1..]))
  }

  // The body is the run of chunks up to the first that is empty or fails.
  lemma {:induction false} BodyMeans(arrivals: seq<Arrival>, n: nat)
    requires n <= |arrivals| && forall i :: 0 <= i < n ==> arrivals[i].Chunk? && arrivals[i].bytes != []
    requires n < |arrivals| ==> arrivals[n].ReadError? || arrivals[n].bytes == []
    ensures Body(arrivals) == seq(n, i requires 0 <= i < n => arrivals[i].bytes)
    ensures Faultless(arrivals) <==>
      (n < |arrivals| ==> arrivals[n].Chunk?) && forall i :: 0 <= i < n ==> arrivals[i].writable
  {
    if n == 0 {
    } else {
      BodyMeans(arrivals[1..], n - 1);
    }
  }

  datatype UploadResult =
    | Staged(sha256: string, md5: string, size: nat)
    | TooLarge
    | Empty
    | Broken            // the exception of a read or a write passes through

  // The temporary directory and the file in it.
  class TempDir {
    var present: bool
    var content: Bytes
    ghost var mostWritten: nat      // the largest size the file ever had

    constructor ()
      ensures !present && content == [] && mostWritten == 0
    {
      present, content, mostWritten := false, [], 0;
    }

    method Create()
      modifies this
      ensures present && content == [] && mostWritten == old(mostWritten)
    {
      present, content := true, [];
    }

    method Append(bytes: Bytes)
      requires present
      modifies this
      ensures present && content == old(content) + bytes
      ensures mostWritten == if |content| > old(mostWritten) then |content| else old(mostWritten)
    {
      content := content + bytes;
      mostWritten := if |content| > mostWritten then |content| else mostWritten;
    }

    // A directory that cannot be removed stays, without an error.
    method RemoveQuietly(removable: bool)
      modifies this
      ensures present == (old(present) && !removable) && content == old(content) && mostWritten == old(mostWritten)
    {
      if removable { present := false; }
    }
  }

  lemma {:induction false} JoinedAppend(chunks: seq<Bytes>, chunk: Bytes)
    ensures Joined(chunks + [chunk]) == Joined(chunks) + chunk
  {
    assert (chunks + [chunk])[..|chunks|] == chunks;
  }

  lemma {:induction false} FedAppend<S>(hasher: Hasher<S>, chunks: seq<Bytes>, chunk: Bytes)
    ensures Fed(hasher, chunks + [chunk]) == hasher.update(Fed(hasher, chunks), chunk)
  {
    assert (chunks + [chunk])[..|chunks|] == chunks;
  }

  lemma {:induction false} JoinedConcat(a: seq<Bytes>, b: seq<Bytes>)
    ensures Joined(a + b) == Joined(a) + Joined(b)
  {
    if b == [] {
      assert a + b == a;
    } else {
      var front := b[..|b| - 1];
      JoinedConcat(a, front);
      assert (a + b)[..|a + b| - 1] == a + front;
    }
  }

  // `done` has been written, `rest` has not been looked at.
  ghost predicate Progress(arrivals: seq<Arrival>, rest: seq<Arrival>, done: seq<Bytes>, content: Bytes) {
    && Body(arrivals) == done + Body(rest)
    && (Faultless(rest) <==> Faultless(arrivals))
    && content == Joined(done)
    && (content == [] <==> done == [])
  }

  lemma ProgressStep(arrivals: seq<Arrival>, rest: seq<Arrival>, done: seq<Bytes>, content: Bytes)
    requires Progress(arrivals, rest, done, content) && rest != [] && rest[0].Chunk? && rest[0].bytes != []
    ensures var chunk := rest[0].bytes;
      && (rest[0].writable ==> Progress(arrivals, rest[1..], done + [chunk], content + chunk))
      && (!rest[0].writable ==> !Faultless(arrivals))
      && |content + chunk| <= |Joined(Body(arrivals))| && Body(arrivals) != []
  {
    var chunk := rest[0].bytes;
    assert Body(arrivals) == done + [chunk] + Body(rest[1..]);
    JoinedAppend(done, chunk);
    JoinedConcat(done + [chunk], Body(rest[1..]));
  }

  lemma ProgressEnd(arrivals: seq<Arrival>, rest: seq<Arrival>, done: seq<Bytes>, content: Bytes)
    requires Progress(arrivals, rest, done, content) && (rest == [] || (rest[0].Chunk? && rest[0].bytes == []))
    ensures Faultless(arrivals) && done == Body(arrivals) && content == Joined(done) && (content == [] <==> done == [])
  {}

  datatype LoopEnd = EndOfStream | OverLimit | Fault

  // The read loop.
  method WriteBody<S, M>(sha: Hasher<S>, md5: Hasher<M>, tmp: TempDir, arrivals: seq<Arrival>, maxSize: int)
    returns (end: LoopEnd, shaState: S, md5State: M, totalSize: nat)
    requires tmp.present && tmp.content == [] && tmp.mostWritten == 0
    modifies tmp
    ensures tmp.present && (tmp.mostWritten == 0 || tmp.mostWritten <= maxSize)
    ensures end.EndOfStream? ==>
      Faultless(arrivals) && tmp.content == Joined(Body(arrivals)) && totalSize == |tmp.content|
      && (totalSize == 0 || totalSize <= maxSize) && (totalSize == 0 <==> Body(arrivals) == [])
      && shaState == Fed(sha, Body(arrivals)) && md5State == Fed(md5, Body(arrivals))
    ensures end.OverLimit? ==> |Joined(Body(arrivals))| > maxSize && Body(arrivals) != []
    ensures end.Fault? ==> !Faultless(arrivals)
  {
    shaState, md5State, totalSize := sha.start, md5.start, 0;
    var rest := arrivals;
    ghost var done: seq<Bytes> := [];
    while rest != [] && !(rest[0].Chunk? && rest[0].bytes == [])
      invariant Progress(arrivals, rest, done, tmp.content)
      invariant tmp.present && totalSize == |tmp.content| == tmp.mostWritten
      invariant shaState == Fed(sha, done) && md5State == Fed(md5, done)
      invariant totalSize == 0 || totalSize <= maxSize
      decreases |rest|
    {
      if rest[0].ReadError? {
        return Fault, shaState, md5State, totalSize;
      }
      var chunk := rest[0].bytes;
      ProgressStep(arrivals, rest, done, tmp.content);
      totalSize := totalSize + |chunk|;
      if totalSize > maxSize {
        return OverLimit, shaState, md5State, totalSize;
      }
      FedAppend(sha, done, chunk);
      FedAppend(md5, done, chunk);
      shaState, md5State := sha.update(shaState, chunk), md5.update(md5State, chunk);
      if !rest[0].writable {
        return Fault, shaState, md5State, totalSize;
      }
      tmp.Append(chunk);
      done, rest := done + [chunk], rest[1..];
    }
    ProgressEnd(arrivals, rest, done, tmp.content);
    end := EndOfStream;
  }

  // Success means size and digests of exactly the bytes on disk, which are the
  // whole stream. "Too large" is raised iff the stream is longer than the limit,
  // "empty" iff it has no byte; both leave no directory. The file is never longer
  // than the limit, at any moment.
  method StreamUploadToStaging<S, M>(sha: Hasher<S>, md5: Hasher<M>, ghost shaOf: Bytes -> string,
                                     ghost md5Of: Bytes -> string,
                                     tmp: TempDir, arrivals: seq<Arrival>, maxSize: int, removable: bool)
    returns (r: UploadResult)
    requires Hashes(sha, shaOf) && Hashes(md5, md5Of) && tmp.mostWritten == 0
    modifies tmp
    ensures r.Staged? ==>
      tmp.present && tmp.content == Joined(Body(arrivals)) && 0 < r.size == |tmp.content| <= maxSize
      && r.sha256 == shaOf(tmp.content) && r.md5 == md5Of(tmp.content)
    ensures r.Broken? ==> !Faultless(arrivals) && tmp.present
    ensures r.Staged? || r.Empty? ==> Faultless(arrivals)
    ensures Faultless(arrivals) ==> (r.Empty? <==> Body(arrivals) == [])
    ensures Faultless(arrivals) ==> (r.TooLarge? <==> Body(arrivals) != [] && |Joined(Body(arrivals))| > maxSize)
    ensures r.TooLarge? ==> |Joined(Body(arrivals))| > maxSize
    ensures (r.TooLarge? || r.Empty?) && removable ==> !tmp.present
    ensures tmp.mostWritten == 0 || tmp.mostWritten <= maxSize
  {
    tmp.Create();
    var end, shaState, md5State, totalSize := WriteBody(sha, md5, tmp, arrivals, maxSize);
    match end
    case Fault =>
      return Broken;
    case OverLimit =>
      tmp.RemoveQuietly(removable);
      return TooLarge;
    case EndOfStream =>
      if totalSize == 0 {
        tmp.RemoveQuietly(removable);
        return Empty;
      }
      return Staged(sha.digest(shaState), md5.digest(md5State), totalSize);
  }
}
