/** The client half of the upload protocol: list the verified chunks, send the
    missing ones, complete. */
module Client {
  import opened Base
  import opened Chunks
  import opened Files
  import opened Spec
  import opened Jobs
  import opened Engine
  import opened Safety
  import opened SafetySteps
  import opened Uploads
  import opened Traces
  import opened Server

  /** What is verified so far is the client's file. */
  ghost predicate Resumable(e: Env, sh: Shared, id: JobId, x: seq<Byte>) {
    && EnvOk(e) && DbInv(e, sh) && SpoolReady(sh)
    && id in sh.jobs && Accepting(sh.jobs[id].state) && sh.jobs[id].size == |x|
    && forall n :: n in sh.jobs[id].rows ==> SliceHeld(sh.jobs[id], x, n)
  }

  ghost predicate SliceHeld(j: Job, x: seq<Byte>, n: nat) {
    n in j.rows && j.rows[n].bytes == |Slice(x, j.chunkSize, n)|
    && j.part.Some? && Holds(j.part.value, n * j.chunkSize, Slice(x, j.chunkSize, n))
  }

  /** The request the client sends for chunk n. */
  function RequestFor(e: Env, id: JobId, x: seq<Byte>, chunkSize: nat, n: nat): PutReq {
    var body := Slice(x, chunkSize, n);
    PutReq(id, n, e.sha(body), |body|, body)
  }

  /** The job right after the client's PUT of chunk n was verified. */
  function Sent(e: Env, j: Job, x: seq<Byte>, n: nat, deadline: nat): Job
    requires j.part.Some?
  {
    var body := Slice(x, j.chunkSize, n);
    CommitChunk(Synced(Written(j, n * j.chunkSize, body)), n, |body|, e.sha(body), deadline)
  }

  lemma PutInvariant(e: Env, sh: Shared, sh': Shared, t: Trace, r: PutReq)
    requires EnvOk(e) && DbInv(e, sh) && SpoolReady(sh) && |r.body| <= r.length
    requires t.start == sh && t.actor == Put(r, WaitLife) && At(e, t, sh', Done)
    ensures DbInv(e, sh')
  {
    hide DbInv, ReadyExcept;
    WalkKeeps(e, sh, Put(r, WaitLife), t.choices);
  }

  /** Sending slice n keeps every other slice in place and adds this one. */
  lemma SentHolds(e: Env, j: Job, x: seq<Byte>, n: nat, m: nat, deadline: nat)
    requires j.chunkSize > 0 && j.size == |x| && Ready(j) && Accepting(j.state) && n !in j.rows && n < Expected(j.size, j.chunkSize)
    requires m == n || SliceHeld(j, x, m)
    ensures SliceHeld(Sent(e, j, x, n, deadline), x, m)
  {
    hide Expected, ChunkBytes, Slice, Pwrite;
    var f, off, body := j.part.value, n * j.chunkSize, Slice(x, j.chunkSize, n);
    SliceLength(x, j.chunkSize, n);
    if m == n {
      WholeWrite(f, off, body);
      HoldsSynced(Pwrite(f, off, body), off, body);
    } else {
      ChunksDisjoint(j.size, j.chunkSize, n, m);
      SliceAtMost(x, j.chunkSize, m);
      HoldsBeside(f, off, body, m * j.chunkSize, Slice(x, j.chunkSize, m));
      HoldsSynced(Pwrite(f, off, body), m * j.chunkSize, Slice(x, j.chunkSize, m));
    }
  }

  lemma SliceAtMost(x: seq<Byte>, chunkSize: nat, n: nat)
    ensures |Slice(x, chunkSize, n)| <= chunkSize && (n * chunkSize <= |x| ==> |Slice(x, chunkSize, n)| == ChunkBytes(|x|, chunkSize, n))
    ensures n * chunkSize > |x| ==> Slice(x, chunkSize, n) == []
  {
  }

  lemma WholeWrite(f: File, off: nat, body: seq<Byte>)
    requires off <= |f.data|
    ensures Holds(Pwrite(f, off, body), off, body)
  {
    assert f.data[off..off] == body[..0];
    PwriteExtends(f, off, 0, body, |body|);
    assert body[0..|body|] == body && body[..|body|] == body;
  }

  lemma SentReady(e: Env, j: Job, x: seq<Byte>, n: nat, deadline: nat)
    requires j.chunkSize > 0 && j.size == |x| && Ready(j) && Accepting(j.state) && n !in j.rows && n < Expected(j.size, j.chunkSize)
    ensures var j' := Sent(e, j, x, n, deadline);
            Ready(j') && Accepting(j'.state) && j'.rows.Keys == j.rows.Keys + {n} && j'.size == j.size && j'.chunkSize == j.chunkSize
  {
    hide Expected, ChunkBytes, Slice;
    SliceLength(x, j.chunkSize, n);
    PwriteFrame(j.part.value, n * j.chunkSize, Slice(x, j.chunkSize, n), n * j.chunkSize, |Slice(x, j.chunkSize, n)|);
  }

  /** One verified PUT of the client leaves the upload resumable, one chunk further. */
  lemma SentResumable(e: Env, sh: Shared, sh': Shared, id: JobId, x: seq<Byte>, n: nat, deadline: nat)
    requires Resumable(e, sh, id, x) && n !in sh.jobs[id].rows && DbInv(e, sh')
    requires sh.jobs[id].chunkSize > 0 && n < Expected(sh.jobs[id].size, sh.jobs[id].chunkSize) && sh.jobs[id].part.Some?
    requires sh'.jobs == sh.jobs[id := Sent(e, sh.jobs[id], x, n, deadline)]
    ensures Resumable(e, sh', id, x) && sh'.jobs[id].rows.Keys == sh.jobs[id].rows.Keys + {n} && sh'.jobs[id].chunkSize == sh.jobs[id].chunkSize
  {
    hide DbInv, Expected, ChunkBytes, Slice, SliceHeld, Sent, EnvOk, Ready;
    var j := sh.jobs[id];
    ReadyOf(sh, id);
    SentReady(e, j, x, n, deadline);
    ReadyAfter(sh, id, Sent(e, j, x, n, deadline), sh', {});
    forall m | m in sh'.jobs[id].rows ensures SliceHeld(sh'.jobs[id], x, m) { SentHolds(e, j, x, n, m, deadline); }
  }

  /** When every slice is verified the spool file is the client's file. */
  lemma AllHeld(j: Job, x: seq<Byte>)
    requires j.chunkSize > 0 && j.size == |x| && Ready(j)
    requires forall n :: 0 <= n < Expected(j.size, j.chunkSize) ==> SliceHeld(j, x, n)
    ensures j.part.value.data == x
  {
    hide Expected, ChunkBytes, Slice;
    forall i | 0 <= i < |x| ensures j.part.value.data[i] == x[i] {
      var n := i / j.chunkSize;
      ChunkOf(j.size, j.chunkSize, i);
      SliceLength(x, j.chunkSize, n);
      assert SliceHeld(j, x, n);
      SameByte(j.part.value.data, x, n * j.chunkSize, n * j.chunkSize + |Slice(x, j.chunkSize, n)|, i);
    }
  }

  lemma UploadGeometry(e: Env, sh: Shared, id: JobId, x: seq<Byte>)
    requires Resumable(e, sh, id, x)
    ensures var j := sh.jobs[id];
            j.chunkSize > 0 && j.expected == Expected(j.size, j.chunkSize) && Ready(j)
            && ((forall n :: 0 <= n < j.expected ==> n in j.rows) ==> Completable(j))
  {
    hide DbInv, Slice, SliceHeld, Ready;
    InvOf(e, sh, id);
    ReadyOf(sh, id);
    hide Expected, ChunkBytes;
    var j := sh.jobs[id];
    CountersAgree(j.size, j.chunkSize, j.rows);
  }

  /** The answer to the client's PUT of a missing chunk is that it was verified. */
  lemma MissingIsVerified(e: Env, sh: Shared, id: JobId, x: seq<Byte>, n: nat)
    requires Resumable(e, sh, id, x) && sh.jobs[id].chunkSize > 0 && n < sh.jobs[id].expected == Expected(|x|, sh.jobs[id].chunkSize)
    requires n !in sh.jobs[id].rows && Ready(sh.jobs[id]) && |e.sha(Slice(x, sh.jobs[id].chunkSize, n))| == 64
    ensures var r := RequestFor(e, id, x, sh.jobs[id].chunkSize, n);
            Answer(e, sh.jobs, r, Server.NoTrouble) == Verified
            && AfterPut(e, sh, r, Server.NoTrouble) == sh.jobs[id := Sent(e, sh.jobs[id], x, n, Expiry(sh))]
  {
    hide DbInv, Expected, ChunkBytes, Slice, SliceHeld, Pwrite;
    SliceLength(x, sh.jobs[id].chunkSize, n);
  }

  lemma ResumableIn(e: Env, sh: Shared, id: JobId, x: seq<Byte>)
    requires Resumable(e, sh, id, x)
    ensures id in sh.jobs && Accepting(sh.jobs[id].state) && sh.jobs[id].size == |x|
  {
    hide DbInv, ReadyExcept, SliceHeld;
  }

  lemma PutKeeps(e: Env, sh: Shared, sh': Shared, t: Trace, r: PutReq, id: JobId, x: seq<Byte>)
    requires Resumable(e, sh, id, x) && |r.body| <= r.length
    requires t.start == sh && t.actor == Put(r, WaitLife) && At(e, t, sh', Done)
    ensures DbInv(e, sh')
  {
    hide DbInv, ReadyExcept, SliceHeld, At, EnvOk;
    PutInvariant(e, sh, sh', t, r);
  }

  lemma AllSlices(e: Env, sh: Shared, id: JobId, x: seq<Byte>)
    requires Resumable(e, sh, id, x) && forall n :: 0 <= n < sh.jobs[id].expected ==> n in sh.jobs[id].rows
    ensures sh.jobs[id].part.Some? && sh.jobs[id].part.value.data == x
  {
    hide DbInv, ReadyExcept, SliceHeld, Expected, Ready;
    UploadGeometry(e, sh, id, x);
    ReadyPart(sh.jobs[id]);
    AllHeld(sh.jobs[id], x);
  }

  lemma ReadyPart(j: Job)
    requires Ready(j)
    ensures j.part.Some? && j.input.None?
  {
  }

  /** The chunk number is in range, and the slice is what the client cuts at its offset. */
  lemma ClientCut(x: seq<Byte>, chunkSize: nat, n: nat)
    requires chunkSize > 0
    ensures n < Expected(|x|, chunkSize) <==> n * chunkSize < |x|
    ensures n * chunkSize < |x| ==>
              Slice(x, chunkSize, n) == (if |x| - n * chunkSize < chunkSize then x[n * chunkSize..] else x[n * chunkSize..n * chunkSize + chunkSize])
              && Slice(x, chunkSize, n) != []
  {
    ChunkInside(|x|, chunkSize, n);
  }

  lemma FlatOne(piece: seq<Byte>)
    ensures Flat([piece]) == piece
  {
    assert [piece][..0] == [];
  }

  /** After the last chunk the upload is whole, and is the client's file. */
  lemma AllSent(e: Env, sh: Shared, id: JobId, x: seq<Byte>, n: nat)
    requires Resumable(e, sh, id, x) && id in sh.jobs && n * sh.jobs[id].chunkSize >= |x|
    requires forall m :: 0 <= m < n ==> m in sh.jobs[id].rows
    ensures Completable(sh.jobs[id]) && sh.jobs[id].part.Some? && sh.jobs[id].part.value.data == x
  {
    hide Resumable, DbInv, Slice, Expected, ChunkBytes, Ready, Completable;
    UploadGeometry(e, sh, id, x);
    ResumableIn(e, sh, id, x);
    ClientCut(x, sh.jobs[id].chunkSize, n);
    AllSlices(e, sh, id, x);
  }

  lemma WholeMeans(j: Job)
    requires Completable(j)
    ensures j.state in {ADMITTED, UPLOADING} && j.received == j.size && j.chunks == j.expected
  {
  }

  /** GET chunks: the verified numbers, and the chunk size. */
  method ListChunks(s: Service, id: JobId) returns (chunkSize: nat, numbers: set<nat>)
    requires id in s.jobs
    ensures chunkSize == s.jobs[id].chunkSize && numbers == s.jobs[id].rows.Keys
  {
    chunkSize, numbers := s.jobs[id].chunkSize, s.jobs[id].rows.Keys;
  }

  /** One PUT of the client. */
  method SendChunk(s: Service, id: JobId, x: seq<Byte>, n: nat, body: seq<Byte>) returns (ok: bool)
    requires Resumable(s.env, s.View(), id, x) && id in s.jobs && n !in s.jobs[id].rows && body != []
    requires s.jobs[id].chunkSize > 0 && n < Expected(|x|, s.jobs[id].chunkSize) && body == Slice(x, s.jobs[id].chunkSize, n)
    requires |s.env.sha(body)| == 64
    modifies s`jobs
    ensures ok && Resumable(s.env, s.View(), id, x) && id in s.jobs
    ensures s.jobs[id].chunkSize == old(s.jobs)[id].chunkSize && s.jobs[id].rows.Keys == old(s.jobs)[id].rows.Keys + {n}
  {
    hide Resumable, DbInv, Slice, AfterPut, Answer, Flat, Expected, ChunkBytes, At, Ready, Sent, SliceHeld;
    var r := PutReq(id, n, s.env.sha(body), |body|, body);
    UploadGeometry(s.env, s.View(), id, x);
    ResumableIn(s.env, s.View(), id, x);
    ReadyPart(s.jobs[id]);
    MissingIsVerified(s.env, s.View(), id, x, n);
    FlatOne(body);
    ghost var before := s.View();
    ghost var t;
    var reply;
    reply, t := s.Chunk(r, [body], Server.NoTrouble);
    PutKeeps(s.env, before, s.View(), t, r, id, x);
    SentResumable(s.env, before, s.View(), id, x, n, Expiry(before));
    ok := reply.Verified?;
  }

  /** The resume loop: whatever was verified before, every missing chunk is sent
      with the right number, offset and length, each is accepted, and the
      completed upload is the client's file. */
  method Resume(s: Service, id: JobId, x: seq<Byte>) returns (ok: bool)
    requires Resumable(s.env, s.View(), id, x)
    requires id in s.jobs && s.jobs[id].chunkSize > 0
    requires forall d: seq<Byte> :: d in Slices(x, s.jobs[id].chunkSize) ==> |s.env.sha(d)| == 64
    modifies s`jobs
    ensures ok && id in s.jobs && s.jobs[id].state == FINALIZING
    ensures s.jobs[id].part.Some? && s.jobs[id].part.value.data == x
  {
    hide Resumable, DbInv, Slice, Slices, Expected, ChunkBytes, At, Ready, Completable;
    ResumableIn(s.env, s.View(), id, x);
    var chunkSize, verified := ListChunks(s, id);
    UploadGeometry(s.env, s.View(), id, x);
    var n, off := 0, 0;
    while off < |x|
      invariant off == n * chunkSize && chunkSize > 0
      invariant Resumable(s.env, s.View(), id, x) && id in s.jobs && s.jobs[id].chunkSize == chunkSize && verified <= s.jobs[id].rows.Keys
      invariant forall m :: m in s.jobs[id].rows ==> m in verified || m < n
      invariant forall m :: 0 <= m < n ==> m in s.jobs[id].rows
      decreases |x| - off
    {
      ClientCut(x, chunkSize, n);
      if n !in verified {
        var size := if |x| - off < chunkSize then |x| - off else chunkSize;
        var body := x[off..off + size];
        SliceIn(x, chunkSize, n);
        var sent := SendChunk(s, id, x, n, body);
        if !sent { return false; }
      }
      n, off := n + 1, off + chunkSize;
    }
    AllSent(s.env, s.View(), id, x, n);
    WholeMeans(s.jobs[id]);
    ghost var t;
    ok, t := s.Complete(id);
  }

  /** The slices of a file. */
  function Slices(x: seq<Byte>, chunkSize: nat): set<seq<Byte>>
    requires chunkSize > 0
  {
    set n | 0 <= n < Expected(|x|, chunkSize) :: Slice(x, chunkSize, n)
  }

  lemma SliceIn(x: seq<Byte>, chunkSize: nat, n: nat)
    requires chunkSize > 0 && n < Expected(|x|, chunkSize)
    ensures Slice(x, chunkSize, n) in Slices(x, chunkSize)
  {
  }
}
