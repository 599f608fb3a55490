/** Every statement keeps the invariant of the job it changes. */
module JobSteps {
  import opened Base
  import opened Chunks
  import opened Files
  import opened Spec
  import opened Jobs

  /** Files that only lost dirt, and rows that did not change. */
  lemma SameRows(e: Env, j: Job, j': Job)
    requires RowsIntact(e, j) && j'.rows == j.rows && j'.chunkSize == j.chunkSize
    requires j'.part.Some? ==> (j.part.Some? && j'.part.value.data == j.part.value.data && j'.part.value.dirty <= j.part.value.dirty)
    requires j'.input.Some? ==> j'.input == j.input || j'.input == j.part
    ensures RowsIntact(e, j')
  {
    if j'.part.Some? {
      forall n | n in j'.rows ensures RowIntact(e, j', j'.part.value, n) { assert RowIntact(e, j, j.part.value, n); }
    }
    if j'.input.Some? {
      var f := j'.input.value;
      forall n | n in j'.rows ensures RowIntact(e, j', f, n) {
        assert j'.input == j.input ==> RowIntact(e, j, j.input.value, n);
        assert j'.input == j.part ==> RowIntact(e, j, j.part.value, n);
      }
    }
  }

  /** Bytes written into the region of an unverified chunk leave every verified row intact. */
  lemma WriteKeepsRows(e: Env, j: Job, f: File, n: nat, at: nat, piece: seq<Byte>)
    requires j.chunkSize > 0 && RowsFit(j.size, j.chunkSize, j.rows) && FileIntact(e, j, f) && n !in j.rows
    requires n < Expected(j.size, j.chunkSize)
    requires n * j.chunkSize <= at && at + |piece| <= n * j.chunkSize + ChunkBytes(j.size, j.chunkSize, n)
    ensures FileIntact(e, j, Pwrite(f, at, piece))
  {
    hide ChunkBytes, Expected, Pwrite, RowIntact;
    forall m | m in j.rows ensures RowIntact(e, j, Pwrite(f, at, piece), m) {
      assert RowIntact(e, j, f, m);
      ChunksDisjoint(j.size, j.chunkSize, n, m);
      RowBeside(e, j, f, m, at, piece);
    }
  }

  lemma RowBeside(e: Env, j: Job, f: File, m: nat, at: nat, piece: seq<Byte>)
    requires m in j.rows && RowIntact(e, j, f, m)
    requires at + |piece| <= m * j.chunkSize || m * j.chunkSize + j.rows[m].bytes <= at
    ensures RowIntact(e, j, Pwrite(f, at, piece), m)
  {
    hide Pwrite, OnDisk;
    PwriteElsewhere(f, at, piece, m * j.chunkSize, j.rows[m].bytes);
  }

  lemma WriteKeeps(e: Env, id: JobId, j: Job, n: nat, at: nat, piece: seq<Byte>)
    requires JobInv(e, id, j) && Accepting(j.state) && j.part.Some? && n !in j.rows && n < Expected(j.size, j.chunkSize)
    requires n * j.chunkSize <= at && at + |piece| <= n * j.chunkSize + ChunkBytes(j.size, j.chunkSize, n)
    ensures JobInv(e, id, j.(part := Some(Pwrite(j.part.value, at, piece))))
  {
    hide Pwrite, FileIntact, Expected, ChunkBytes, SumMap, RowsFit, Described, Compatible;
    var f, j' := Pwrite(j.part.value, at, piece), j.(part := Some(Pwrite(j.part.value, at, piece)));
    WriteKeepsRows(e, j, j.part.value, n, at, piece);
    SameIntactFile(e, j, j', f);
  }

  lemma SameIntactFile(e: Env, j: Job, j': Job, f: File)
    requires FileIntact(e, j, f) && j'.rows == j.rows && j'.chunkSize == j.chunkSize
    ensures FileIntact(e, j', f)
  {
    forall m | m in j'.rows ensures RowIntact(e, j', f, m) { assert RowIntact(e, j, f, m); }
  }

  lemma SyncKeeps(e: Env, id: JobId, j: Job)
    requires JobInv(e, id, j) && Accepting(j.state) && j.part.Some?
    ensures JobInv(e, id, j.(part := Some(Sync(j.part.value))))
  {
    SameRows(e, j, j.(part := Some(Sync(j.part.value))));
    hide RowsIntact;
  }

  /** The chunk transaction keeps the counters true. */
  lemma CommitAccounted(j: Job, n: nat, want: nat, sum: string, deadline: nat)
    requires j.chunkSize > 0 && Accounted(j) && Accepting(j.state) && n !in j.rows
    requires n < Expected(j.size, j.chunkSize) && want == ChunkBytes(j.size, j.chunkSize, n)
    ensures Accounted(CommitChunk(j, n, want, sum, deadline))
  {
    hide ChunkBytes, Expected;
    SumMapInsert<nat, Row>(j.rows, n, Row(want, sum), RowBytes);
    assert CommitChunk(j, n, want, sum, deadline).rows.Keys == j.rows.Keys + {n};
  }

  /** The chunk transaction keeps every row true of the file. */
  lemma CommitIntact(e: Env, j: Job, j': Job, n: nat, body: seq<Byte>)
    requires RowsIntact(e, j) && j.part.Some? && n !in j.rows && j.input.None?
    requires j'.part == j.part && j'.input.None? && j'.chunkSize == j.chunkSize
    requires j'.rows == j.rows[n := Row(|body|, e.sha(body))]
    requires Holds(j.part.value, n * j.chunkSize, body) && OnDisk(j.part.value, n * j.chunkSize, |body|)
    ensures RowsIntact(e, j')
  {
    var f := j.part.value;
    forall m | m in j'.rows ensures RowIntact(e, j', f, m) {
      if m != n { assert RowIntact(e, j, f, m); }
    }
  }

  lemma CommitKeeps(e: Env, id: JobId, j: Job, n: nat, body: seq<Byte>, sum: string, deadline: nat)
    requires JobInv(e, id, j) && Accepting(j.state) && j.part.Some? && n !in j.rows && n < Expected(j.size, j.chunkSize)
    requires |body| == ChunkBytes(j.size, j.chunkSize, n) && e.sha(body) == sum
    requires Holds(j.part.value, n * j.chunkSize, body) && OnDisk(j.part.value, n * j.chunkSize, |body|)
    ensures JobInv(e, id, CommitChunk(j, n, |body|, sum, deadline))
  {
    CommitAccounted(j, n, |body|, sum, deadline);
    CommitIntact(e, j, CommitChunk(j, n, |body|, sum, deadline), n, body);
    hide RowsIntact, Accounted, Expected, ChunkBytes, Holds, OnDisk;
  }

  lemma CompleteKeeps(e: Env, id: JobId, j: Job)
    requires JobInv(e, id, j) && Completable(j) && Ready(j)
    ensures JobInv(e, id, CompleteUpload(j))
  {
    SameRows(e, j, CompleteUpload(j));
    hide RowsIntact;
  }

  lemma TouchKeeps(e: Env, id: JobId, j: Job, deadline: nat)
    requires JobInv(e, id, j)
    ensures JobInv(e, id, Touch(j, deadline))
  {
    if Accepting(j.state) {
      SameRows(e, j, Touch(j, deadline));
      hide RowsIntact;
    }
  }

  lemma RenameKeeps(e: Env, id: JobId, j: Job)
    requires JobInv(e, id, j) && j.state == FINALIZING
    ensures JobInv(e, id, RenameInput(j))
  {
    SameRows(e, j, RenameInput(j));
    hide RowsIntact;
  }

  /** Moves within the processing states change only the state. */
  lemma AdvanceKeeps(e: Env, id: JobId, j: Job, to: JobState)
    requires JobInv(e, id, j) && (Owned(j.state) || j.state == QUEUED) && j.state != FINALIZING
    requires (Owned(to) || to == QUEUED) && to != FINALIZING
    ensures JobInv(e, id, j.(state := to))
  {
    hide RowsIntact, RowsFit, Expected, SumMap, Described, Compatible;
    SameRows(e, j, j.(state := to));
  }

  lemma StageKeeps(e: Env, id: JobId, j: Job, hash: string)
    requires JobInv(e, id, j) && j.state == FINALIZING && e.validSha(hash)
    ensures JobInv(e, id, StageInput(j, hash))
  {
    SameRows(e, j, StageInput(j, hash));
    hide RowsIntact;
  }

  lemma OutputKeeps(e: Env, id: JobId, j: Job, out: OutputDir)
    requires JobInv(e, id, j) && j.state == TRANSCODING
    ensures JobInv(e, id, j.(output := out))
  {
    SameRows(e, j, j.(output := out));
    hide RowsIntact;
  }

  lemma RecordKeeps(e: Env, id: JobId, j: Job, at: nat)
    requires JobInv(e, id, j) && j.state == TRANSCODING && Described(e, id, j, at)
    ensures JobInv(e, id, MarkCompleted(j, at))
  {
    assert Described(e, id, MarkCompleted(j, at), at) by {
      var data :| j.output.manifest.value == ManifestOf(e, id, j, data, at);
      assert MarkCompleted(j, at).output.manifest.value == ManifestOf(e, id, MarkCompleted(j, at), data, at);
    }
    hide RowsIntact, Described;
  }

  lemma ZeroKeeps(e: Env, id: JobId, j: Job, amount: nat)
    requires JobInv(e, id, j) && !Accepting(j.state)
    ensures JobInv(e, id, ZeroReserved(j, amount))
  {
    SameRows'(e, id, j, ZeroReserved(j, amount));
    hide RowsIntact, Described;
  }

  lemma DropKeeps(e: Env, id: JobId, j: Job)
    requires JobInv(e, id, j) && j.reserved == 0
    ensures JobInv(e, id, j.(ledger := None))
  {
    SameRows'(e, id, j, j.(ledger := None));
    hide RowsIntact, Described;
  }

  /** Changes outside the rows, the files and what the manifest describes. */
  lemma SameRows'(e: Env, id: JobId, j: Job, j': Job)
    requires JobInv(e, id, j) && j' == j.(reserved := j'.reserved, ledger := j'.ledger)
    ensures RowsIntact(e, j) ==> RowsIntact(e, j')
    ensures j.finished.Some? && Described(e, id, j, j.finished.value) ==> Described(e, id, j', j.finished.value)
  {
    if RowsIntact(e, j) { SameRows(e, j, j'); }
    if j.finished.Some? && Described(e, id, j, j.finished.value) {
      var data :| j.output.manifest.value == ManifestOf(e, id, j, data, j.finished.value);
      assert j'.output.manifest.value == ManifestOf(e, id, j', data, j.finished.value);
    }
  }

  lemma FailedKeeps(e: Env, id: JobId, j: Job, now: nat)
    requires JobInv(e, id, j) && !Accepting(j.state)
    ensures JobInv(e, id, MarkFailed(j, now))
  {
    hide RowsIntact, Described;
  }

  lemma RemoveKeeps(e: Env, id: JobId, j: Job)
    requires JobInv(e, id, j) && Terminal(j.state)
    ensures JobInv(e, id, RemoveSpool(j))
  {
    if j.state == COMPLETED {
      var data :| j.output.manifest.value == ManifestOf(e, id, j, data, j.finished.value);
      assert RemoveSpool(j).output.manifest.value == ManifestOf(e, id, RemoveSpool(j), data, j.finished.value);
    }
    hide RowsIntact;
  }

  lemma ReserveKeeps(e: Env, id: JobId, j: Job)
    requires JobInv(e, id, j) && j.state == PENDING
    ensures JobInv(e, id, Reserve(j))
  {
    SameRows(e, j, Reserve(j));
    hide RowsIntact;
  }

  lemma PrepareKeeps(e: Env, id: JobId, j: Job)
    requires JobInv(e, id, j) && j.state == PENDING
    ensures JobInv(e, id, PrepareInput(j)) && Ready(PrepareInput(j))
  {
  }

  lemma AdmittedKeeps(e: Env, id: JobId, j: Job, amount: nat, deadline: nat)
    requires JobInv(e, id, j) && j.state == PENDING && j.reserved == amount == j.size
    ensures JobInv(e, id, Admitted(j, amount, deadline))
  {
    SameRows(e, j, Admitted(j, amount, deadline));
    assert SumMap(j.rows, RowBytes) == 0;
    hide RowsIntact;
  }

  lemma ExpireKeeps(e: Env, id: JobId, j: Job, now: nat)
    requires JobInv(e, id, j)
    ensures JobInv(e, id, Expire(j, now)) && JobInv(e, id, RejectUpload(j, now))
  {
    hide RowsIntact, Described;
  }
}
