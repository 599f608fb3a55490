/** Output manifests: validation, and the rebuilding of a job database from them. */
module Manifests {
  import opened Base
  import opened Chunks
  import opened Files
  import opened Spec
  import opened Jobs

  /** What stands at manifest.json. Parsed: it decodes, its id is a job id and its times are times. */
  datatype ManifestFile = Absent | Blocked | Garbled | Parsed(manifest: Manifest)

  /** An entry of the output directory: its name if that is a job id, and its regular files. */
  datatype Entry = Entry(isDir: bool, name: Option<JobId>, manifest: ManifestFile, files: map<string, seq<Byte>>)

  /** The jobs table with the rows that hang on it, and capacity.reserved. */
  datatype Db = Db(jobs: map<JobId, Job>, reserved: nat)

  datatype Status = IMPORTED | UPDATED | IDENTICAL | CONFLICT

  datatype Tally = Tally(found: nat, imported: nat, updated: nat, existing: nat, conflicts: nat, invalid: nat)

  /* ---- validation ---- */

  function TrimSlashes(s: string): string {
    if s != "" && s[|s| - 1] == '/' then TrimSlashes(s[..|s| - 1]) else s
  }

  function AfterSlash(s: string): string {
    if s == "" || s[|s| - 1] == '/' then "" else AfterSlash(s[..|s| - 1]) + [s[|s| - 1]]
  }

  /** The last element of a path. */
  function BaseName(s: string): string {
    if s == "" then "."
    else if TrimSlashes(s) == "" then "/"
    else AfterSlash(TrimSlashes(s))
  }

  lemma {:induction false} NoSlashNoChange(s: string)
    requires forall i :: 0 <= i < |s| ==> s[i] != '/'
    ensures AfterSlash(s) == s && TrimSlashes(s) == s
  {
    if s != "" {
      NoSlashNoChange(s[..|s| - 1]);
      assert s == s[..|s| - 1] + [s[|s| - 1]];
    }
  }

  /** The manifest agrees with itself and with the directory it was found in. */
  predicate WellFormed(e: Env, name: Option<JobId>, m: Manifest) {
    && m.version == 1 && name == Some(m.jobId)
    && e.validName(m.filename) && m.artifact != "" && BaseName(m.artifact) == m.artifact
    && m.inputSize > 0 && m.outputSize >= 0 && m.chunkSize > 0
    && e.validSha(m.inputHash) && e.validSha(m.outputHash)
    && (m.requestedHash == "" || e.validSha(m.requestedHash))
    && m.container == m.spec.container && Compatible(m.spec) && Ext(m.artifact) == "." + m.container
  }

  /** validateManifestArtifact. */
  predicate Validates(e: Env, name: Option<JobId>, m: Manifest, files: map<string, seq<Byte>>) {
    && WellFormed(e, name, m)
    && m.artifact in files && |files[m.artifact]| == m.outputSize && e.sha(files[m.artifact]) == m.outputHash
  }

  /** Everything that makes a manifest invalid: identity, names, sizes, digests,
      specification, or an artifact that is not the one it describes. */
  lemma InvalidManifests(e: Env, name: Option<JobId>, m: Manifest, files: map<string, seq<Byte>>)
    ensures !Validates(e, name, m, files) <==>
              || m.version != 1 || name.None? || name.value != m.jobId
              || !e.validName(m.filename) || m.artifact == "" || BaseName(m.artifact) != m.artifact
              || m.inputSize <= 0 || m.outputSize < 0 || m.chunkSize <= 0 || !e.validSha(m.inputHash) || !e.validSha(m.outputHash)
              || (m.requestedHash != "" && !e.validSha(m.requestedHash))
              || m.container != m.spec.container || !Compatible(m.spec) || Ext(m.artifact) != "." + m.container
              || m.artifact !in files || |files[m.artifact]| != m.outputSize || e.sha(files[m.artifact]) != m.outputHash
  {
  }

  /** A plain name is one that a path cannot hide in. */
  lemma {:induction false} BaseNameIsPlain(s: string)
    requires s != "" && BaseName(s) == s && s != "/"
    ensures forall i :: 0 <= i < |s| ==> s[i] != '/'
  {
    AfterSlashPlain(TrimSlashes(s));
  }

  lemma {:induction false} AfterSlashPlain(s: string)
    ensures forall i :: 0 <= i < |AfterSlash(s)| ==> AfterSlash(s)[i] != '/'
  {
    if s != "" && s[|s| - 1] != '/' { AfterSlashPlain(s[..|s| - 1]); }
  }

  /** The manifest a run writes is well formed for the directory it is written to. */
  lemma WrittenIsWellFormed(e: Env, id: JobId, j: Job, data: seq<Byte>, at: nat)
    requires EnvOk(e) && JobInv(e, id, j) && e.validSha(j.actualHash)
    ensures WellFormed(e, Some(id), ManifestOf(e, id, j, data, at))
  {
    hide Compatible, Ext, ArtifactName, BaseName, RowsIntact, FilesSized, Whole, Described;
    ArtifactExt(j.spec);
    PlainName(ArtifactName(j.spec));
  }

  lemma PlainName(s: string)
    requires s != "" && forall i :: 0 <= i < |s| ==> s[i] != '/'
    ensures BaseName(s) == s
  {
    NoSlashNoChange(s);
  }

  /* ---- importing one manifest ---- */

  function ExpectedOf(m: Manifest): nat
    requires m.inputSize > 0 && m.chunkSize > 0
  {
    Expected(m.inputSize, m.chunkSize)
  }

  /** The row inserted for a job the database does not know. */
  function RowOf(m: Manifest): Job
    requires m.inputSize > 0 && m.chunkSize > 0
  {
    Job(COMPLETED, None, m.filename, m.createdAt, m.inputSize, m.chunkSize, ExpectedOf(m), m.spec, m.requestedHash,
        m.inputHash, m.inputSize, ExpectedOf(m), map[], 0, None, None, m.artifact, Some(m.completedAt), false,
        None, None, OutputDir(None, None))
  }

  /** The row of a known, not completed job after the update; its key and its files stay. */
  function Overwritten(j: Job, m: Manifest): Job
    requires m.inputSize > 0 && m.chunkSize > 0
  {
    RowOf(m).(key := j.key, part := j.part, input := j.input, output := j.output)
  }

  /** matchesManifest: the row says what the manifest says. */
  predicate Matches(j: Job, m: Manifest)
    requires m.inputSize > 0 && m.chunkSize > 0
  {
    && j.filename == m.filename && j.size == m.inputSize && j.received == m.inputSize
    && j.chunks == ExpectedOf(m) && j.expected == ExpectedOf(m) && j.chunkSize == m.chunkSize
    && j.inputHash == m.requestedHash && j.actualHash == m.inputHash && j.reserved == 0 && !j.error
    && j.artifact == m.artifact && j.spec == m.spec && j.created == m.createdAt && j.finished == Some(m.completedAt)
  }

  function StatusOf(db: Db, m: Manifest): Status
    requires m.inputSize > 0 && m.chunkSize > 0
  {
    if m.jobId !in db.jobs then IMPORTED
    else if db.jobs[m.jobId].state != COMPLETED then UPDATED
    else if Matches(db.jobs[m.jobId], m) then IDENTICAL
    else CONFLICT
  }

  function Imported(db: Db, m: Manifest): Db
    requires m.inputSize > 0 && m.chunkSize > 0
  {
    match StatusOf(db, m)
    case IMPORTED => Db(db.jobs[m.jobId := RowOf(m)], db.reserved)
    case UPDATED =>
      var j := db.jobs[m.jobId];
      Db(db.jobs[m.jobId := Overwritten(j, m)], Released(db.reserved, j.reserved))
    case _ => db
  }

  /** After an import that is not a conflict the row is completed and matches,
      and importing again finds it identical and changes nothing. */
  lemma ImportSettles(db: Db, m: Manifest)
    requires m.inputSize > 0 && m.chunkSize > 0 && StatusOf(db, m) != CONFLICT
    ensures var db' := Imported(db, m);
            && m.jobId in db'.jobs && db'.jobs[m.jobId].state == COMPLETED && Matches(db'.jobs[m.jobId], m)
            && StatusOf(db', m) == IDENTICAL && Imported(db', m) == db'
  {
    hide Expected;
  }

  /** What an import does to the database. A job that is not there is inserted as
      the manifest says, with nothing uploaded, reserved or pending. A job that is
      there and not completed becomes what the manifest says; its chunk rows, its
      reservation row, its deadline and what it held of the capacity are gone, and
      its request key and its files stay. A completed job is never changed. */
  lemma ImportEffect(db: Db, m: Manifest)
    requires m.inputSize > 0 && m.chunkSize > 0
    ensures var db' := Imported(db, m);
            && (forall id :: id in db.jobs && id != m.jobId ==> id in db'.jobs && db'.jobs[id] == db.jobs[id])
            && db'.jobs.Keys == db.jobs.Keys + {m.jobId}
            && var j' := db'.jobs[m.jobId];
               if m.jobId in db.jobs && db.jobs[m.jobId].state == COMPLETED then db' == db
               else
                 && j'.state == COMPLETED && j'.rows == map[] && j'.ledger.None? && j'.deadline.None? && j'.reserved == 0 && !j'.error
                 && j'.filename == m.filename && j'.created == m.createdAt && j'.finished == Some(m.completedAt) && j'.spec == m.spec
                 && j'.size == m.inputSize && j'.received == m.inputSize && j'.chunkSize == m.chunkSize
                 && j'.expected == (m.inputSize + m.chunkSize - 1) / m.chunkSize && j'.chunks == j'.expected
                 && j'.inputHash == m.requestedHash && j'.actualHash == m.inputHash && j'.artifact == m.artifact
                 && if m.jobId in db.jobs then
                      var j := db.jobs[m.jobId];
                      && j'.key == j.key && j'.part == j.part && j'.input == j.input && j'.output == j.output
                      && db'.reserved == if db.reserved >= j.reserved then db.reserved - j.reserved else 0
                    else
                      j'.key.None? && j'.part.None? && j'.input.None? && j'.output == OutputDir(None, None) && db'.reserved == db.reserved
  {
  }

  /** How an import is classified. A completed job is identical only if it agrees
      with the manifest in everything; a difference anywhere is a conflict. */
  lemma ImportStatus(db: Db, m: Manifest)
    requires m.inputSize > 0 && m.chunkSize > 0
    ensures StatusOf(db, m) == IMPORTED <==> m.jobId !in db.jobs
    ensures StatusOf(db, m) == UPDATED <==> m.jobId in db.jobs && db.jobs[m.jobId].state != COMPLETED
    ensures m.jobId in db.jobs && db.jobs[m.jobId].state == COMPLETED ==>
              var j, n := db.jobs[m.jobId], (m.inputSize + m.chunkSize - 1) / m.chunkSize;
              && (StatusOf(db, m) == CONFLICT <==>
                    || j.filename != m.filename || j.size != m.inputSize || j.received != m.inputSize || j.chunks != n || j.expected != n
                    || j.chunkSize != m.chunkSize || j.inputHash != m.requestedHash || j.actualHash != m.inputHash || j.reserved > 0 || j.error
                    || j.artifact != m.artifact || j.spec != m.spec || j.created != m.createdAt || j.finished != Some(m.completedAt))
              && (StatusOf(db, m) == IDENTICAL <==> StatusOf(db, m) != CONFLICT)
  {
  }

  /* ---- the whole output directory ---- */

  const Nothing := Tally(0, 0, 0, 0, 0, 0)

  function Counted(t: Tally, s: Status): Tally {
    match s
    case IMPORTED => t.(imported := t.imported + 1)
    case UPDATED => t.(updated := t.updated + 1)
    case IDENTICAL => t.(existing := t.existing + 1)
    case CONFLICT => t.(conflicts := t.conflicts + 1)
  }

  predicate Usable(e: Env, x: Entry) {
    x.isDir && x.manifest.Parsed? && Validates(e, x.name, x.manifest.manifest, x.files)
  }

  function DbAfter(e: Env, db: Db, x: Entry): Db {
    if Usable(e, x) then Imported(db, x.manifest.manifest) else db
  }

  function TallyAfter(e: Env, db: Db, t: Tally, x: Entry): Tally {
    if !x.isDir || x.manifest.Absent? then t
    else if x.manifest.Blocked? then t.(invalid := t.invalid + 1)
    else if !Usable(e, x) then t.(found := t.found + 1, invalid := t.invalid + 1)
    else Counted(t.(found := t.found + 1), StatusOf(db, x.manifest.manifest))
  }

  function Backfilled(e: Env, db: Db, entries: seq<Entry>): (Db, Tally) {
    if entries == [] then (db, Nothing)
    else
      var before := Backfilled(e, db, entries[..|entries| - 1]);
      var x := entries[|entries| - 1];
      (DbAfter(e, before.0, x), TallyAfter(e, before.0, before.1, x))
  }

  /** A directory listing names every entry once. */
  ghost predicate Listing(entries: seq<Entry>) {
    forall i, k :: 0 <= i < k < |entries| && entries[i].name.Some? ==> entries[i].name != entries[k].name
  }

  /** The database of an offline backfill, updated in place. */
  class Database {
    var jobs: map<JobId, Job>
    var reserved: nat

    constructor (db: Db)
      ensures Contents() == db
    {
      jobs, reserved := db.jobs, db.reserved;
    }

    function Contents(): Db
      reads this
    {
      Db(jobs, reserved)
    }

    /** importOutputManifest: one transaction. */
    method Import(m: Manifest) returns (status: Status)
      requires m.inputSize > 0 && m.chunkSize > 0
      modifies this
      ensures status == StatusOf(old(Contents()), m)
      ensures Contents() == Imported(old(Contents()), m)
    {
      var id := m.jobId;
      if id in jobs && jobs[id].state == COMPLETED {
        status := if Matches(jobs[id], m) then IDENTICAL else CONFLICT;
      } else if id !in jobs {
        jobs := jobs[id := RowOf(m)];
        status := IMPORTED;
      } else {
        var existing := jobs[id];
        jobs := jobs[id := existing.(ledger := None)];
        jobs := jobs[id := jobs[id].(rows := map[])];
        if existing.reserved > 0 {
          reserved := Released(reserved, existing.reserved);
        }
        jobs := jobs[id := jobs[id].(
          state := COMPLETED, filename := m.filename, size := m.inputSize, received := m.inputSize,
          chunks := ExpectedOf(m), expected := ExpectedOf(m), chunkSize := m.chunkSize, spec := m.spec,
          inputHash := m.requestedHash, actualHash := m.inputHash, reserved := 0, error := false,
          artifact := m.artifact, deadline := None, created := m.createdAt, finished := Some(m.completedAt))];
        status := UPDATED;
      }
    }

    /** backfillOutputManifests: the result counters, and whether the command succeeds. */
    method Backfill(e: Env, entries: seq<Entry>) returns (t: Tally, ok: bool)
      modifies this
      ensures (Contents(), t) == Backfilled(e, old(Contents()), entries)
      ensures ok <==> t.invalid == 0 && t.conflicts == 0
    {
      t := Nothing;
      for i := 0 to |entries|
        invariant (Contents(), t) == Backfilled(e, old(Contents()), entries[..i])
      {
        var x := entries[i];
        assert entries[..i + 1][..|entries[..i + 1]| - 1] == entries[..i];
        if x.isDir && !x.manifest.Absent? {
          if x.manifest.Blocked? {
            t := t.(invalid := t.invalid + 1);
          } else {
            t := t.(found := t.found + 1);
            if x.manifest.Garbled? || !Validates(e, x.name, x.manifest.manifest, x.files) {
              t := t.(invalid := t.invalid + 1);
            } else {
              var status := Import(x.manifest.manifest);
              t := Counted(t, status);
            }
          }
        }
      }
      assert entries[..|entries|] == entries;
      ok := t.invalid == 0 && t.conflicts == 0;
    }
  }

  /* ---- what a backfill does to the database ---- */

  lemma FrontListing(entries: seq<Entry>)
    requires entries != [] && Listing(entries)
    ensures Listing(entries[..|entries| - 1])
  {
  }

  /** The entry that speaks for a job, if the listing has a usable one. */
  ghost predicate Speaks(e: Env, entries: seq<Entry>, i: nat, id: JobId) {
    i < |entries| && Usable(e, entries[i]) && entries[i].manifest.manifest.jobId == id
  }

  /** Each job row changes at most once, by the one usable manifest in its own
      directory; rows without one, and completed rows, are not touched. */
  lemma {:induction false} RowAfter(e: Env, db: Db, entries: seq<Entry>, id: JobId)
    requires Listing(entries)
    ensures var jobs := Backfilled(e, db, entries).0.jobs;
            forall i: nat :: Speaks(e, entries, i, id) ==>
              id in jobs && jobs[id] == (if id !in db.jobs then RowOf(entries[i].manifest.manifest)
                                         else if db.jobs[id].state == COMPLETED then db.jobs[id]
                                         else Overwritten(db.jobs[id], entries[i].manifest.manifest))
    ensures var jobs := Backfilled(e, db, entries).0.jobs;
            (forall i: nat :: !Speaks(e, entries, i, id)) ==> (id in jobs <==> id in db.jobs) && (id in db.jobs ==> jobs[id] == db.jobs[id])
    decreases |entries|
  {
    hide BaseName, Compatible, Ext, RowOf, Matches;
    if entries != [] {
      var less, last := entries[..|entries| - 1], |entries| - 1;
      FrontListing(entries);
      RowAfter(e, db, less, id);
      assert forall i :: 0 <= i < last ==> (Speaks(e, entries, i, id) <==> Speaks(e, less, i, id));
      if Speaks(e, entries, last, id) {
        SpeaksAlone(e, entries, last, id);
      }
    }
  }

  lemma SpeaksAlone(e: Env, entries: seq<Entry>, i: nat, id: JobId)
    requires Listing(entries) && Speaks(e, entries, i, id)
    ensures forall k :: 0 <= k < |entries| && k != i ==> !Speaks(e, entries, k, id)
  {
    hide BaseName, Compatible, Ext;
  }

  /** Completed rows are never modified, whatever the manifests say. */
  lemma CompletedUntouched(e: Env, db: Db, entries: seq<Entry>, id: JobId)
    requires Listing(entries) && id in db.jobs && db.jobs[id].state == COMPLETED
    ensures id in Backfilled(e, db, entries).0.jobs && Backfilled(e, db, entries).0.jobs[id] == db.jobs[id]
  {
    hide Speaks, Backfilled;
    RowAfter(e, db, entries, id);
    if i: nat :| Speaks(e, entries, i, id) {
    }
  }

  /** The number of directories with something at manifest.json. */
  function ManifestCount(entries: seq<Entry>): nat {
    if entries == [] then 0
    else
      ManifestCount(entries[..|entries| - 1])
      + if entries[|entries| - 1].isDir && !entries[|entries| - 1].manifest.Absent? then 1 else 0
  }

  function Unreadable(entries: seq<Entry>): nat {
    if entries == [] then 0
    else
      Unreadable(entries[..|entries| - 1])
      + if entries[|entries| - 1].isDir && entries[|entries| - 1].manifest.Blocked? then 1 else 0
  }

  /** Every manifest is counted exactly once: as imported, updated, existing,
      conflicting or invalid; those that cannot even be looked at count as invalid but not as found. */
  lemma {:induction false} CountedOnce(e: Env, db: Db, entries: seq<Entry>)
    ensures var t := Backfilled(e, db, entries).1;
            && t.found + Unreadable(entries) == ManifestCount(entries)
            && t.imported + t.updated + t.existing + t.conflicts + t.invalid == ManifestCount(entries)
    decreases |entries|
  {
    hide BaseName, Compatible, Ext, RowOf, Matches, Imported;
    if entries != [] { CountedOnce(e, db, entries[..|entries| - 1]); }
  }

  /* ---- idempotence ---- */

  /** After the first pass every usable manifest of the listing finds its row settled. */
  ghost predicate SettledBy(e: Env, db: Db, db': Db, entries: seq<Entry>) {
    forall i :: 0 <= i < |entries| && Usable(e, entries[i]) ==>
      var m := entries[i].manifest.manifest;
      && m.jobId in db'.jobs && db'.jobs[m.jobId].state == COMPLETED
      && (StatusOf(db, m) == CONFLICT <==> !Matches(db'.jobs[m.jobId], m))
  }

  lemma FirstPassSettles(e: Env, db: Db, entries: seq<Entry>)
    requires Listing(entries)
    ensures SettledBy(e, db, Backfilled(e, db, entries).0, entries)
  {
    hide BaseName, Compatible, Ext, Expected, Backfilled;
    forall i | 0 <= i < |entries| && Usable(e, entries[i])
      ensures var m, db' := entries[i].manifest.manifest, Backfilled(e, db, entries).0;
              && m.jobId in db'.jobs && db'.jobs[m.jobId].state == COMPLETED
              && (StatusOf(db, m) == CONFLICT <==> !Matches(db'.jobs[m.jobId], m))
    {
      RowAfter(e, db, entries, entries[i].manifest.manifest.jobId);
      assert Speaks(e, entries, i, entries[i].manifest.manifest.jobId);
    }
  }

  /** A pass over settled rows changes nothing; what the first pass imported,
      updated or found existing is existing, and conflicts and invalid manifests stay what they were. */
  lemma {:induction false} SecondPass(e: Env, db: Db, db': Db, entries: seq<Entry>)
    requires Listing(entries) && SettledBy(e, db, db', entries)
    ensures var first, second := Backfilled(e, db, entries).1, Backfilled(e, db', entries);
            && second.0 == db'
            && second.1 == Tally(first.found, 0, 0, first.imported + first.updated + first.existing, first.conflicts, first.invalid)
    decreases |entries|
  {
    hide BaseName, Compatible, Ext, RowOf, Matches;
    if entries != [] {
      var less, x := entries[..|entries| - 1], entries[|entries| - 1];
      FrontListing(entries);
      assert SettledBy(e, db, db', less) by {
        forall i | 0 <= i < |less| && Usable(e, less[i])
          ensures less[i].manifest.manifest.jobId in db'.jobs && db'.jobs[less[i].manifest.manifest.jobId].state == COMPLETED
          ensures StatusOf(db, less[i].manifest.manifest) == CONFLICT <==> !Matches(db'.jobs[less[i].manifest.manifest.jobId], less[i].manifest.manifest)
        {
          assert entries[i] == less[i];
        }
      }
      SecondPass(e, db, db', less);
      if Usable(e, x) {
        StatusKept(e, db, less, x, entries);
        assert entries[|less|] == x;
      }
    }
  }

  lemma SpeaksEarlier(e: Env, less: seq<Entry>, entries: seq<Entry>, i: nat, id: JobId)
    requires less <= entries
    ensures Speaks(e, less, i, id) ==> Speaks(e, entries, i, id)
  {
    hide Usable;
  }

  /** The earlier entries of a listing do not decide how a later one is classified. */
  lemma StatusKept(e: Env, db: Db, less: seq<Entry>, x: Entry, entries: seq<Entry>)
    requires Listing(entries) && entries == less + [x] && Usable(e, x)
    ensures StatusOf(Backfilled(e, db, less).0, x.manifest.manifest) == StatusOf(db, x.manifest.manifest)
  {
    hide BaseName, Compatible, Ext, RowOf, Matches, Backfilled, Overwritten;
    var id := x.manifest.manifest.jobId;
    FrontListing(entries);
    assert less == entries[..|entries| - 1];
    RowAfter(e, db, less, id);
    SpeaksAlone(e, entries, |less|, id);
    forall i: nat ensures !Speaks(e, less, i, id) {
      SpeaksEarlier(e, less, entries, i, id);
    }
  }

  /** Backfill is idempotent. */
  lemma BackfillIdempotent(e: Env, db: Db, entries: seq<Entry>)
    requires Listing(entries)
    ensures var first := Backfilled(e, db, entries);
            var second := Backfilled(e, first.0, entries);
            && second.0 == first.0
            && second.1 == Tally(first.1.found, 0, 0, first.1.imported + first.1.updated + first.1.existing, first.1.conflicts, first.1.invalid)
  {
    hide Backfilled, SettledBy;
    FirstPassSettles(e, db, entries);
    SecondPass(e, db, Backfilled(e, db, entries).0, entries);
  }

  /* ---- the counters ---- */

  function CountIf(entries: seq<Entry>, P: Entry -> bool): nat {
    if entries == [] then 0
    else CountIf(entries[..|entries| - 1], P) + if P(entries[|entries| - 1]) then 1 else 0
  }

  /** Each counter counts what it says, by the state of the database before the backfill. */
  lemma {:induction false} CountedExactly(e: Env, db: Db, entries: seq<Entry>)
    requires Listing(entries)
    ensures var t := Backfilled(e, db, entries).1;
            && t.found == CountIf(entries, (x: Entry) => x.isDir && (x.manifest.Garbled? || x.manifest.Parsed?))
            && t.invalid == CountIf(entries, (x: Entry) => x.isDir && !x.manifest.Absent? && !Usable(e, x))
            && t.imported == CountIf(entries, (x: Entry) => Usable(e, x) && x.manifest.manifest.jobId !in db.jobs)
            && t.updated == CountIf(entries, (x: Entry) => Usable(e, x) && x.manifest.manifest.jobId in db.jobs
                                                           && db.jobs[x.manifest.manifest.jobId].state != COMPLETED)
            && t.existing == CountIf(entries, (x: Entry) => Usable(e, x) && StatusOf(db, x.manifest.manifest) == IDENTICAL)
            && t.conflicts == CountIf(entries, (x: Entry) => Usable(e, x) && StatusOf(db, x.manifest.manifest) == CONFLICT)
    decreases |entries|
  {
    hide BaseName, Compatible, Ext, RowOf, Matches, WellFormed;
    if entries != [] {
      var less, x := entries[..|entries| - 1], entries[|entries| - 1];
      FrontListing(entries);
      CountedExactly(e, db, less);
      assert entries == less + [x];
      if Usable(e, x) { StatusKept(e, db, less, x, entries); }
    }
  }

  /* ---- capacity ---- */

  ghost function Hold(jobs: map<JobId, Job>): nat { SumMap<JobId, Job>(jobs, ReservedOf) }

  /** A backfill keeps the capacity books: what the capacity row has beyond the jobs stays the same. */
  lemma {:induction false} BackfillConserves(e: Env, db: Db, entries: seq<Entry>)
    requires Hold(db.jobs) <= db.reserved
    ensures var db' := Backfilled(e, db, entries).0;
            db'.reserved - Hold(db'.jobs) == db.reserved - Hold(db.jobs)
    decreases |entries|
  {
    hide BaseName, Compatible, Ext, Hold, Imported;
    if entries != [] {
      BackfillConserves(e, db, entries[..|entries| - 1]);
      var before, x := Backfilled(e, db, entries[..|entries| - 1]).0, entries[|entries| - 1];
      if Usable(e, x) { ImportConserves(before, x.manifest.manifest); }
    }
  }

  lemma ImportConserves(db: Db, m: Manifest)
    requires m.inputSize > 0 && m.chunkSize > 0 && Hold(db.jobs) <= db.reserved
    ensures Imported(db, m).reserved - Hold(Imported(db, m).jobs) == db.reserved - Hold(db.jobs)
  {
    hide Expected, Matches;
    match StatusOf(db, m)
    case IMPORTED => SumMapInsert<JobId, Job>(db.jobs, m.jobId, RowOf(m), ReservedOf);
    case UPDATED =>
      SumMapRemove<JobId, Job>(db.jobs, m.jobId, ReservedOf);
      SumMapUpdate<JobId, Job>(db.jobs, m.jobId, Overwritten(db.jobs[m.jobId], m), ReservedOf);
    case _ =>
  }
}
