/** A spool file: its bytes, and which of them the disk may still forget. */
module Files {
  import opened Base

  /** `dirty` holds the positions not known to be on disk. */
  datatype File = File(data: seq<Byte>, dirty: set<nat>)

  predicate Here(i: nat) { true }

  function Span(off: nat, len: nat): set<nat> {
    set i {:trigger Here(i)} | off <= i < off + len && Here(i)
  }

  /** pwrite: bytes past the end of the file extend it, a gap reads as zeros. */
  function Pwrite(f: File, off: nat, piece: seq<Byte>): File {
    if piece == [] then f
    else
      var end := off + |piece|;
      var len := if end < |f.data| then |f.data| else end;
      File(seq(len, i requires 0 <= i < len =>
               if off <= i < end then piece[i - off]
               else if i < |f.data| then f.data[i]
               else 0),
           f.dirty + Span(off, |piece|) + Span(|f.data|, len - |f.data|))
  }

  /** ftruncate: shorten, or extend with zeros. */
  function Truncate(f: File, size: nat): File {
    File(seq(size, i requires 0 <= i < size => if i < |f.data| then f.data[i] else 0), Span(0, size))
  }

  /** fdatasync. */
  function Sync(f: File): File { f.(dirty := {}) }

  const EmptyFile := File([], {})

  /** What a crash may make of a file: clean bytes keep their value. Nothing is
      known to be on disk after it that was not before: the dirty bytes of a
      killed process still wait in the page cache. */
  ghost predicate Survives(f: File, f': File) {
    && |f'.data| <= |f.data|
    && f'.dirty <= f.dirty
    && forall i :: 0 <= i < |f.data| && i !in f.dirty ==> i < |f'.data| && f'.data[i] == f.data[i]
  }

  /** The file holds `bytes` at `off`. */
  ghost predicate Holds(f: File, off: nat, bytes: seq<Byte>) {
    off + |bytes| <= |f.data| && f.data[off..off + |bytes|] == bytes
  }

  /** No byte of the region can be lost. */
  ghost predicate OnDisk(f: File, off: nat, len: nat) {
    forall i :: off <= i < off + len ==> i !in f.dirty
  }

  /** f and f' agree on a region, and no byte of it became losable. */
  ghost predicate SameRegion(f: File, f': File, off: nat, len: nat) {
    && off + len <= |f.data| && off + len <= |f'.data|
    && f'.data[off..off + len] == f.data[off..off + len]
    && (OnDisk(f, off, len) ==> OnDisk(f', off, len))
  }

  lemma PwriteExtends(f: File, off: nat, got: nat, body: seq<Byte>, z: nat)
    requires got + z <= |body| && Holds(f, off, body[..got])
    ensures Holds(Pwrite(f, off + got, body[got..got + z]), off, body[..got + z])
  {
    var f' := Pwrite(f, off + got, body[got..got + z]);
    if z == 0 {
      assert body[..got + z] == body[..got];
    } else {
      forall i | 0 <= i < got + z ensures f'.data[off + i] == body[i] {
        if i < got {
          assert f.data[off..off + got][i] == body[..got][i];
        }
      }
      assert f'.data[off..off + got + z] == body[..got + z];
    }
  }

  lemma PwriteElsewhere(f: File, at: nat, piece: seq<Byte>, off: nat, len: nat)
    requires off + len <= |f.data|
    requires at + |piece| <= off || off + len <= at
    ensures SameRegion(f, Pwrite(f, at, piece), off, len)
  {
  }

  lemma SurvivesRegion(f: File, f': File, off: nat, len: nat)
    requires Survives(f, f') && 0 < len && off + len <= |f.data| && OnDisk(f, off, len)
    ensures SameRegion(f, f', off, len) && OnDisk(f', off, len)
  {
    assert off + len - 1 !in f.dirty;
    assert forall i :: off <= i < off + len ==> f'.data[i] == f.data[i];
  }
}
