/** Chunk geometry: how a file of `size` bytes is cut into chunks, and why the
    counters kept per job say exactly which chunks have arrived. */
module Chunks {
  import opened Base

  datatype Row = Row(bytes: nat, sha: string)

  /** The number of chunks of a file. */
  function Expected(size: nat, chunkSize: nat): nat
    requires chunkSize > 0
  {
    (size + chunkSize - 1) / chunkSize
  }

  /** The length of chunk n: a full chunk, or what is left of the file. */
  function ChunkBytes(size: nat, chunkSize: nat, n: nat): int {
    var v := size - n * chunkSize;
    if v < chunkSize then v else chunkSize
  }

  /** n is a chunk number exactly when its first byte lies inside the file, and
      then its bytes lie inside the file too. */
  lemma ChunkInside(size: nat, chunkSize: nat, n: nat)
    requires chunkSize > 0
    ensures n < Expected(size, chunkSize) <==> n * chunkSize < size
    ensures n < Expected(size, chunkSize) ==>
              0 < ChunkBytes(size, chunkSize, n) <= chunkSize
              && n * chunkSize + ChunkBytes(size, chunkSize, n) <= size
  {
    var q, r := (size + chunkSize - 1) / chunkSize, (size + chunkSize - 1) % chunkSize;
    assert size + chunkSize - 1 == q * chunkSize + r;
    if n < q {
      MulMonotone(n + 1, q, chunkSize);
      assert (n + 1) * chunkSize == n * chunkSize + chunkSize;
    } else {
      MulMonotone(q, n, chunkSize);
    }
  }

  lemma MulMonotone(a: nat, b: nat, c: nat)
    requires a <= b
    ensures a * c <= b * c
  {
    assert (b - a) * c >= 0;
    assert b * c == a * c + (b - a) * c;
  }

  /** Two different chunks never share a byte. */
  lemma ChunksDisjoint(size: nat, chunkSize: nat, n: nat, m: nat)
    requires chunkSize > 0 && n != m
    ensures n * chunkSize + ChunkBytes(size, chunkSize, n) <= m * chunkSize
            || m * chunkSize + ChunkBytes(size, chunkSize, m) <= n * chunkSize
  {
    if n < m {
      MulMonotone(n + 1, m, chunkSize);
      assert (n + 1) * chunkSize == n * chunkSize + chunkSize;
    } else {
      MulMonotone(m + 1, n, chunkSize);
      assert (m + 1) * chunkSize == m * chunkSize + chunkSize;
    }
  }

  /** Every byte of the file lies in exactly one chunk. */
  lemma ChunkOf(size: nat, chunkSize: nat, i: nat)
    requires chunkSize > 0 && i < size
    ensures var n := i / chunkSize;
            n < Expected(size, chunkSize)
            && n * chunkSize <= i < n * chunkSize + ChunkBytes(size, chunkSize, n)
  {
    var n := i / chunkSize;
    assert i == n * chunkSize + i % chunkSize;
    ChunkInside(size, chunkSize, n);
  }

  /* ---- accounting ---- */

  /** The rows of a job describe chunks of its file. */
  ghost predicate RowsFit(size: nat, chunkSize: nat, rows: map<nat, Row>)
    requires chunkSize > 0
  {
    forall n :: n in rows ==> n < Expected(size, chunkSize) && rows[n].bytes == ChunkBytes(size, chunkSize, n)
  }

  function RowBytes(r: Row): nat { r.bytes }

  /** All k first chunks are present. */
  ghost predicate AllBelow(numbers: set<nat>, k: nat) {
    forall n :: 0 <= n < k ==> n in numbers
  }

  /** How much of the file the first k chunks cover. */
  ghost function Reach(size: nat, chunkSize: nat, k: nat): nat {
    if k * chunkSize < size then k * chunkSize else size
  }

  lemma ReachStep(size: nat, chunkSize: nat, k: nat)
    requires chunkSize > 0 && 0 < k <= Expected(size, chunkSize)
    ensures 0 < ChunkBytes(size, chunkSize, k - 1)
    ensures Reach(size, chunkSize, k) == Reach(size, chunkSize, k - 1) + ChunkBytes(size, chunkSize, k - 1)
  {
    ChunkInside(size, chunkSize, k - 1);
    assert k * chunkSize == (k - 1) * chunkSize + chunkSize;
  }

  /** The chunk lengths of a file, and the rows that match them. */
  ghost function Lengths(size: nat, chunkSize: nat): seq<int>
    requires chunkSize > 0
  {
    seq(Expected(size, chunkSize), n => if n >= 0 then ChunkBytes(size, chunkSize, n) else 0)
  }

  ghost function Total(q: seq<int>, k: nat): int
    requires k <= |q|
  {
    if k == 0 then 0 else Total(q, k - 1) + q[k - 1]
  }

  ghost predicate Match(q: seq<int>, rows: map<nat, Row>) {
    forall n :: n in rows ==> n < |q| && rows[n].bytes == q[n]
  }

  /** The lengths of the first k chunks add up to what these chunks reach. */
  lemma {:induction false} LengthsReach(size: nat, chunkSize: nat, k: nat)
    requires chunkSize > 0 && k <= Expected(size, chunkSize)
    ensures Total(Lengths(size, chunkSize), k) == Reach(size, chunkSize, k)
  {
    if k > 0 {
      LengthsReach(size, chunkSize, k - 1);
      ReachStep(size, chunkSize, k);
    }
  }

  /** Numbers below k are at most k many, and exactly k if none is missing. */
  lemma {:induction false} CountBelow(numbers: set<nat>, k: nat)
    requires forall n :: n in numbers ==> n < k
    ensures if AllBelow(numbers, k) then |numbers| == k else |numbers| < k
    decreases k
  {
    if k == 0 {
      assert numbers == {};
    } else {
      var less := numbers - {k - 1};
      CountBelow(less, k - 1);
      if k - 1 in numbers {
        assert numbers == less + {k - 1};
        AllBelowStep(numbers, k);
      } else {
        assert less == numbers;
      }
    }
  }

  lemma AllBelowStep(numbers: set<nat>, k: nat)
    requires k > 0 && k - 1 in numbers
    ensures AllBelow(numbers - {k - 1}, k - 1) <==> AllBelow(numbers, k)
  {
    if AllBelow(numbers - {k - 1}, k - 1) {
      forall n | 0 <= n < k ensures n in numbers {
        assert n < k - 1 ==> n in numbers - {k - 1};
      }
    }
  }

  /** Rows below k hold at most the first k lengths, and exactly these if none is missing. */
  lemma {:induction false} RowSum(q: seq<int>, rows: map<nat, Row>, k: nat)
    requires k <= |q| && Match(q, rows) && forall n :: n in rows ==> n < k
    requires forall n :: 0 <= n < k ==> q[n] > 0
    ensures if AllBelow(rows.Keys, k) then SumMap(rows, RowBytes) == Total(q, k)
            else SumMap(rows, RowBytes) < Total(q, k)
    decreases k
  {
    if k == 0 {
      assert rows == map[];
    } else {
      var m: nat := k - 1;
      var less: map<nat, Row> := rows - {m};
      RowSum(q, less, k - 1);
      if k - 1 in rows {
        SumMapRemove<nat, Row>(rows, m, RowBytes);
        assert less.Keys == rows.Keys - {k - 1};
        AllBelowStep(rows.Keys, k);
      } else {
        assert less == rows;
      }
    }
  }

  /** Upload accounting: the byte counter, the chunk counter and the set of
      verified numbers all say the same thing about a finished upload. */
  lemma CountersAgree(size: nat, chunkSize: nat, rows: map<nat, Row>)
    requires chunkSize > 0 && RowsFit(size, chunkSize, rows)
    ensures SumMap(rows, RowBytes) <= size && |rows| <= Expected(size, chunkSize)
    ensures SumMap(rows, RowBytes) == size <==> AllBelow(rows.Keys, Expected(size, chunkSize))
    ensures |rows| == Expected(size, chunkSize) <==> AllBelow(rows.Keys, Expected(size, chunkSize))
  {
    var k := Expected(size, chunkSize);
    var q := Lengths(size, chunkSize);
    forall n | 0 <= n < k ensures q[n] > 0 { ChunkInside(size, chunkSize, n); }
    assert Match(q, rows);
    CountBelow(rows.Keys, k);
    assert |rows.Keys| == |rows|;
    RowSum(q, rows, k);
    LengthsReach(size, chunkSize, k);
    ChunkInside(size, chunkSize, k);
  }
}
