/** Shared vocabulary: options, and finite sums over sequences and maps. */
module Base {

  datatype Option<+T> = None | Some(value: T)

  type Byte = b: int | 0 <= b < 256

  /** A string in lower case; only ASCII letters are concerned. */
  function Lower(s: string): string {
    if s == "" then ""
    else
      var c := s[|s| - 1];
      Lower(s[..|s| - 1]) + [if 'A' <= c <= 'Z' then c + ' ' else c]
  }

  /** Each character by itself, in its place. */
  lemma {:induction false} LowerExactly(s: string)
    ensures |Lower(s)| == |s|
    ensures forall i :: 0 <= i < |s| ==> Lower(s)[i] == if 'A' <= s[i] <= 'Z' then (s[i] as int + 32) as char else s[i]
  {
    if s != "" { LowerExactly(s[..|s| - 1]); }
  }

  /** The sum of f over a sequence. */
  function SumSeq<T>(s: seq<T>, f: T -> nat): nat {
    if |s| == 0 then 0 else f(s[0]) + SumSeq(s[1..], f)
  }

  lemma {:induction false} SumSeqAppend<T>(s: seq<T>, t: seq<T>, f: T -> nat)
    ensures SumSeq(s + t, f) == SumSeq(s, f) + SumSeq(t, f)
  {
    if |s| == 0 {
      assert s + t == t;
    } else {
      assert (s + t)[1..] == s[1..] + t;
      SumSeqAppend(s[1..], t, f);
    }
  }

  lemma {:induction false} SumSeqUpdate<T>(s: seq<T>, i: nat, x: T, f: T -> nat)
    requires i < |s|
    ensures SumSeq(s[i := x], f) + f(s[i]) == SumSeq(s, f) + f(x)
  {
    assert s == s[..i] + ([s[i]] + s[i + 1..]);
    assert s[i := x] == s[..i] + ([x] + s[i + 1..]);
    SumSeqAppend(s[..i], [s[i]] + s[i + 1..], f);
    SumSeqAppend(s[..i], [x] + s[i + 1..], f);
    assert ([s[i]] + s[i + 1..])[1..] == ([x] + s[i + 1..])[1..];
  }

  lemma {:induction false} SumSeqAtLeast<T>(s: seq<T>, i: nat, f: T -> nat)
    requires i < |s|
    ensures f(s[i]) <= SumSeq(s, f)
  {
    if i > 0 {
      SumSeqAtLeast(s[1..], i - 1, f);
    }
  }

  lemma {:induction false} SumSeqZero<T>(s: seq<T>, f: T -> nat)
    requires forall i :: 0 <= i < |s| ==> f(s[i]) == 0
    ensures SumSeq(s, f) == 0
  {
    if |s| > 0 {
      SumSeqZero(s[1..], f);
    }
  }

  /** The sum of f over the values of a map. */
  ghost function SumMap<K, V>(m: map<K, V>, f: V -> nat): nat
    decreases |m|
  {
    if m == map[] then 0
    else
      var k :| k in m;
      f(m[k]) + SumMap(m - {k}, f)
  }

  lemma {:induction false} SumMapRemove<K, V>(m: map<K, V>, k: K, f: V -> nat)
    requires k in m
    ensures SumMap(m, f) == f(m[k]) + SumMap(m - {k}, f)
    decreases |m|
  {
    var c :| c in m && SumMap(m, f) == f(m[c]) + SumMap(m - {c}, f);
    if c != k {
      SumMapRemove(m - {c}, k, f);
      SumMapRemove(m - {k}, c, f);
      assert m - {c} - {k} == m - {k} - {c};
    }
  }

  lemma SumMapUpdate<K, V>(m: map<K, V>, k: K, v: V, f: V -> nat)
    requires k in m
    ensures SumMap(m[k := v], f) + f(m[k]) == SumMap(m, f) + f(v)
  {
    SumMapRemove(m, k, f);
    SumMapRemove(m[k := v], k, f);
    assert m[k := v] - {k} == m - {k};
  }

  lemma SumMapInsert<K, V>(m: map<K, V>, k: K, v: V, f: V -> nat)
    requires k !in m
    ensures SumMap(m[k := v], f) == SumMap(m, f) + f(v)
  {
    SumMapRemove(m[k := v], k, f);
    assert m[k := v] - {k} == m;
  }

  lemma {:induction false} SumMapSame<K, V>(m: map<K, V>, m': map<K, V>, f: V -> nat)
    requires m.Keys == m'.Keys
    requires forall k :: k in m ==> f(m[k]) == f(m'[k])
    ensures SumMap(m, f) == SumMap(m', f)
    decreases |m|
  {
    if m == map[] {
      assert m' == map[];
    } else {
      var k :| k in m;
      SumMapRemove(m, k, f);
      SumMapRemove(m', k, f);
      SumMapSame(m - {k}, m' - {k}, f);
    }
  }

  /** A finite set listed without repetition. */
  ghost function Listed<T(!new)>(s: set<T>): (q: seq<T>)
    ensures |q| == |s|
    ensures forall x :: x in q <==> x in s
    ensures forall i, j :: 0 <= i < j < |q| ==> q[i] != q[j]
    decreases |s|
  {
    if s == {} then []
    else
      var x :| x in s;
      [x] + Listed(s - {x})
  }
}
