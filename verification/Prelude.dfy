/** Options, and the sequence folds the rest counts and filters with. */
module Prelude {

  datatype Option<+T> = None | Some(value: T) {
    /** The value held, or the given default. */
    function GetOr(default: T): T {
      if Some? then value else default
    }
  }

  /** `m.get(key)` of a Python dictionary. */
  function Lookup<K, V>(m: map<K, V>, key: K): Option<V> {
    if key in m then Some(m[key]) else None
  }

  lemma Associates<T>(a: seq<T>, b: seq<T>, c: seq<T>)
    ensures (a + b) + c == a + (b + c)
  {
  }

  /** What one element contributes. */
  function Image<T, U>(f: T -> Option<U>, x: T): seq<U> {
    match f(x) case None => [] case Some(u) => [u]
  }

  /** The images of those elements for which `f` is defined, in order. */
  function Project<T, U>(s: seq<T>, f: T -> Option<U>): seq<U> {
    if s == [] then [] else Image(f, s[0]) + Project(s[1..], f)
  }

  lemma {:induction false} ProjectConcat<T, U>(a: seq<T>, b: seq<T>, f: T -> Option<U>)
    ensures Project(a + b, f) == Project(a, f) + Project(b, f)
  {
    if a == [] {
      assert a + b == b;
    } else {
      ProjectConcat(a[1..], b, f);
      assert (a + b)[1..] == a[1..] + b;
      Associates(Image(f, a[0]), Project(a[1..], f), Project(b, f));
    }
  }

  lemma {:induction false} ProjectNothing<T, U>(s: seq<T>, f: T -> Option<U>)
    requires forall x <- s :: f(x) == None
    ensures Project(s, f) == []
  {
    if s != [] { ProjectNothing(s[1..], f); }
  }

  lemma ProjectOne<T, U>(x: T, f: T -> Option<U>)
    ensures Project([x], f) == Image(f, x)
  {
    assert [x][1..] == [];
  }

  lemma ProjectSnoc<T, U>(s: seq<T>, x: T, f: T -> Option<U>)
    ensures Project(s + [x], f) == Project(s, f) + Image(f, x)
  {
    ProjectConcat(s, [x], f);
    ProjectOne(x, f);
  }

  /** Every projected value comes from some element. */
  lemma {:induction false} ProjectOrigin<T, U>(s: seq<T>, f: T -> Option<U>, u: U) returns (i: nat)
    requires u in Project(s, f)
    ensures i < |s| && f(s[i]) == Some(u)
  {
    if f(s[0]) == Some(u) {
      i := 0;
    } else {
      i := ProjectOrigin(s[1..], f, u);
      i := i + 1;
    }
  }

  /** And every element for which `f` is defined is represented. */
  lemma {:induction false} ProjectMember<T, U>(s: seq<T>, f: T -> Option<U>, i: nat)
    requires i < |s| && f(s[i]).Some?
    ensures f(s[i]).value in Project(s, f)
  {
    if i > 0 { ProjectMember(s[1..], f, i - 1); }
  }

  /** A projection defined everywhere keeps every position. */
  lemma {:induction false} ProjectTotal<T, U>(s: seq<T>, f: T -> Option<U>)
    requires forall x <- s :: f(x).Some?
    ensures |Project(s, f)| == |s| && forall i :: 0 <= i < |s| ==> Project(s, f)[i] == f(s[i]).value
  {
    if s != [] {
      ProjectTotal(s[1..], f);
      forall i | 0 <= i < |s| ensures Project(s, f)[i] == f(s[i]).value {
        if i > 0 { assert s[i] == s[1..][i - 1]; }
      }
    }
  }

  function Kept<T>(p: T -> bool, x: T): seq<T> {
    if p(x) then [x] else []
  }

  /** The elements satisfying `p`, in order: a Python list comprehension with a condition. */
  function Filter<T>(s: seq<T>, p: T -> bool): seq<T> {
    if s == [] then [] else Kept(p, s[0]) + Filter(s[1..], p)
  }

  lemma {:induction false} FilterConcat<T>(a: seq<T>, b: seq<T>, p: T -> bool)
    ensures Filter(a + b, p) == Filter(a, p) + Filter(b, p)
  {
    if a == [] {
      assert a + b == b;
    } else {
      FilterConcat(a[1..], b, p);
      assert (a + b)[1..] == a[1..] + b;
      Associates(Kept(p, a[0]), Filter(a[1..], p), Filter(b, p));
    }
  }

  lemma FilterOne<T>(x: T, p: T -> bool)
    ensures Filter([x], p) == Kept(p, x)
  {
    assert [x][1..] == [];
  }

  lemma {:induction false} FilterSnoc<T>(s: seq<T>, x: T, p: T -> bool)
    ensures Filter(s + [x], p) == Filter(s, p) + Kept(p, x)
  {
    FilterConcat(s, [x], p);
    FilterOne(x, p);
  }

  lemma {:induction false} FilterMembers<T>(s: seq<T>, p: T -> bool)
    ensures forall x :: x in Filter(s, p) <==> x in s && p(x)
    ensures |Filter(s, p)| <= |s|
  {
    if s != [] { FilterMembers(s[1..], p); }
  }

  function Count<T>(s: seq<T>, p: T -> bool): nat {
    |Filter(s, p)|
  }

  lemma CountConcat<T>(a: seq<T>, b: seq<T>, p: T -> bool)
    ensures Count(a + b, p) == Count(a, p) + Count(b, p)
  {
    FilterConcat(a, b, p);
  }

  lemma CountOne<T>(x: T, p: T -> bool)
    ensures Count([x], p) == if p(x) then 1 else 0
  {
    FilterOne(x, p);
  }

  lemma CountSnoc<T>(s: seq<T>, x: T, p: T -> bool)
    ensures Count(s + [x], p) == Count(s, p) + if p(x) then 1 else 0
  {
    CountConcat(s, [x], p);
    CountOne(x, p);
  }

  lemma {:induction false} CountNone<T>(s: seq<T>, p: T -> bool)
    requires forall x <- s :: !p(x)
    ensures Count(s, p) == 0
  {
    if s != [] { CountNone(s[1..], p); }
  }

  /** A queue loses its head and gains at its back. */
  lemma CountTurns<T>(q: seq<T>, added: seq<T>, p: T -> bool)
    requires q != []
    ensures Count(q[1..] + added, p) == Count(q, p) - (if p(q[0]) then 1 else 0) + Count(added, p)
  {
    assert q == [q[0]] + q[1..];
    CountConcat([q[0]], q[1..], p);
    CountOne(q[0], p);
    CountConcat(q[1..], added, p);
  }

  lemma ProjectTurns<T, U>(q: seq<T>, added: seq<T>, f: T -> Option<U>)
    requires q != []
    ensures Project(q, f) == Image(f, q[0]) + Project(q[1..], f)
    ensures Project(q[1..] + added, f) == Project(q[1..], f) + Project(added, f)
  {
    ProjectConcat(q[1..], added, f);
  }

  /** Python's `sum` over one numeric field of a list. */
  function Sum<T>(s: seq<T>, f: T -> real): real {
    if s == [] then 0.0 else f(s[0]) + Sum(s[1..], f)
  }

  lemma {:induction false} SumConcat<T>(a: seq<T>, b: seq<T>, f: T -> real)
    ensures Sum(a + b, f) == Sum(a, f) + Sum(b, f)
  {
    if a == [] {
      assert a + b == b;
    } else {
      SumConcat(a[1..], b, f);
      assert (a + b)[1..] == a[1..] + b;
    }
  }

  lemma {:induction false} SumBounds<T>(s: seq<T>, f: T -> real, lo: real, hi: real)
    requires forall x <- s :: lo <= f(x) <= hi
    ensures lo * |s| as real <= Sum(s, f) <= hi * |s| as real
  {
    if s != [] {
      var n := |s[1..]| as real;
      SumBounds(s[1..], f, lo, hi);
      assert lo * (n + 1.0) == lo * n + lo && hi * (n + 1.0) == hi * n + hi;
    }
  }

  lemma Scales(a: real, b: real, n: real)
    requires a < b && n > 0.0
    ensures a * n < b * n
  {
    assert (b - a) * n > 0.0;
  }

  /** A quotient is bounded as its dividend is. */
  lemma MeanBounds(total: real, n: real, hi: real)
    requires n > 0.0 && 0.0 <= total <= hi * n
    ensures 0.0 <= total / n <= hi
  {
    var q := total / n;
    assert q * n == total;
    if q > hi { Scales(hi, q, n); }
    if q < 0.0 { Scales(q, 0.0, n); }
  }

  /** `separator.join(parts)`. */
  function Join(parts: seq<string>, separator: string): string {
    if parts == [] then ""
    else if |parts| == 1 then parts[0]
    else parts[0] + separator + Join(parts[1..], separator)
  }

  /** `{key(r): r for r in records}`: the last record under each key. */
  function Latest<K, R>(records: seq<R>, key: R -> K): map<K, R> {
    if records == [] then map[]
    else var n := |records| - 1; Latest(records[..n], key)[key(records[n]) := records[n]]
  }

  lemma LatestSnoc<K, R>(records: seq<R>, r: R, key: R -> K)
    ensures Latest(records + [r], key) == Latest(records, key)[key(r) := r]
  {
    assert (records + [r])[..|records|] == records;
  }

  /** The last record under a key is one of the records, and is under that key. */
  lemma {:induction false} LatestMember<K, R>(records: seq<R>, key: R -> K, k: K)
    ensures k in Latest(records, key) <==> exists r <- records :: key(r) == k
    ensures k in Latest(records, key) ==> Latest(records, key)[k] in records && key(Latest(records, key)[k]) == k
  {
    if records != [] {
      var n := |records| - 1;
      LatestMember(records[..n], key, k);
      assert records == records[..n] + [records[n]];
    }
  }

  lemma RemoveOne<T>(a: seq<T>, left: seq<T>, right: seq<T>)
    requires a != [] && multiset(a) == multiset(left + [a[0]] + right)
    ensures multiset(a[1..]) == multiset(left + right)
  {
    assert a == [a[0]] + a[1..];
    assert multiset(a[1..]) == multiset(a) - multiset{a[0]};
    assert multiset(left + right) == multiset(left + [a[0]] + right) - multiset{a[0]};
  }

  lemma {:induction false} ProjectPermutes<T, U>(a: seq<T>, b: seq<T>, f: T -> Option<U>)
    requires multiset(a) == multiset(b)
    ensures multiset(Project(a, f)) == multiset(Project(b, f))
  {
    if a == [] {
      assert |multiset(a)| == |multiset(b)|;
    } else {
      assert a[0] in multiset(b);
      var i :| 0 <= i < |b| && b[i] == a[0];
      var left, right := b[..i], b[i + 1..];
      assert b == left + [a[0]] + right;
      RemoveOne(a, left, right);
      ProjectPermutes(a[1..], left + right, f);
      ProjectMoves(a[0], left, right, f);
    }
  }

  lemma ProjectMoves<T, U>(x: T, left: seq<T>, right: seq<T>, f: T -> Option<U>)
    ensures multiset(Project(left + [x] + right, f)) == multiset(Image(f, x)) + multiset(Project(left + right, f))
  {
    ProjectConcat(left + [x], right, f);
    ProjectSnoc(left, x, f);
    ProjectConcat(left, right, f);
  }

  lemma SameMembers<T>(a: seq<T>, b: seq<T>)
    requires multiset(a) == multiset(b)
    ensures forall x :: x in a <==> x in b
  {
    forall x ensures x in a <==> x in b {
      assert x in multiset(a) <==> x in multiset(b);
    }
  }
}
