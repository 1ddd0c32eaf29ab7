/** Python's `sorted`: total orders, a sort, and the uniqueness of sorted forms. */
module Ordering {

  ghost predicate TotalOrder<T(!new)>(le: (T, T) -> bool) {
    && (forall x, y :: le(x, y) || le(y, x))
    && (forall x, y :: le(x, y) && le(y, x) ==> x == y)
    && (forall x, y, z :: le(x, y) && le(y, z) ==> le(x, z))
  }

  ghost predicate Sorted<T>(s: seq<T>, le: (T, T) -> bool) {
    forall i, j :: 0 <= i < j < |s| ==> le(s[i], s[j])
  }

  function Insert<T>(x: T, s: seq<T>, le: (T, T) -> bool): (r: seq<T>)
    ensures multiset(r) == multiset{x} + multiset(s)
    ensures |r| == |s| + 1
  {
    if s == [] then [x]
    else if le(x, s[0]) then [x] + s
    else
      assert s == [s[0]] + s[1..];
      [s[0]] + Insert(x, s[1..], le)
  }

  lemma {:induction false} InsertSorted<T(!new)>(x: T, s: seq<T>, le: (T, T) -> bool)
    requires TotalOrder(le) && Sorted(s, le)
    ensures Sorted(Insert(x, s, le), le)
  {
    if s != [] && !le(x, s[0]) {
      InsertSorted(x, s[1..], le);
      var r := Insert(x, s[1..], le);
      forall y | y in r ensures le(s[0], y) {
        assert y in multiset(r);
        assert y == x || y in multiset(s[1..]);
        if y != x { var i :| 0 <= i < |s[1..]| && s[1..][i] == y; assert s[1..][i] == s[i + 1]; }
      }
    } else if s != [] {
      forall j | 0 <= j < |s| ensures le(x, s[j]) {
        assert le(s[0], s[j]);
      }
    }
  }

  function Sort<T>(s: seq<T>, le: (T, T) -> bool): (r: seq<T>)
    ensures multiset(r) == multiset(s)
    ensures |r| == |s|
  {
    if s == [] then []
    else
      assert s == [s[0]] + s[1..];
      Insert(s[0], Sort(s[1..], le), le)
  }

  lemma {:induction false} SortSorts<T(!new)>(s: seq<T>, le: (T, T) -> bool)
    requires TotalOrder(le)
    ensures Sorted(Sort(s, le), le)
  {
    if s != [] {
      SortSorts(s[1..], le);
      InsertSorted(s[0], Sort(s[1..], le), le);
    }
  }

  lemma SortedHeadsAgree<T(!new)>(a: seq<T>, b: seq<T>, le: (T, T) -> bool)
    requires TotalOrder(le) && Sorted(a, le) && Sorted(b, le)
    requires multiset(a) == multiset(b) && a != [] && b != []
    ensures a[0] == b[0]
  {
    assert a[0] in multiset(b) && b[0] in multiset(a);
    var i :| 0 <= i < |b| && b[i] == a[0];
    var j :| 0 <= j < |a| && a[j] == b[0];
    assert le(a[0], a[0]) && le(b[0], b[0]);
    assert le(a[0], a[j]) && le(b[0], b[i]);
  }

  lemma TailMultiset<T>(a: seq<T>)
    requires a != []
    ensures multiset(a[1..]) == multiset(a) - multiset{a[0]}
  {
    assert a == [a[0]] + a[1..];
  }

  lemma SortedTail<T>(a: seq<T>, le: (T, T) -> bool)
    requires Sorted(a, le) && a != []
    ensures Sorted(a[1..], le)
  {
  }

  /** A multiset has one sorted form only. */
  lemma {:induction false} SortedFormUnique<T(!new)>(a: seq<T>, b: seq<T>, le: (T, T) -> bool)
    requires TotalOrder(le) && Sorted(a, le) && Sorted(b, le)
    requires multiset(a) == multiset(b)
    ensures a == b
  {
    assert |a| == |multiset(a)| == |multiset(b)| == |b|;
    if a != [] {
      SortedHeadsAgree(a, b, le);
      TailMultiset(a);
      TailMultiset(b);
      SortedTail(a, le);
      SortedTail(b, le);
      hide TotalOrder, Sorted;
      SortedFormUnique(a[1..], b[1..], le);
      assert a == [a[0]] + a[1..] && b == [b[0]] + b[1..];
    }
  }

  /** So sorting forgets the order of its input. */
  lemma SortForgetsOrder<T(!new)>(a: seq<T>, b: seq<T>, le: (T, T) -> bool)
    requires TotalOrder(le) && multiset(a) == multiset(b)
    ensures Sort(a, le) == Sort(b, le)
  {
    SortSorts(a, le);
    SortSorts(b, le);
    SortedFormUnique(Sort(a, le), Sort(b, le), le);
  }

  /** Some enumeration of a set. */
  ghost function Enumerate<T>(s: set<T>): (r: seq<T>)
    ensures multiset(r) == multiset(s)
  {
    if s == {} then [] else
      var x :| x in s;
      assert multiset(s) == multiset{x} + multiset(s - {x});
      [x] + Enumerate(s - {x})
  }

  /** `sorted(a_set)`. */
  ghost function SortedSet<T>(s: set<T>, le: (T, T) -> bool): (r: seq<T>)
    ensures multiset(r) == multiset(s)
  {
    Sort(Enumerate(s), le)
  }

  lemma SortedSetMembers<T>(s: set<T>, le: (T, T) -> bool)
    ensures forall x :: x in SortedSet(s, le) <==> x in s
    ensures |SortedSet(s, le)| == |s|
  {
    var r := SortedSet(s, le);
    forall x ensures x in r <==> x in s {
      assert x in multiset(r) <==> x in multiset(s);
    }
    assert |multiset(r)| == |multiset(s)|;
  }

  /** Any sorted enumeration of a set is the sorted set. */
  lemma SortedSetUnique<T(!new)>(s: set<T>, r: seq<T>, le: (T, T) -> bool)
    requires TotalOrder(le) && Sorted(r, le) && multiset(r) == multiset(s)
    ensures r == SortedSet(s, le)
  {
    SortSorts(Enumerate(s), le);
    SortedFormUnique(r, SortedSet(s, le), le);
  }

  /** Sorting a set held in no particular order. */
  method SortSet<T(!new, ==)>(s: set<T>, le: (T, T) -> bool) returns (r: seq<T>)
    requires TotalOrder(le)
    ensures r == SortedSet(s, le)
  {
    var rest := s;
    r := [];
    while rest != {}
      invariant rest <= s
      invariant multiset(r) == multiset(s - rest)
      invariant Sorted(r, le)
      decreases rest
    {
      var x :| x in rest;
      InsertSorted(x, r, le);
      assert multiset(s - (rest - {x})) == multiset(s - rest) + multiset{x} by {
        assert s - (rest - {x}) == (s - rest) + {x};
      }
      r := Insert(x, r, le);
      rest := rest - {x};
    }
    assert s - rest == s;
    SortedSetUnique(s, r, le);
  }

  /** Lexicographic order on sequences of numbers. */
  predicate LexLe(a: seq<int>, b: seq<int>) {
    a == [] || (b != [] && (a[0] < b[0] || (a[0] == b[0] && LexLe(a[1..], b[1..]))))
  }

  lemma {:induction false} LexTotal(a: seq<int>, b: seq<int>)
    ensures LexLe(a, b) || LexLe(b, a)
    ensures LexLe(a, b) && LexLe(b, a) ==> a == b
  {
    if a != [] && b != [] {
      LexTotal(a[1..], b[1..]);
      assert a == [a[0]] + a[1..] && b == [b[0]] + b[1..];
    }
  }

  lemma {:induction false} LexTransitive(a: seq<int>, b: seq<int>, c: seq<int>)
    requires LexLe(a, b) && LexLe(b, c)
    ensures LexLe(a, c)
  {
    if a != [] && b != [] && c != [] && a[0] == b[0] == c[0] { LexTransitive(a[1..], b[1..], c[1..]); }
  }

  /** The code points of a string. */
  function Codes(s: string): (r: seq<int>)
    ensures |r| == |s|
    ensures forall i :: 0 <= i < |s| ==> r[i] == s[i] as int
  {
    seq(|s|, i requires 0 <= i < |s| => s[i] as int)
  }

  /** String comparison by code point. */
  predicate StringLe(a: string, b: string) {
    LexLe(Codes(a), Codes(b))
  }

  lemma StringOrder()
    ensures TotalOrder(StringLe)
  {
    forall a, b ensures StringLe(a, b) || StringLe(b, a) { LexTotal(Codes(a), Codes(b)); }
    forall a, b | StringLe(a, b) && StringLe(b, a) ensures a == b {
      LexTotal(Codes(a), Codes(b));
      assert Codes(a) == Codes(b) && |a| == |b|;
      forall i | 0 <= i < |a| ensures a[i] == b[i] {
        assert Codes(a)[i] == a[i] as int && Codes(b)[i] == b[i] as int;
      }
    }
    forall a, b, c | StringLe(a, b) && StringLe(b, c) ensures StringLe(a, c) {
      LexTransitive(Codes(a), Codes(b), Codes(c));
    }
  }
}
