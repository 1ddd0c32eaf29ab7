/** Ranking by worth, highest first and earliest first on ties. */
module Ranking {
  import opened Prelude
  import opened Ordering

  /** `key=lambda pair: (-worth, index)` */
  predicate KeyLe(a: (real, int), b: (real, int)) {
    a.0 > b.0 || (a.0 == b.0 && a.1 <= b.1)
  }

  lemma KeyOrder()
    ensures TotalOrder(KeyLe)
  {
  }

  function Keys<T>(xs: seq<T>, worth: T -> real): (r: seq<(real, int)>)
    ensures |r| == |xs| && forall i :: 0 <= i < |r| ==> r[i] == (worth(xs[i]), i)
  {
    seq(|xs|, i requires 0 <= i < |xs| => (worth(xs[i]), i))
  }

  function AtKey<T>(xs: seq<T>): ((real, int)) -> Option<T> {
    (key: (real, int)) => if 0 <= key.1 < |xs| then Some(xs[key.1]) else None
  }

  /** The positions of `xs`, ranked. */
  function Order<T>(xs: seq<T>, worth: T -> real): (r: seq<int>)
    ensures |r| == |xs|
  {
    var sorted := Sort(Keys(xs, worth), KeyLe);
    seq(|sorted|, i requires 0 <= i < |sorted| => sorted[i].1)
  }

  function ByWorth<T>(xs: seq<T>, worth: T -> real): seq<T> {
    Project(Sort(Keys(xs, worth), KeyLe), AtKey(xs))
  }

  lemma OnceOnly(keys: seq<(real, int)>, x: (real, int))
    requires forall i :: 0 <= i < |keys| ==> keys[i].1 == i
    ensures multiset(keys)[x] <= 1
  {
    if x in multiset(keys) {
      var i :| 0 <= i < |keys| && keys[i] == x;
      assert keys == keys[..i] + [x] + keys[i + 1..];
      forall key | key in keys[i + 1..] ensures key.1 > i {
        var j :| 0 <= j < |keys[i + 1..]| && keys[i + 1..][j] == key;
        assert key == keys[i + 1 + j];
      }
    }
  }

  lemma KeysDistinct(keys: seq<(real, int)>, sorted: seq<(real, int)>)
    requires forall i :: 0 <= i < |keys| ==> keys[i].1 == i
    requires multiset(keys) == multiset(sorted)
    ensures forall i, j :: 0 <= i < j < |sorted| ==> sorted[i] != sorted[j]
  {
    forall i, j | 0 <= i < j < |sorted| ensures sorted[i] != sorted[j] {
      if sorted[i] == sorted[j] {
        var x := sorted[i];
        assert sorted == sorted[..i] + [x] + sorted[i + 1..j] + [x] + sorted[j + 1..];
        assert multiset(sorted)[x] >= 2;
        OnceOnly(keys, x);
      }
    }
  }

  lemma KeysSorted<T>(xs: seq<T>, worth: T -> real)
    ensures var sorted := Sort(Keys(xs, worth), KeyLe);
            && (forall key <- sorted :: 0 <= key.1 < |xs| && key == (worth(xs[key.1]), key.1))
            && (forall i, j :: 0 <= i < j < |sorted| ==> KeyLe(sorted[i], sorted[j]) && sorted[i] != sorted[j])
  {
    var keys, sorted := Keys(xs, worth), Sort(Keys(xs, worth), KeyLe);
    KeyOrder();
    SortSorts(keys, KeyLe);
    KeysDistinct(keys, sorted);
    SameMembers(keys, sorted);
    forall key | key in sorted ensures 0 <= key.1 < |xs| && key == (worth(xs[key.1]), key.1) {
      var i :| 0 <= i < |keys| && keys[i] == key;
    }
  }

  /** Ranking rearranges, and each one ranks before all later ones: worth more, or as much but listed earlier. */
  lemma RankingRanks<T>(xs: seq<T>, worth: T -> real)
    ensures var r, order := ByWorth(xs, worth), Order(xs, worth);
            && |r| == |order| == |xs| && multiset(r) == multiset(xs) && (forall x :: x in r <==> x in xs)
            && (forall i :: 0 <= i < |r| ==> 0 <= order[i] < |xs| && r[i] == xs[order[i]])
            && (forall i, j :: 0 <= i < j < |r| ==>
                  worth(r[i]) > worth(r[j]) || (worth(r[i]) == worth(r[j]) && order[i] < order[j]))
  {
    hide Sort, Project;
    var keys, sorted, r := Keys(xs, worth), Sort(Keys(xs, worth), KeyLe), ByWorth(xs, worth);
    KeysSorted(xs, worth);
    ProjectTotal(sorted, AtKey(xs));
    ProjectTotal(keys, AtKey(xs));
    assert Project(keys, AtKey(xs)) == xs;
    ProjectPermutes(sorted, keys, AtKey(xs));
    SameMembers(r, xs);
    forall i, j | 0 <= i < j < |r|
      ensures worth(r[i]) > worth(r[j]) || (worth(r[i]) == worth(r[j]) && sorted[i].1 < sorted[j].1)
    {
      assert sorted[i] in sorted && sorted[j] in sorted;
    }
  }
}
