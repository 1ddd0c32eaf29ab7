/** One deliberation: estimate, rank, allocate two budgets, commit to one plan. */
module Deliberation {
  import opened Prelude
  import opened Ranking
  import opened Rounding
  import opened Events
  import opened Rules
  import opened ExecutiveModel

  const ATTENTION_DEMAND_FRACTION := 0.05
  const CAPITAL_DEMAND_FRACTION := 0.1

  datatype Contender = Contender(sequence: nat, planId: Id, opportunityId: Id, estimate: real, attention: real,
      capital: real)

  datatype Allocation = Allocation(planId: Id, opportunityId: Id, estimate: real, attention: real, capital: real,
      funded: bool)

  datatype Result = Result(winner: Option<Id>, ranked: seq<Id>, abandoned: seq<Id>, allocations: seq<Allocation>)

  // ---------------------------------------------------------------- candidates

  /** The stores hold every pending plan and its opportunity; the source raises KeyError otherwise. */
  ghost predicate Known(s: Stores) {
    forall id <- s.pendingPlans :: PlanKnown(s, id)
  }

  predicate PlanKnown(s: Stores, id: Id) {
    id in Latest(s.plans, PlanId) && Latest(s.plans, PlanId)[id].opportunityId in Latest(s.opportunities, OpportunityId)
  }

  /** An opportunity's value, as far as the provider believes in it. */
  function Worth(value: real, judgement: real): real {
    Round4(value * judgement)
  }

  /** `judge` is the inference provider's confidence in each plan's opportunity. */
  function Build(s: Stores, judge: Id -> real, i: nat): Contender
    requires i < |s.pendingPlans| && PlanKnown(s, s.pendingPlans[i])
  {
    var p := Latest(s.plans, PlanId)[s.pendingPlans[i]];
    var o := Latest(s.opportunities, OpportunityId)[p.opportunityId];
    var estimate := Worth(o.value, judge(p.id));
    Contender(i, s.pendingPlans[i], o.id, estimate, Round4(estimate * ATTENTION_DEMAND_FRACTION), Round4(estimate * CAPITAL_DEMAND_FRACTION))
  }

  ghost function Contenders(s: Stores, judge: Id -> real): (r: seq<Contender>)
    requires Known(s)
    ensures |r| == |s.pendingPlans|
    ensures forall i :: 0 <= i < |r| ==> r[i].sequence == i && r[i].planId == s.pendingPlans[i]
  {
    seq(|s.pendingPlans|, i requires 0 <= i < |s.pendingPlans| => assert s.pendingPlans[i] in s.pendingPlans; Build(s, judge, i))
  }

  // ---------------------------------------------------------------- ranking

  function EstimateOf(c: Contender): real { c.estimate }

  /** `sorted(candidates, key=lambda c: (-c.estimated_value, c.sequence))` */
  function Ranked(cs: seq<Contender>): seq<Contender> {
    ByWorth(cs, EstimateOf)
  }

  predicate Outranks(a: Contender, b: Contender) {
    a.estimate > b.estimate || (a.estimate == b.estimate && a.sequence < b.sequence)
  }

  ghost predicate Enumerated(cs: seq<Contender>) {
    forall i :: 0 <= i < |cs| ==> cs[i].sequence == i
  }

  /** Ranking rearranges the candidates so that each outranks all later ones. */
  lemma RankingOutranks(cs: seq<Contender>)
    requires Enumerated(cs)
    ensures var r := Ranked(cs);
            && |r| == |cs| && multiset(r) == multiset(cs)
            && (forall c :: c in r <==> c in cs)
            && (forall i, j :: 0 <= i < j < |r| ==> Outranks(r[i], r[j]))
  {
    hide ByWorth, Order;
    RankingRanks(cs, EstimateOf);
  }

  // ---------------------------------------------------------------- allocation

  predicate Fits(c: Contender, attention: real, capital: real) {
    c.attention <= attention && c.capital <= capital
  }

  /** What each candidate is given as the two budgets run down in ranked order. */
  function Allocate(cs: seq<Contender>, attention: real, capital: real): (r: seq<Allocation>)
    ensures |r| == |cs| && forall i :: 0 <= i < |r| ==> r[i].planId == cs[i].planId
  {
    if cs == [] then []
    else if Fits(cs[0], attention, capital) then
      [Allocation(cs[0].planId, cs[0].opportunityId, cs[0].estimate, cs[0].attention, cs[0].capital, true)]
      + Allocate(cs[1..], attention - cs[0].attention, capital - cs[0].capital)
    else
      [Allocation(cs[0].planId, cs[0].opportunityId, cs[0].estimate, 0.0, 0.0, false)] + Allocate(cs[1..], attention, capital)
  }

  function AttentionOf(a: Allocation): real { a.attention }
  function CapitalOf(a: Allocation): real { a.capital }

  /** The first funded allocation in ranked order. */
  function Winner(allocations: seq<Allocation>): Option<Id> {
    if allocations == [] then None
    else if allocations[0].funded then Some(allocations[0].planId)
    else Winner(allocations[1..])
  }

  /** The position of the first candidate that fits the untouched budgets. */
  function FirstFit(cs: seq<Contender>, attention: real, capital: real): (i: nat)
    ensures i <= |cs| && (i < |cs| ==> Fits(cs[i], attention, capital))
    ensures forall j :: 0 <= j < i ==> !Fits(cs[j], attention, capital)
  {
    if cs == [] || Fits(cs[0], attention, capital) then 0 else 1 + FirstFit(cs[1..], attention, capital)
  }

  /** Nothing is spent before the winner: it is the first candidate that fits both whole budgets. */
  lemma {:induction false} WinnerIsFirstFit(cs: seq<Contender>, attention: real, capital: real)
    ensures var i := FirstFit(cs, attention, capital);
            Winner(Allocate(cs, attention, capital)) == if i < |cs| then Some(cs[i].planId) else None
  {
    if cs != [] && !Fits(cs[0], attention, capital) {
      WinnerIsFirstFit(cs[1..], attention, capital);
      assert Allocate(cs, attention, capital)[1..] == Allocate(cs[1..], attention, capital);
    }
  }

  ghost predicate Demanding(cs: seq<Contender>) {
    forall c <- cs :: c.attention >= 0.0 && c.capital >= 0.0
  }

  /** The budgets the rest of the candidates share. */
  function AttentionAfter(c: Contender, attention: real, capital: real): real {
    if Fits(c, attention, capital) then attention - c.attention else attention
  }

  function CapitalAfter(c: Contender, attention: real, capital: real): real {
    if Fits(c, attention, capital) then capital - c.capital else capital
  }

  function Share(c: Contender, attention: real, capital: real): Allocation {
    var funded := Fits(c, attention, capital);
    Allocation(c.planId, c.opportunityId, c.estimate, if funded then c.attention else 0.0, if funded then c.capital else 0.0, funded)
  }

  lemma AllocateStep(cs: seq<Contender>, attention: real, capital: real)
    requires cs != []
    ensures var rest := Allocate(cs[1..], AttentionAfter(cs[0], attention, capital), CapitalAfter(cs[0], attention, capital));
            Allocate(cs, attention, capital) == [Share(cs[0], attention, capital)] + rest
  {
  }

  lemma SumFirst(a: Allocation, rest: seq<Allocation>)
    ensures Sum([a] + rest, AttentionOf) == a.attention + Sum(rest, AttentionOf)
    ensures Sum([a] + rest, CapitalOf) == a.capital + Sum(rest, CapitalOf)
  {
    assert ([a] + rest)[1..] == rest;
  }

  /** What is handed out stays within both budgets, and whatever is left over is too little for any candidate left out. */
  lemma {:induction false} AllocationFills(cs: seq<Contender>, attention: real, capital: real)
    requires Demanding(cs) && attention >= 0.0 && capital >= 0.0
    ensures var r := Allocate(cs, attention, capital);
            var attentionLeft, capitalLeft := attention - Sum(r, AttentionOf), capital - Sum(r, CapitalOf);
            && 0.0 <= attentionLeft <= attention && 0.0 <= capitalLeft <= capital
            && (forall i :: 0 <= i < |cs| && !r[i].funded ==> !Fits(cs[i], attentionLeft, capitalLeft))
  {
    if cs != [] {
      var a, c := AttentionAfter(cs[0], attention, capital), CapitalAfter(cs[0], attention, capital);
      var first, rest := Share(cs[0], attention, capital), Allocate(cs[1..], a, c);
      assert cs[0] in cs && forall c <- cs[1..] :: c in cs;
      AllocationFills(cs[1..], a, c);
      FillsFirst(cs, attention, capital, rest);
    }
  }

  lemma FillsFirst(cs: seq<Contender>, attention: real, capital: real, rest: seq<Allocation>)
    requires cs != [] && cs[0].attention >= 0.0 && cs[0].capital >= 0.0 && attention >= 0.0 && capital >= 0.0
    requires rest == Allocate(cs[1..], AttentionAfter(cs[0], attention, capital), CapitalAfter(cs[0], attention, capital))
    requires var a, c := AttentionAfter(cs[0], attention, capital), CapitalAfter(cs[0], attention, capital);
             && 0.0 <= a - Sum(rest, AttentionOf) <= a && 0.0 <= c - Sum(rest, CapitalOf) <= c
             && (forall i :: 0 <= i < |cs[1..]| && !rest[i].funded ==> !Fits(cs[1..][i], a - Sum(rest, AttentionOf), c - Sum(rest, CapitalOf)))
    ensures var r := Allocate(cs, attention, capital);
            var attentionLeft, capitalLeft := attention - Sum(r, AttentionOf), capital - Sum(r, CapitalOf);
            && 0.0 <= attentionLeft <= attention && 0.0 <= capitalLeft <= capital
            && (forall i :: 0 <= i < |cs| && !r[i].funded ==> !Fits(cs[i], attentionLeft, capitalLeft))
  {
    AllocateStep(cs, attention, capital);
    SumFirst(Share(cs[0], attention, capital), rest);
    hide Allocate, Sum;
    var r := Allocate(cs, attention, capital);
    var attentionLeft, capitalLeft := attention - Sum(r, AttentionOf), capital - Sum(r, CapitalOf);
    assert attentionLeft == AttentionAfter(cs[0], attention, capital) - Sum(rest, AttentionOf);
    assert capitalLeft == CapitalAfter(cs[0], attention, capital) - Sum(rest, CapitalOf);
    assert !r[0].funded ==> !Fits(cs[0], attentionLeft, capitalLeft);
    forall i | 0 < i < |cs| && !r[i].funded ensures !Fits(cs[i], attentionLeft, capitalLeft) {
      assert cs[i] == cs[1..][i - 1] && r[i] == rest[i - 1];
    }
  }

  // ---------------------------------------------------------------- the pass

  function IdOf(c: Contender): Option<Id> { Some(c.planId) }

  function Ids(cs: seq<Contender>): seq<Id> {
    Project(cs, IdOf)
  }

  lemma IdsAre(cs: seq<Contender>)
    ensures |Ids(cs)| == |cs| && forall i :: 0 <= i < |cs| ==> Ids(cs)[i] == cs[i].planId
  {
    ProjectTotal(cs, IdOf);
  }

  /** Everyone but the winner, in ranked order. */
  function Losers(ids: seq<Id>, winner: Option<Id>): seq<Id> {
    Filter(ids, (id: Id) => Some(id) != winner)
  }

  /** `deliberate`; `None` when nothing is pending. */
  ghost function Deliberate(s: Stores, judge: Id -> real, attention: real, capital: real): Option<Result>
    requires Known(s)
  {
    if s.pendingPlans == [] then None
    else
      var ranked := Ranked(Contenders(s, judge));
      var allocations := Allocate(ranked, attention, capital);
      var winner := Winner(allocations);
      Some(Result(winner, Ids(ranked), Losers(Ids(ranked), winner), allocations))
  }

  // ---------------------------------------------------------------- what a pass publishes

  /** One note per candidate, as its value is estimated. */
  function Estimations(n: Notation, count: nat): seq<Payload> {
    seq(count, i requires 0 <= i < count => OfExecutive(DeliberationStep("ev_estimation", n.say(Estimated))))
  }

  function Checked(c: Contender, attention: real, capital: real): Phrase {
    if Fits(c, attention, capital) then Funded else Unfunded(c.attention <= attention, c.capital <= capital)
  }

  /** What each candidate in turn is told of the budgets it found. */
  function Checks(cs: seq<Contender>, attention: real, capital: real): (r: seq<Phrase>)
    ensures |r| == |cs|
  {
    if cs == [] then []
    else [Checked(cs[0], attention, capital)]
         + Checks(cs[1..], AttentionAfter(cs[0], attention, capital), CapitalAfter(cs[0], attention, capital))
  }

  function CheckNotice(n: Notation, p: Phrase): Payload {
    OfExecutive(DeliberationStep("allocation_check", n.say(p)))
  }

  /** Why a plan that is not the winner is dropped. */
  function Dropped(n: Notation, a: Allocation, check: Phrase, winner: Option<Id>): Phrase {
    if !a.funded then ShortOf(n.say(check), a.estimate)
    else if winner.Some? then Phrase.Outranked(winner.value, a.estimate)
    else NoneExecutable(a.estimate)
  }

  /** The plan is committed to, or abandoned. */
  function Decided(n: Notation, a: Allocation, check: Phrase, winner: Option<Id>): Payload {
    if Some(a.planId) == winner then OfExecutive(PlanSelected(a.planId))
    else OfExecutive(PlanAbandoned(a.planId, n.say(Dropped(n, a, check, winner))))
  }

  function Decisions(n: Notation, allocations: seq<Allocation>, checks: seq<Phrase>,
        winner: Option<Id>): (r: seq<Payload>)
    requires |allocations| == |checks|
  {
    seq(|allocations|, i requires 0 <= i < |allocations| => Decided(n, allocations[i], checks[i], winner))
  }

  function CheckNotices(n: Notation, checks: seq<Phrase>): seq<Payload> {
    seq(|checks|, i requires 0 <= i < |checks| => CheckNotice(n, checks[i]))
  }

  /** Everything a pass publishes itself, in order. */
  ghost function Proceedings(n: Notation, s: Stores, judge: Id -> real, attention: real, capital: real): seq<Payload>
    requires Known(s)
  {
    if s.pendingPlans == [] then []
    else
      var ranked := Ranked(Contenders(s, judge));
      var allocations, checks := Allocate(ranked, attention, capital), Checks(ranked, attention, capital);
      Estimations(n, |s.pendingPlans|) + CheckNotices(n, checks) + Decisions(n, allocations, checks, Winner(allocations))
  }

  ghost predicate Unique(ids: seq<Id>) {
    forall i, j :: 0 <= i < j < |ids| ==> ids[i] != ids[j]
  }

  /**
   The winner is the highest-estimate candidate, oldest on ties, whose own demand fits both whole
   budgets; there is none exactly when no candidate fits.
   */
  lemma WinnerIsOptimal(s: Stores, judge: Id -> real, attention: real, capital: real)
    requires Known(s) && s.pendingPlans != [] && Unique(s.pendingPlans)
    ensures var cs, winner := Contenders(s, judge), Deliberate(s, judge, attention, capital).value.winner;
            && (winner.None? <==> forall c <- cs :: !Fits(c, attention, capital))
            && (winner.Some? ==>
                  exists w <- cs :: w.planId == winner.value && Fits(w, attention, capital)
                                    && forall c <- cs :: c != w && Fits(c, attention, capital) ==> Outranks(w, c))
  {
    hide Build, Allocate, Winner, Ranked;
    var cs := Contenders(s, judge);
    RankingOutranks(cs);
    var ranked := Ranked(cs);
    WinnerIsFirstFit(ranked, attention, capital);
    var i := FirstFit(ranked, attention, capital);
    if i < |ranked| {
      var w := ranked[i];
      assert w in ranked;
      forall c | c in cs && c != w && Fits(c, attention, capital) ensures Outranks(w, c) {
        var j :| 0 <= j < |ranked| && ranked[j] == c;
      }
    } else {
      forall c | c in cs ensures !Fits(c, attention, capital) {
        var j :| 0 <= j < |ranked| && ranked[j] == c;
      }
    }
  }

  /**
   With non-negative budgets and demands: what is allocated stays within both budgets, and no candidate
   left unfunded would fit what remains.
   */
  lemma AllocationIsMaximal(s: Stores, judge: Id -> real, attention: real, capital: real)
    requires Known(s) && s.pendingPlans != []
    requires attention >= 0.0 && capital >= 0.0 && Demanding(Contenders(s, judge))
    ensures var v, ranked := Deliberate(s, judge, attention, capital).value, Ranked(Contenders(s, judge));
            var attentionLeft, capitalLeft := attention - Sum(v.allocations, AttentionOf), capital - Sum(v.allocations, CapitalOf);
            && attentionLeft >= 0.0 && capitalLeft >= 0.0
            && |v.allocations| == |ranked| == |s.pendingPlans|
            && (forall i :: 0 <= i < |ranked| && !v.allocations[i].funded ==> !Fits(ranked[i], attentionLeft, capitalLeft))
  {
    hide Build, Allocate, Winner, Ranked, Sum, Ids;
    var cs := Contenders(s, judge);
    RankingOutranks(cs);
    AllocationFills(Ranked(cs), attention, capital);
  }

  lemma SplitOne<T>(x: T, a: seq<T>, b: seq<T>, rest: seq<T>, p: T -> bool, q: T -> bool)
    requires p(x) <==> !q(x)
    requires multiset(a) + multiset(b) == multiset(rest)
    ensures multiset(Kept(p, x) + a) + multiset(Kept(q, x) + b) == multiset([x] + rest)
  {
    if p(x) {
      assert multiset([x] + a) + multiset(b) == multiset{x} + multiset(rest);
    } else {
      assert multiset(a) + multiset([x] + b) == multiset{x} + multiset(rest);
    }
  }

  lemma FilterFirst<T>(s: seq<T>, p: T -> bool)
    requires s != []
    ensures Filter(s, p) == Kept(p, s[0]) + Filter(s[1..], p)
  {
  }

  lemma {:induction false} FilterSplits<T>(s: seq<T>, p: T -> bool, q: T -> bool)
    requires forall x <- s :: p(x) <==> !q(x)
    ensures multiset(Filter(s, p)) + multiset(Filter(s, q)) == multiset(s)
  {
    hide Kept;
    if s != [] {
      assert forall x <- s[1..] :: x in s;
      FilterSplits(s[1..], p, q);
      SplitOne(s[0], Filter(s[1..], p), Filter(s[1..], q), s[1..], p, q);
      FilterFirst(s, p);
      FilterFirst(s, q);
      hide Filter;
      assert s == [s[0]] + s[1..];
    }
  }

  lemma FilterNone(ids: seq<Id>)
    ensures Filter(ids, (x: Id) => false) == []
  {
    CountNone(ids, (x: Id) => false);
  }

  lemma UniqueTail(ids: seq<Id>)
    requires Unique(ids) && ids != []
    ensures Unique(ids[1..]) && ids[0] !in ids[1..]
  {
    forall i, j | 0 <= i < j < |ids[1..]| ensures ids[1..][i] != ids[1..][j] {
      assert ids[i + 1] != ids[j + 1];
    }
    forall j | 0 <= j < |ids[1..]| ensures ids[1..][j] != ids[0] {
      assert ids[0] != ids[j + 1];
    }
  }

  /** An id stands once among unique ids. */
  lemma {:induction false} FilterOnly(ids: seq<Id>, id: Id)
    requires Unique(ids)
    ensures Filter(ids, (x: Id) => x == id) == if id in ids then [id] else []
  {
    if ids != [] {
      UniqueTail(ids);
      hide Unique;
      FilterOnly(ids[1..], id);
      assert ids == [ids[0]] + ids[1..];
    }
  }

  lemma {:induction false} UniqueOnce(ids: seq<Id>, x: Id)
    requires Unique(ids)
    ensures multiset(ids)[x] <= 1
  {
    if ids != [] {
      UniqueTail(ids);
      hide Unique;
      UniqueOnce(ids[1..], x);
      assert ids == [ids[0]] + ids[1..];
    }
  }

  lemma UniqueSorted(ids: seq<Id>, other: seq<Id>)
    requires Unique(ids) && multiset(ids) == multiset(other)
    ensures Unique(other)
  {
    forall i, j | 0 <= i < j < |other| ensures other[i] != other[j] {
      if other[i] == other[j] {
        var x := other[i];
        assert other == other[..i] + [x] + other[i + 1..j] + [x] + other[j + 1..];
        assert multiset(other)[x] >= 2;
        UniqueOnce(ids, x);
      }
    }
  }

  /** Winner and abandoned together are exactly the pending plans, each once. */
  lemma WinnerAndAbandonedPartition(s: Stores, judge: Id -> real, attention: real, capital: real)
    requires Known(s) && s.pendingPlans != [] && Unique(s.pendingPlans)
    ensures var v := Deliberate(s, judge, attention, capital).value;
            multiset(s.pendingPlans) == multiset(v.abandoned) + (if v.winner.Some? then multiset{v.winner.value} else multiset{})
  {
    hide Build, Allocate, Winner, Ranked, Filter;
    var cs := Contenders(s, judge);
    RankingOutranks(cs);
    var ranked, v := Ranked(cs), Deliberate(s, judge, attention, capital).value;
    ProjectPermutes(ranked, cs, IdOf);
    IdsAre(cs);
    assert Ids(cs) == s.pendingPlans;
    UniqueSorted(s.pendingPlans, Ids(ranked));
    var others := (id: Id) => Some(id) != v.winner;
    if v.winner.Some? {
      var w := v.winner.value;
      FilterSplits(Ids(ranked), others, (x: Id) => x == w);
      FilterOnly(Ids(ranked), w);
      WinnerIsRanked(ranked, attention, capital);
    } else {
      FilterSplits(Ids(ranked), others, (x: Id) => false);
      FilterNone(Ids(ranked));
    }
  }

  lemma WinnerIsRanked(ranked: seq<Contender>, attention: real, capital: real)
    ensures var w := Winner(Allocate(ranked, attention, capital)); w.Some? ==> w.value in Ids(ranked)
  {
    WinnerIsFirstFit(ranked, attention, capital);
    IdsAre(ranked);
    var i := FirstFit(ranked, attention, capital);
    if i < |ranked| { assert Ids(ranked)[i] in Ids(ranked); }
  }

  /** Estimates made from values and judgements that are not negative demand nothing negative. */
  lemma EstimatesDemand(s: Stores, judge: Id -> real)
    requires Known(s) && (forall o <- s.opportunities :: o.value >= 0.0) && (forall id :: judge(id) >= 0.0)
    ensures Demanding(Contenders(s, judge))
  {
    hide Round4, Build;
    forall c | c in Contenders(s, judge) ensures c.attention >= 0.0 && c.capital >= 0.0 {
      var i :| 0 <= i < |s.pendingPlans| && Contenders(s, judge)[i] == c;
      assert PlanKnown(s, s.pendingPlans[i]) by { assert s.pendingPlans[i] in s.pendingPlans; }
      EstimateDemands(s, judge, i);
    }
  }

  lemma EstimateDemands(s: Stores, judge: Id -> real, i: nat)
    requires i < |s.pendingPlans| && PlanKnown(s, s.pendingPlans[i])
    requires (forall o <- s.opportunities :: o.value >= 0.0) && (forall id :: judge(id) >= 0.0)
    ensures Build(s, judge, i).attention >= 0.0 && Build(s, judge, i).capital >= 0.0
  {
    hide Nearest, Latest;
    var p := Latest(s.plans, PlanId)[s.pendingPlans[i]];
    LatestMember(s.opportunities, OpportunityId, p.opportunityId);
    var o := Latest(s.opportunities, OpportunityId)[p.opportunityId];
    assert o.value >= 0.0 && judge(p.id) >= 0.0;
    DemandsFollow(o.value, judge(p.id));
  }

  lemma DemandsFollow(value: real, judgement: real)
    requires value >= 0.0 && judgement >= 0.0
    ensures var estimate := Round4(value * judgement);
            Round4(estimate * ATTENTION_DEMAND_FRACTION) >= 0.0 && Round4(estimate * CAPITAL_DEMAND_FRACTION) >= 0.0
  {
    hide Nearest;
    NonNegativeProduct(value, judgement);
    Round4Floor(value * judgement);
    var estimate := Round4(value * judgement);
    Round4Floor(estimate * ATTENTION_DEMAND_FRACTION);
    Round4Floor(estimate * CAPITAL_DEMAND_FRACTION);
  }

  lemma NonNegativeProduct(a: real, b: real)
    requires a >= 0.0 && b >= 0.0
    ensures a * b >= 0.0
  {
  }

  lemma Round4Floor(x: real)
    ensures x >= 0.0 ==> Round4(x) >= 0.0
  {
  }

  // ---------------------------------------------------------------- what the pass tells the organism

  function SelectedBy(p: Payload): Option<Id> {
    if p.OfExecutive? && p.x.PlanSelected? then Some(p.x.planId) else None
  }

  function AbandonedBy(p: Payload): Option<Id> {
    if p.OfExecutive? && p.x.PlanAbandoned? then Some(p.x.planId) else None
  }

  lemma {:induction false} ProjectFilters<T, U>(xs: seq<T>, ids: seq<U>, f: T -> Option<U>, p: U -> bool)
    requires |xs| == |ids| && forall i :: 0 <= i < |xs| ==> f(xs[i]) == if p(ids[i]) then Some(ids[i]) else None
    ensures Project(xs, f) == Filter(ids, p)
  {
    if xs != [] {
      assert forall i :: 0 <= i < |xs[1..]| ==> xs[1..][i] == xs[i + 1] && ids[1..][i] == ids[i + 1];
      ProjectFilters(xs[1..], ids[1..], f, p);
    }
  }

  /** The winner, and no other plan, is announced as selected; exactly the abandoned are announced so, in ranked order. */
  lemma ProceedingsTellTheResult(n: Notation, s: Stores, judge: Id -> real, attention: real, capital: real)
    requires Known(s) && s.pendingPlans != [] && Unique(s.pendingPlans)
    ensures var published, v := Proceedings(n, s, judge, attention, capital), Deliberate(s, judge, attention, capital).value;
            && Project(published, SelectedBy) == (if v.winner.Some? then [v.winner.value] else [])
            && Project(published, AbandonedBy) == v.abandoned
  {
    hide Build, Allocate, Checks, Winner, Ranked, Filter, Project, Dropped, Contenders;
    var ranked := Ranked(Contenders(s, judge));
    var allocations, checks := Allocate(ranked, attention, capital), Checks(ranked, attention, capital);
    var winner, ids := Winner(allocations), Ids(ranked);
    RankingOutranks(Contenders(s, judge));
    ProjectPermutes(ranked, Contenders(s, judge), IdOf);
    IdsAre(ranked);
    IdsAre(Contenders(s, judge));
    assert Ids(Contenders(s, judge)) == s.pendingPlans;
    UniqueSorted(s.pendingPlans, ids);
    WinnerIsRanked(ranked, attention, capital);
    var notes, decisions := Estimations(n, |s.pendingPlans|) + CheckNotices(n, checks), Decisions(n, allocations, checks, winner);
    ProjectConcat(notes, decisions, SelectedBy);
    ProjectConcat(notes, decisions, AbandonedBy);
    ProjectNothing(notes, SelectedBy);
    ProjectNothing(notes, AbandonedBy);
    ProjectFilters(decisions, ids, AbandonedBy, (id: Id) => Some(id) != winner);
    SelectedOnly(n, allocations, checks, winner, ids);
    assert [] + Project(decisions, SelectedBy) == Project(decisions, SelectedBy);
    assert [] + Project(decisions, AbandonedBy) == Project(decisions, AbandonedBy);
  }

  lemma SelectedOnly(n: Notation, allocations: seq<Allocation>, checks: seq<Phrase>, winner: Option<Id>, ids: seq<Id>)
    requires |allocations| == |checks| == |ids| && Unique(ids) && (winner.Some? ==> winner.value in ids)
    requires forall i :: 0 <= i < |ids| ==> allocations[i].planId == ids[i]
    ensures Project(Decisions(n, allocations, checks, winner), SelectedBy) == if winner.Some? then [winner.value] else []
  {
    hide Filter, Project, Dropped, Unique;
    var decisions := Decisions(n, allocations, checks, winner);
    if winner.Some? {
      ProjectFilters(decisions, ids, SelectedBy, (x: Id) => x == winner.value);
      FilterOnly(ids, winner.value);
    } else {
      ProjectNothing(decisions, SelectedBy);
    }
  }

  // ---------------------------------------------------------------- what a candidate is worth, and what it demands

  predicate Near(x: real, y: real) { y - 0.00005 <= x <= y + 0.00005 }

  /** The plan recorded last under an id, and the opportunity recorded last under the plan's. */
  predicate PlanIs(s: Stores, id: Id, p: Plan, o: Opportunity) {
    && id in Latest(s.plans, PlanId) && Latest(s.plans, PlanId)[id] == p
    && p.opportunityId in Latest(s.opportunities, OpportunityId) && Latest(s.opportunities, OpportunityId)[p.opportunityId] == o
  }

  lemma CandidateIs(s: Stores, judge: Id -> real, i: nat, p: Plan, o: Opportunity)
    requires Known(s) && i < |s.pendingPlans| && PlanIs(s, s.pendingPlans[i], p, o)
    ensures var c := Contenders(s, judge)[i];
            && c.planId == s.pendingPlans[i] && c.opportunityId == o.id && c.estimate == Worth(o.value, judge(p.id))
            && c.attention == Round4(c.estimate * ATTENTION_DEMAND_FRACTION) && c.capital == Round4(c.estimate * CAPITAL_DEMAND_FRACTION)
  {
    hide Worth, Latest, Round4;
  }

  lemma WorthNears(value: real, judgement: real)
    ensures Near(Worth(value, judgement), value * judgement)
  {
    hide Round4;
    Round4Nears(value * judgement);
  }

  /**
   A candidate is estimated at its opportunity's value times the judgement of its plan, and demands a twentieth of that in
   attention and a tenth in capital, each to four places.
   */
  lemma CandidateIsEstimated(s: Stores, judge: Id -> real, i: nat, p: Plan, o: Opportunity)
    requires Known(s) && i < |s.pendingPlans| && PlanIs(s, s.pendingPlans[i], p, o)
    ensures var c := Contenders(s, judge)[i];
            && c.planId == s.pendingPlans[i] && c.opportunityId == o.id
            && Near(c.estimate, o.value * judge(p.id)) && Near(c.attention, c.estimate * 0.05) && Near(c.capital, c.estimate * 0.1)
  {
    hide Worth, Round4, Latest, Contenders;
    CandidateIs(s, judge, i, p, o);
    var estimate := Contenders(s, judge)[i].estimate;
    WorthNears(o.value, judge(p.id));
    Round4Nears(estimate * ATTENTION_DEMAND_FRACTION);
    Round4Nears(estimate * CAPITAL_DEMAND_FRACTION);
  }

  lemma WorthKeeps(value: real, a: real, b: real)
    requires value >= 0.0 && a <= b
    ensures Worth(value, a) <= Worth(value, b)
  {
    hide Round4;
    if a < b && value > 0.0 { Scales(a, b, value); }
    Round4Keeps(value * a, value * b);
  }

  /** A better judgement of a plan never lowers its estimate. */
  lemma BetterJudgedIsWorthMore(s: Stores, judge: Id -> real, better: Id -> real, i: nat, p: Plan, o: Opportunity)
    requires Known(s) && i < |s.pendingPlans| && PlanIs(s, s.pendingPlans[i], p, o)
    requires o.value >= 0.0 && judge(p.id) <= better(p.id)
    ensures Contenders(s, judge)[i].estimate <= Contenders(s, better)[i].estimate
  {
    hide Worth, Latest, Contenders;
    CandidateIs(s, judge, i, p, o);
    CandidateIs(s, better, i, p, o);
    WorthKeeps(o.value, judge(p.id), better(p.id));
  }

  // ---------------------------------------------------------------- who is funded, and why the others are dropped

  /** What is left of the two budgets when candidate number i has its turn. */
  function AttentionLeft(allocations: seq<Allocation>, i: nat, attention: real): real
    requires i <= |allocations|
  {
    attention - Sum(allocations[..i], AttentionOf)
  }

  function CapitalLeft(allocations: seq<Allocation>, i: nat, capital: real): real
    requires i <= |allocations|
  {
    capital - Sum(allocations[..i], CapitalOf)
  }

  /** Given all it demands if what is left covers both demands, and otherwise nothing. */
  predicate Granted(a: Allocation, c: Contender, attention: real, capital: real) {
    && a.planId == c.planId && a.opportunityId == c.opportunityId && a.estimate == c.estimate
    && a.funded == (c.attention <= attention && c.capital <= capital)
    && a.attention == (if a.funded then c.attention else 0.0) && a.capital == (if a.funded then c.capital else 0.0)
  }

  lemma LeftBehind(first: Allocation, rest: seq<Allocation>, i: nat, attention: real, capital: real)
    requires 0 < i <= |rest| + 1
    ensures AttentionLeft([first] + rest, i, attention) == AttentionLeft(rest, i - 1, attention - first.attention)
    ensures CapitalLeft([first] + rest, i, capital) == CapitalLeft(rest, i - 1, capital - first.capital)
  {
    assert ([first] + rest)[..i] == [first] + rest[..i - 1];
    SumConcat([first], rest[..i - 1], AttentionOf);
    SumConcat([first], rest[..i - 1], CapitalOf);
    assert [first][1..] == [];
  }

  lemma {:induction false} AllocationGrants(cs: seq<Contender>, attention: real, capital: real, i: nat)
    requires i < |cs|
    ensures var v := Allocate(cs, attention, capital); Granted(v[i], cs[i], AttentionLeft(v, i, attention), CapitalLeft(v, i, capital))
  {
    var v := Allocate(cs, attention, capital);
    if i > 0 {
      AllocationGrants(cs[1..], AttentionAfter(cs[0], attention, capital), CapitalAfter(cs[0], attention, capital), i - 1);
      assert v == [v[0]] + v[1..] && v[1..] == Allocate(cs[1..], AttentionAfter(cs[0], attention, capital), CapitalAfter(cs[0], attention, capital));
      LeftBehind(v[0], v[1..], i, attention, capital);
    }
  }

  lemma {:induction false} ChecksTell(cs: seq<Contender>, attention: real, capital: real, i: nat)
    requires i < |cs|
    ensures var v := Allocate(cs, attention, capital);
            var a, c := AttentionLeft(v, i, attention), CapitalLeft(v, i, capital);
            Checks(cs, attention, capital)[i] == if v[i].funded then Funded else Unfunded(cs[i].attention <= a, cs[i].capital <= c)
  {
    var v := Allocate(cs, attention, capital);
    if i > 0 {
      ChecksTell(cs[1..], AttentionAfter(cs[0], attention, capital), CapitalAfter(cs[0], attention, capital), i - 1);
      assert v == [v[0]] + v[1..] && v[1..] == Allocate(cs[1..], AttentionAfter(cs[0], attention, capital), CapitalAfter(cs[0], attention, capital));
      LeftBehind(v[0], v[1..], i, attention, capital);
    }
  }

  /** Why the plan is dropped: what the budgets lacked for it when its turn came, or else the winner. */
  function Because(n: Notation, c: Contender, funded: bool, attention: real, capital: real, winner: Option<Id>): string {
    n.say(if !funded then ShortOf(n.say(Unfunded(c.attention <= attention, c.capital <= capital)), c.estimate)
          else if winner.Some? then Phrase.Outranked(winner.value, c.estimate)
          else NoneExecutable(c.estimate))
  }

  ghost predicate DecidedSo(n: Notation, p: Payload, v: Result, ranked: seq<Contender>, i: nat, attention: real, capital: real)
    requires i < |ranked| == |v.allocations|
  {
    var c, a, left, more := ranked[i], v.allocations[i], AttentionLeft(v.allocations, i, attention), CapitalLeft(v.allocations, i, capital);
    && Granted(a, c, left, more)
    && p == OfExecutive(if v.winner == Some(c.planId) then PlanSelected(c.planId)
                        else PlanAbandoned(c.planId, Because(n, c, a.funded, left, more, v.winner)))
  }

  /**
   Each candidate in ranked order is given its whole demand if what those before it left covers it, and nothing otherwise; and
   its fate is announced, in that order, with what was short for it, or who outranked it.
   */
  lemma FatesAreExplained(n: Notation, s: Stores, judge: Id -> real, attention: real, capital: real, i: nat)
    requires Known(s) && i < |s.pendingPlans|
    ensures var v, ranked, ps := Deliberate(s, judge, attention, capital).value, Ranked(Contenders(s, judge)), Proceedings(n, s, judge, attention, capital);
            |ranked| == |v.allocations| == |s.pendingPlans| && |ps| == 3 * |ranked| && DecidedSo(n, ps[2 * |ranked| + i], v, ranked, i, attention, capital)
  {
    hide Build, Allocate, Checks, Winner, Ranked, Filter, Contenders;
    var ranked := Ranked(Contenders(s, judge));
    RankingOutranks(Contenders(s, judge));
    AllocationGrants(ranked, attention, capital, i);
    ChecksTell(ranked, attention, capital, i);
  }
}
