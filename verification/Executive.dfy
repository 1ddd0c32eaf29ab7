/** The Executive object: its read models and stores updated in place, held to ExecutiveModel and Deliberation. */
module ExecutiveObject {
  import opened Prelude
  import opened Ordering
  import opened Ranking
  import opened Events
  import opened Rules
  import opened ExecutiveModel
  import D = Deliberation

  // ---------------------------------------------------------------- steps of the deliberation loops

  lemma AllocationTurns(cs: seq<D.Contender>, i: nat, attention: real, capital: real, done: seq<D.Allocation>,
        checks: seq<Phrase>)
    requires i < |cs|
    ensures var a, c := D.AttentionAfter(cs[i], attention, capital), D.CapitalAfter(cs[i], attention, capital);
            && done + D.Allocate(cs[i..], attention, capital) == done + [D.Share(cs[i], attention, capital)] + D.Allocate(cs[i + 1..], a, c)
            && checks + D.Checks(cs[i..], attention, capital) == checks + [D.Checked(cs[i], attention, capital)] + D.Checks(cs[i + 1..], a, c)
            && D.Winner(D.Allocate(cs[i..], attention, capital))
               == if D.Fits(cs[i], attention, capital) then Some(cs[i].planId) else D.Winner(D.Allocate(cs[i + 1..], a, c))
  {
    assert cs[i..][0] == cs[i] && cs[i..][1..] == cs[i + 1..];
    D.AllocateStep(cs[i..], attention, capital);
    hide D.Allocate, D.Checked;
    var rest := D.Allocate(cs[i + 1..], D.AttentionAfter(cs[i], attention, capital), D.CapitalAfter(cs[i], attention, capital));
    assert ([D.Share(cs[i], attention, capital)] + rest)[1..] == rest;
  }

  lemma OneShare(c: D.Contender, attention: real, capital: real)
    ensures var attentionOk, capitalOk := c.attention <= attention, c.capital <= capital;
            var funded := attentionOk && capitalOk;
            && D.Fits(c, attention, capital) == funded
            && D.Share(c, attention, capital)
               == D.Allocation.Allocation(c.planId, c.opportunityId, c.estimate, if funded then c.attention else 0.0,
                                          if funded then c.capital else 0.0, funded)
            && D.Checked(c, attention, capital) == (if funded then Funded else Unfunded(attentionOk, capitalOk))
            && D.AttentionAfter(c, attention, capital) == (if funded then attention - c.attention else attention)
            && D.CapitalAfter(c, attention, capital) == (if funded then capital - c.capital else capital)
  {
  }

  lemma AllocationEnds(cs: seq<D.Contender>, attention: real, capital: real)
    ensures cs[..|cs|] == cs && cs[|cs|..] == []
    ensures D.Allocate([], attention, capital) == [] && D.Checks([], attention, capital) == [] && D.Winner([]) == None
  {
  }

  lemma LosersNext(ids: seq<Id>, i: nat, winner: Option<Id>)
    requires i < |ids|
    ensures D.Losers(ids[..i + 1], winner) == D.Losers(ids[..i], winner) + if Some(ids[i]) == winner then [] else [ids[i]]
    ensures D.Losers([], winner) == [] && ids[..|ids|] == ids
  {
    assert ids[..i + 1] == ids[..i] + [ids[i]];
    FilterSnoc(ids[..i], ids[i], (id: Id) => Some(id) != winner);
  }

  // ---------------------------------------------------------------- steps of the batch loop

  lemma RequestsTurn(n: Notation, s: XState, cs: seq<Candidate>, i: nat)
    requires i < |cs|
    ensures RequestAll(n, s, cs[i..]).state == RequestAll(n, RequestResearch(n, s, cs[i]).state, cs[i + 1..]).state
    ensures RequestAll(n, s, cs[i..]).published
         == RequestResearch(n, s, cs[i]).published + RequestAll(n, RequestResearch(n, s, cs[i]).state, cs[i + 1..]).published
    ensures AskedIds(n, s, cs[i..])
         == [if ShouldContinue(s.research) then Some(n.requestId(cs[i].deliberationId, cs[i].query, cs[i].depth)) else None]
            + AskedIds(n, RequestResearch(n, s, cs[i]).state, cs[i + 1..])
  {
    hide RequestResearch, By;
    assert cs[i..][0] == cs[i] && cs[i..][1..] == cs[i + 1..];
  }

  lemma OrderDistinct(cs: seq<Candidate>)
    ensures forall i, j :: 0 <= i < j < |cs| ==> Order(cs, PriorityOf)[i] != Order(cs, PriorityOf)[j]
  {
    hide ByWorth, Order;
    RankingRanks(cs, PriorityOf);
  }

  lemma NoRequests(n: Notation, s: XState)
    ensures RequestAll(n, s, []) == Reaction(s, [])
  {
    hide By;
  }

  class Executive {
    const text: Notation
    var confidence: map<string, real>
    var claim: map<string, string>
    var signatureOf: map<string, Signature>
    var members: map<Signature, set<string>>
    var groupOf: map<Signature, Id>
    var generated: map<Signature, seq<string>>
    var ofOpportunity: map<Id, Signature>
    var resolved: set<Signature>
    var opportunities: seq<Opportunity>
    var plans: seq<Plan>
    var groups: seq<Group>
    var generations: seq<Generation>
    var resolvedSituations: seq<Signature>
    var pendingPlans: seq<Id>
    var decisions: seq<Decision>
    var pendingIntents: map<string, Intent>
    var issued: nat
    var novel: nat
    var lastRate: Option<real>

    function Held(): Clusters
      reads this
    {
      Clusters(confidence, claim, signatureOf, members, groupOf, generated, ofOpportunity, resolved)
    }

    function Kept(): Stores
      reads this
    {
      Stores(opportunities, plans, groups, generations, resolvedSituations, pendingPlans)
    }

    function Searching(): Research
      reads this
    {
      Research(pendingIntents, issued, novel, lastRate)
    }

    function State(): XState
      reads this
    {
      XState(Held(), Kept(), decisions, Searching())
    }

    constructor (text: Notation)
      ensures this.text == text && State() == Initial()
    {
      this.text := text;
      confidence, claim, signatureOf, members := map[], map[], map[], map[];
      groupOf, generated, ofOpportunity, resolved := map[], map[], map[], {};
      opportunities, plans, groups, generations, resolvedSituations, pendingPlans := [], [], [], [], [], [];
      decisions := [];
      pendingIntents, issued, novel, lastRate := map[], 0, 0, None;
    }

    // -------------------------------------------------------------- belief signals and generation passes

    method RegisterBeliefSignal(beliefId: string, signal: real, correlation: Correlation,
          tick: nat) returns (published: seq<Payload>)
      modifies this`confidence, this`members, this`signatureOf
      ensures Reaction(Held(), published) == ExecutiveModel.RegisterBeliefSignal(old(Held()), beliefId, signal, correlation, tick)
    {
      hide By;
      var signature := Signature(correlation, Lookup(claim, beliefId).GetOr(beliefId));
      confidence := confidence[beliefId := signal];
      if beliefId in signatureOf {
        var previous := signatureOf[beliefId];
        if previous != signature && previous in members {
          members := members[previous := members[previous] - {beliefId}];
        }
      }
      signatureOf := signatureOf[beliefId := signature];
      members := members[signature := Lookup(members, signature).GetOr({}) + {beliefId}];
      published := [OfExecutive(GenerationStarted(Minted(tick, Component.Executive, [0]), signature, beliefId))];
    }

    method OnBelief(w: WorldModelEvent, correlation: Correlation, tick: nat) returns (published: seq<Payload>)
      modifies this`claim, this`confidence, this`members, this`signatureOf
      ensures Reaction(Held(), published) == ExecutiveModel.OnBelief(old(Held()), w, correlation, tick)
    {
      hide ExecutiveModel.RegisterBeliefSignal, By;
      if w.BeliefCreated? {
        claim := claim[w.beliefId := w.claim];
      }
      published := RegisterBeliefSignal(w.beliefId, w.confidence, correlation, tick);
    }

    /** Decides a pass over the cluster's members, and on acceptance marks the cluster as generated at once. */
    method Generate(x: ExecutiveEvent, beliefIds: seq<string>, tick: nat) returns (published: seq<Payload>)
      requires x.GenerationStarted?
      modifies this`groupOf, this`generated
      ensures Reaction(Held(), published) == ExecutiveModel.Generate(text, old(Held()), x, beliefIds, tick)
    {
      hide Confidences, AggregateConfidence, By;
      if beliefIds == [] {
        return [OfExecutive(GenerationCompleted(x.generationId, x.signature, beliefIds, false, 0.0, text.say(Stale), None, None))];
      }
      var confidences := Confidences(Held(), beliefIds);
      if |confidences| < |beliefIds| {
        return [];  // KeyError
      }
      var mean := AggregateConfidence(confidences);
      var (accepted, reason) := Decide(beliefIds, Lookup(generated, x.signature), x.signature in resolved);
      var groupId, opportunityId := None, None;
      if accepted {
        var group := Lookup(groupOf, x.signature).GetOr(Minted(tick, Component.Executive, [0]));
        groupId, opportunityId := Some(group), Some(Minted(tick, Component.Executive, [1]));
        groupOf := groupOf[x.signature := group];
        generated := generated[x.signature := beliefIds];
      }
      published := [OfExecutive(GenerationCompleted(x.generationId, x.signature, beliefIds, accepted, mean, text.say(reason), groupId, opportunityId))];
    }

    method OnGenerationStarted(x: ExecutiveEvent, time: real, tick: nat) returns (published: seq<Payload>)
      requires x.GenerationStarted?
      modifies this`generations, this`groupOf, this`generated
      ensures Reaction(State(), published) == ExecutiveModel.OnGenerationStarted(text, old(State()), x, time, tick)
    {
      hide ExecutiveModel.Generate, SortedSet, By;
      StringOrder();
      var beliefIds := SortSet(Lookup(members, x.signature).GetOr({}), StringLe);
      generations := generations + [ExecutiveModel.Started(x, beliefIds, time)];
      published := Generate(x, beliefIds, tick);
    }

    method IdentifyOpportunity(x: ExecutiveEvent) returns (o: Opportunity, published: Payload)
      requires x.GenerationCompleted? && x.opportunity.Some?
      modifies this`opportunities, this`decisions
      ensures o == Valued(x.opportunity.value, x.beliefIds, x.confidence)
      ensures opportunities == old(opportunities) + [o] && decisions == old(decisions) + [IdentifiedOpportunity(o.id)]
      ensures published == OfExecutive(OpportunityIdentified(o.id, o.beliefIds, o.confidence))
    {
      o := Valued(x.opportunity.value, x.beliefIds, x.confidence);
      opportunities := opportunities + [o];
      published := OfExecutive(OpportunityIdentified(o.id, o.beliefIds, o.confidence));
      decisions := decisions + [IdentifiedOpportunity(o.id)];
    }

    method ScoreOpportunity(o: Opportunity) returns (published: Payload)
      modifies this`decisions
      ensures decisions == old(decisions) + [ScoredOpportunity(o.id)]
      ensures published == OfExecutive(OpportunityScored(o.id, o.value, o.confidence))
    {
      published := OfExecutive(OpportunityScored(o.id, o.value, o.confidence));
      decisions := decisions + [ScoredOpportunity(o.id)];
    }

    method ProposePlan(o: Opportunity, tick: nat) returns (published: Payload)
      modifies this`plans, this`pendingPlans, this`decisions
      ensures var p := PlanFor(text, o, tick);
              && plans == old(plans) + [p] && pendingPlans == old(pendingPlans) + [p.id]
              && decisions == old(decisions) + [Decision.ProposedPlan(p.id)] && published == Proposal(p)
    {
      var p := PlanFor(text, o, tick);
      plans := plans + [p];
      pendingPlans := pendingPlans + [p.id];
      published := Proposal(p);
      decisions := decisions + [Decision.ProposedPlan(p.id)];
    }

    method Pursue(x: ExecutiveEvent, tick: nat) returns (published: seq<Payload>)
      requires x.GenerationCompleted? && x.groupId.Some? && x.opportunity.Some?
      modifies this`groups, this`ofOpportunity, this`opportunities, this`plans, this`pendingPlans, this`decisions
      ensures Reaction(State(), published) == ExecutiveModel.Pursue(text, old(State()), x, tick)
    {
      hide Valued, PlanFor, Proposal, By;
      PursuitNamesIts(x);
      groups := groups + [Group(x.groupId.value, x.signature, x.beliefIds, x.confidence)];
      ofOpportunity := ofOpportunity[x.opportunity.value := x.signature];
      var o, identified := IdentifyOpportunity(x);
      var scored := ScoreOpportunity(o);
      var proposed := ProposePlan(o, tick);
      assert decisions == old(decisions) + [IdentifiedOpportunity(o.id), ScoredOpportunity(o.id), Decision.ProposedPlan(PlanFor(text, o, tick).id)];
      published := [identified, scored, proposed];
    }

    lemma PursuitNamesIts(x: ExecutiveEvent)
      requires x.GenerationCompleted? && x.opportunity.Some?
      ensures Valued(x.opportunity.value, x.beliefIds, x.confidence).id == x.opportunity.value
    {
    }

    method OnGenerationCompleted(x: ExecutiveEvent, time: real, tick: nat) returns (published: seq<Payload>)
      requires x.GenerationCompleted?
      modifies this`generations, this`novel, this`groups, this`ofOpportunity, this`opportunities, this`plans, this`pendingPlans, this`decisions
      ensures Reaction(State(), published) == ExecutiveModel.OnGenerationCompleted(text, old(State()), x, time, tick)
    {
      hide ExecutiveModel.Pursue, Recorded, By;
      var first := FirstGeneration(generations, x.generationId);
      if first.None? {
        return [];  // IndexError
      }
      generations := generations + [Recorded(x, first.value.started, time)];
      if !x.accepted {
        return [];
      }
      novel := novel + 1;
      if x.groupId.None? || x.opportunity.None? {
        return [];  // AssertionError
      }
      published := Pursue(x, tick);
    }

    method OnOutcomeRecorded(planId: Id)
      modifies this`resolved, this`resolvedSituations
      ensures State() == ExecutiveModel.OnOutcomeRecorded(old(State()), planId)
    {
      hide Latest;
      var known := Latest(plans, PlanId);
      if planId !in known {
        return;
      }
      var signature := Lookup(ofOpportunity, known[planId].opportunityId);
      if signature.Some? && signature.value !in resolved {
        resolved := resolved + {signature.value};
        resolvedSituations := resolvedSituations + [signature.value];
      }
    }

    // -------------------------------------------------------------- research

    method NoteSearchIssued()
      modifies this`issued, this`novel, this`lastRate
      ensures Searching() == NoteSearch(old(Searching()))
    {
      issued := issued + 1;
      if issued >= SOFT_STOP_WINDOW_SEARCHES {
        lastRate := Some(Rate(novel, issued));
        issued := 0;
        novel := 0;
      }
    }

    /** Asks the Governor to fund one search, unless the last window found too little. */
    method RequestResearch(c: Candidate) returns (requestId: Option<string>, published: seq<Payload>)
      modifies this`decisions, this`pendingIntents, this`issued, this`novel, this`lastRate
      ensures Reaction(State(), published) == ExecutiveModel.RequestResearch(text, old(State()), c)
      ensures requestId == if ShouldContinue(old(Searching())) then Some(text.requestId(c.deliberationId, c.query, c.depth)) else None
    {
      hide NoteSearch, ShouldContinue, By;
      if !ShouldContinue(Searching()) {
        decisions := decisions + [SoftStopped(c.deliberationId)];
        return None, [];
      }
      var id := text.requestId(c.deliberationId, c.query, c.depth);
      pendingIntents := pendingIntents[id := Intent(id, c.query, c.cost, c.depth, c.priority, c.deliberationId)];
      ghost var asking := Searching();
      NoteSearchIssued();
      assert Searching() == NoteSearch(asking) && Held() == old(Held()) && Kept() == old(Kept());
      published := [OfExecutive(ResearchSpendRequested(id, c.deliberationId, "research", c.cost, c.depth))];
      requestId := Some(id);
    }

    /** Candidates ask in ranked order; each request id is reported at its candidate's own position. */
    method RequestResearchBatch(cs: seq<Candidate>) returns (ids: seq<Option<string>>, published: seq<Payload>)
      modifies this`decisions, this`pendingIntents, this`issued, this`novel, this`lastRate
      ensures Reaction(State(), published) == RequestBatch(text, old(State()), cs)
      ensures var asked, order := AskedIds(text, old(State()), ByWorth(cs, PriorityOf)), Order(cs, PriorityOf);
              && |ids| == |cs| == |asked|
              && forall k :: 0 <= k < |cs| ==> 0 <= order[k] < |ids| && ids[order[k]] == asked[k]
    {
      hide ExecutiveModel.RequestResearch, RequestAll, AskedIds, ShouldContinue, ByWorth, Order, By;
      RankingRanks(cs, PriorityOf);
      OrderDistinct(cs);
      var ranked, order := ByWorth(cs, PriorityOf), Order(cs, PriorityOf);
      ghost var whole, asked := RequestAll(text, State(), ranked), AskedIds(text, State(), ranked);
      ids := seq(|cs|, i requires 0 <= i < |cs| => None);
      published := [];
      var k := 0;
      assert ranked[0..] == ranked;
      while k < |ranked|
        invariant 0 <= k <= |ranked| == |cs| == |order| == |ids|
        invariant RequestAll(text, State(), ranked[k..]).state == whole.state
        invariant published + RequestAll(text, State(), ranked[k..]).published == whole.published
        invariant AskedIds(text, State(), ranked[k..]) == asked[k..]
        invariant forall j :: 0 <= j < k ==> ids[order[j]] == asked[j]
      {
        RequestsTurn(text, State(), ranked, k);
        ghost var before := State();
        var id, more := RequestResearch(ranked[k]);
        Associates(published, more, RequestAll(text, State(), ranked[k + 1..]).published);
        published := published + more;
        assert id == asked[k..][0] && asked[k..][1..] == asked[k + 1..];
        ids := ids[order[k] := id];
        k := k + 1;
      }
      assert ranked[k..] == [];
      NoRequests(text, State());
      assert published + [] == published;
    }

    method OnResearchApproved(g: GovernorEvent) returns (published: seq<Payload>)
      requires g.ResearchSpendApproved?
      modifies this`pendingIntents, this`decisions
      ensures Reaction(State(), published) == ExecutiveModel.OnResearchApproved(old(State()), g)
    {
      hide By;
      if g.requestId !in pendingIntents {
        return [];
      }
      var intent := pendingIntents[g.requestId];
      pendingIntents := pendingIntents - {g.requestId};
      published := [OfExecutive(ResearchIntent(g.requestId, intent.query, g.cost, intent.depth, intent.priority))];
      decisions := decisions + [EmittedIntent(g.requestId)];
    }

    method OnResearchDenied(g: GovernorEvent)
      requires g.ResearchSpendDenied?
      modifies this`pendingIntents, this`decisions
      ensures State() == ExecutiveModel.OnResearchDenied(old(State()), g)
    {
      if g.requestId in pendingIntents {
        pendingIntents := pendingIntents - {g.requestId};
        decisions := decisions + [DeniedIntent(g.requestId)];
      }
    }

    method OnKernelStarted() returns (published: seq<Payload>)
      modifies this`decisions, this`pendingIntents, this`issued, this`novel, this`lastRate
      ensures Reaction(State(), published) == ExecutiveModel.OnKernelStarted(text, old(State()))
    {
      hide RequestBatch, Seeds, By, AskedIds, Order, ByWorth, ShouldContinue;
      if SeededColdStart in decisions || confidence != map[] {
        return [];
      }
      var _, requested := RequestResearchBatch(Seeds());
      published := requested;
      decisions := decisions + [SeededColdStart];
    }

    // -------------------------------------------------------------- deliberation

    method BuildCandidates(judge: Id -> real) returns (cs: seq<D.Contender>, published: seq<Payload>)
      requires D.Known(Kept())
      ensures cs == D.Contenders(Kept(), judge) && published == D.Estimations(text, |pendingPlans|)
    {
      hide D.Build, Latest;
      cs, published := [], [];
      var i := 0;
      while i < |pendingPlans|
        invariant 0 <= i <= |pendingPlans| && |cs| == i
        invariant forall j :: 0 <= j < i ==> cs[j] == D.Contenders(Kept(), judge)[j]
        invariant published == D.Estimations(text, i)
      {
        assert pendingPlans[i] in Kept().pendingPlans;
        cs := cs + [D.Build(Kept(), judge, i)];
        published := published + [OfExecutive(DeliberationStep("ev_estimation", text.say(Estimated)))];
        i := i + 1;
      }
    }

    /** The budgets run down in ranked order; the first candidate funded wins. */
    method AllocateBudgets(ranked: seq<D.Contender>, attention: real, capital: real)
      returns (allocations: seq<D.Allocation>, checks: seq<Phrase>, winner: Option<Id>)
      ensures allocations == D.Allocate(ranked, attention, capital)
      ensures checks == D.Checks(ranked, attention, capital)
      ensures winner == D.Winner(allocations)
    {
      hide D.Allocate, D.Checks, D.Winner, D.Fits, D.Share, D.Checked, D.AttentionAfter, D.CapitalAfter;
      var attentionLeft, capitalLeft := attention, capital;
      allocations, checks, winner := [], [], None;
      var i := 0;
      AllocationEnds(ranked, attention, capital);
      assert ranked[0..] == ranked;
      while i < |ranked|
        invariant 0 <= i <= |ranked|
        invariant allocations + D.Allocate(ranked[i..], attentionLeft, capitalLeft) == D.Allocate(ranked, attention, capital)
        invariant checks + D.Checks(ranked[i..], attentionLeft, capitalLeft) == D.Checks(ranked, attention, capital)
        invariant D.Winner(D.Allocate(ranked, attention, capital))
               == if winner.Some? then winner else D.Winner(D.Allocate(ranked[i..], attentionLeft, capitalLeft))
      {
        var c := ranked[i];
        AllocationTurns(ranked, i, attentionLeft, capitalLeft, allocations, checks);
        OneShare(c, attentionLeft, capitalLeft);
        var attentionOk, capitalOk := c.attention <= attentionLeft, c.capital <= capitalLeft;
        var funded := attentionOk && capitalOk;
        allocations := allocations + [D.Allocation.Allocation(c.planId, c.opportunityId, c.estimate, if funded then c.attention else 0.0,
                                                              if funded then c.capital else 0.0, funded)];
        checks := checks + [if funded then Funded else Unfunded(attentionOk, capitalOk)];
        winner := if funded && winner.None? then Some(c.planId) else winner;
        attentionLeft := if funded then attentionLeft - c.attention else attentionLeft;
        capitalLeft := if funded then capitalLeft - c.capital else capitalLeft;
        i := i + 1;
      }
      AllocationEnds(ranked, attentionLeft, capitalLeft);
      assert allocations + [] == allocations && checks + [] == checks;
    }

    /** Commits the winner and abandons everyone else, in ranked order. */
    method Announce(allocations: seq<D.Allocation>, checks: seq<Phrase>, winner: Option<Id>)
      returns (abandoned: seq<Id>, published: seq<Payload>)
      requires |allocations| == |checks|
      ensures abandoned == D.Losers(PlansOf(allocations), winner)
      ensures published == D.Decisions(text, allocations, checks, winner)
    {
      hide D.Losers, D.Dropped;
      abandoned, published := [], [];
      var i := 0;
      ghost var ids := PlansOf(allocations);
      assert D.Losers([], winner) == [] by { NoLosers(winner); }
      assert ids[..|ids|] == ids;
      while i < |allocations|
        invariant 0 <= i <= |allocations| && |published| == i
        invariant abandoned == D.Losers(ids[..i], winner)
        invariant forall j :: 0 <= j < i ==> published[j] == D.Decided(text, allocations[j], checks[j], winner)
      {
        LosersNext(ids, i, winner);
        var a := allocations[i];
        if Some(a.planId) == winner {
          published := published + [OfExecutive(PlanSelected(a.planId))];
        } else {
          abandoned := abandoned + [a.planId];
          published := published + [OfExecutive(PlanAbandoned(a.planId, text.say(D.Dropped(text, a, checks[i], winner))))];
        }
        i := i + 1;
      }
    }

    method Deliberate(judge: Id -> real, attention: real, capital: real) returns (result: Option<D.Result>,
          published: seq<Payload>)
      requires D.Known(Kept())
      modifies this`pendingPlans
      ensures result == D.Deliberate(old(Kept()), judge, attention, capital)
      ensures published == D.Proceedings(text, old(Kept()), judge, attention, capital)
      ensures pendingPlans == []
    {
      hide D.Allocate, D.Checks, D.Winner, D.Losers, D.Decisions, D.Estimations, D.CheckNotices, ByWorth, D.Build;
      if pendingPlans == [] {
        return None, [];
      }
      var cs, estimated := BuildCandidates(judge);
      var ranked := ByWorth(cs, D.EstimateOf);
      var allocations, checks, winner := AllocateBudgets(ranked, attention, capital);
      D.IdsAre(ranked);
      assert PlansOf(allocations) == D.Ids(ranked);
      var abandoned, decided := Announce(allocations, checks, winner);
      published := estimated + D.CheckNotices(text, checks) + decided;
      pendingPlans := [];
      result := Some(D.Result.Result(winner, D.Ids(ranked), abandoned, allocations));
    }
  }

  function PlansOf(allocations: seq<D.Allocation>): (r: seq<Id>)
    ensures |r| == |allocations| && forall i :: 0 <= i < |r| ==> r[i] == allocations[i].planId
  {
    seq(|allocations|, i requires 0 <= i < |allocations| => allocations[i].planId)
  }

  lemma NoLosers(winner: Option<Id>)
    ensures D.Losers([], winner) == []
  {
  }
}
