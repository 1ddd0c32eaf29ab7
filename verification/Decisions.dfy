/** Each plan gets at most one decision, however events interleave and however often an owner answers it. */
module Decisions {
  import opened Prelude
  import opened Events
  import opened Rules
  import opened KernelModel
  import opened Organism
  import opened Runs
  import opened Authority
  import F = FirstOutcome
  import PlanLife
  import G = GovernorModel
  import GT = GovernorTheorems
  import T = ExecutorModel
  import X = ExecutiveModel
  import M = MemoryModel
  import P = PerceptionModel
  import W = WorldModelModel

  function Proposes(plan: Id): Payload -> bool {
    (p: Payload) => p.OfExecutive? && p.x.PlanProposed? && p.x.planId == plan
  }

  function Defers(plan: Id): Payload -> bool {
    (p: Payload) => p.OfGovernor? && p.g.EscalationCreated? && p.g.planId == plan
  }

  function Decides(plan: Id): Payload -> bool {
    (p: Payload) => p.OfGovernor? && (p.g.ApprovalGranted? || p.g.ApprovalDenied?) && p.g.planId == plan
  }

  /** The escalations of a plan still open. */
  ghost function Open(pending: map<Id, G.Escalation>, plan: Id): set<Id> {
    set id | id in pending && pending[id].planId == plan
  }

  /** What may yet be decided about a plan, and what has been. */
  ghost function Chances(queue: seq<Payload>, log: seq<Payload>, pending: map<Id, G.Escalation>, plan: Id): nat {
    Count(queue, Proposes(plan)) + Count(queue, Defers(plan)) + |Open(pending, plan)| + Count(log, Decides(plan))
  }

  function Worth(p: Payload, plan: Id): nat {
    if Proposes(plan)(p) || Defers(plan)(p) then 1 else 0
  }

  lemma QuietCounts(ps: seq<Payload>, plan: Id)
    requires forall p <- ps :: !Defers(plan)(p) && !Decides(plan)(p)
    ensures Count(ps, Defers(plan)) == 0 && Count(ps, Decides(plan)) == 0
  {
    CountNone(ps, Defers(plan));
    CountNone(ps, Decides(plan));
  }

  lemma PlanSpends(v: G.Env, s: G.GState, x: ExecutiveEvent, tick: nat, plan: Id)
    requires x.PlanProposed?
    ensures var r := G.OnPlanProposed(v, s, x, tick);
            && Count(r.published, Decides(plan)) + Count(r.published, Defers(plan)) <= (if x.planId == plan then 1 else 0)
            && r.state.pendingEscalations == s.pendingEscalations
  {
    hide G.OnPlanProposed, GT.EndingOf, GT.Passes, GT.Covered, GT.Vetoed, By, Count;
    var preamble := GT.PlanDecision(v, s, x, tick);
    var ps := G.OnPlanProposed(v, s, x, tick).published;
    var tail := ps[|preamble|..];
    assert ps == preamble + tail;
    QuietCounts(preamble, plan);
    CountConcat(preamble, tail, Decides(plan));
    CountConcat(preamble, tail, Defers(plan));
    EndingSpends(tail, GT.EndingOf(v, s, x), x.planId, x.actions, plan);
  }

  lemma EndingSpends(tail: seq<Payload>, ending: GT.Ending, planId: Id, actions: seq<string>, plan: Id)
    requires GT.Ends(tail, ending, planId, actions)
    ensures Count(tail, Decides(plan)) + Count(tail, Defers(plan)) <= (if planId == plan then 1 else 0)
  {
    hide Count;
    if tail == [] {
      QuietCounts(tail, plan);
    } else if |tail| == 1 {
      assert tail == [tail[0]];
      CountOne(tail[0], Decides(plan));
      CountOne(tail[0], Defers(plan));
    } else {
      assert tail == [tail[0]] + [tail[1]];
      CountSnoc([tail[0]], tail[1], Decides(plan));
      CountSnoc([tail[0]], tail[1], Defers(plan));
      CountOne(tail[0], Decides(plan));
      CountOne(tail[0], Defers(plan));
    }
  }

  lemma Opening(pending: map<Id, G.Escalation>, record: G.Escalation, plan: Id)
    ensures |Open(pending[record.id := record], plan)| <= |Open(pending, plan)| + if record.planId == plan then 1 else 0
  {
    var before, after := Open(pending, plan), Open(pending[record.id := record], plan);
    if record.planId == plan {
      assert after == before + {record.id};
    } else {
      assert after == before - {record.id};
    }
  }

  lemma Closing(pending: map<Id, G.Escalation>, id: Id, plan: Id)
    requires id in pending
    ensures |Open(pending - {id}, plan)| + (if pending[id].planId == plan then 1 else 0) == |Open(pending, plan)|
  {
    var before, after := Open(pending, plan), Open(pending - {id}, plan);
    assert after == before - {id};
    if pending[id].planId == plan { assert id in before; }
  }

  /** The Governor spends a chance it was given: deciding, deferring and holding open add up to what it had. */
  lemma GovernorSpends(v: G.Env, s: G.GState, e: Event, tick: nat, plan: Id)
    ensures var r := G.Step(v, s, e, tick);
            Count(r.published, Decides(plan)) + Count(r.published, Defers(plan)) + |Open(r.state.pendingEscalations, plan)|
            <= |Open(s.pendingEscalations, plan)| + Worth(e.body, plan)
  {
    hide G.OnPlanProposed, G.OnResearchSpendRequested, G.OnGovernance, G.OnRevisionCompleted, By, Count, Open;
    if e.body.OfExecutive? && e.body.x.PlanProposed? {
      PlanSpends(v, s, e.body.x, tick, plan);
    } else if e.body.OfExecutive? && e.body.x.ResearchSpendRequested? {
      ResearchEscalatesNothing(v, s, e.body.x, tick);
      ResearchDecidesNothing(v, s, e.body.x, tick, plan);
    } else if e.body.OfGovernor? {
      GovernanceSpends(v, s, e.body.g, e.time, tick, plan);
    } else {
      QuietCounts([], plan);
    }
  }

  lemma GovernanceSpends(v: G.Env, s: G.GState, g: GovernorEvent, time: real, tick: nat, plan: Id)
    ensures var r := G.OnGovernance(v, s, g, time, tick);
            Count(r.published, Decides(plan)) + Count(r.published, Defers(plan)) + |Open(r.state.pendingEscalations, plan)|
            <= |Open(s.pendingEscalations, plan)| + Worth(OfGovernor(g), plan)
  {
    hide G.OnAmendmentProposed, G.OnAmendmentApproved, G.OnAmendmentRejected, By, Count, Open;
    var r := G.OnGovernance(v, s, g, time, tick);
    if g.EscalationResolved? && g.escalationId in s.pendingEscalations {
      Closing(s.pendingEscalations, g.escalationId, plan);
      assert r.published == [r.published[0]];
      CountOne(r.published[0], Decides(plan));
      CountOne(r.published[0], Defers(plan));
    } else {
      QuietCounts([], plan);
      if g.EscalationCreated? {
        Opening(s.pendingEscalations, r.state.pendingEscalations[g.escalationId], plan);
      } else {
        AmendingLeavesEscalations(s, g, time);
      }
    }
  }

  lemma ResearchDecidesNothing(v: G.Env, s: G.GState, x: ExecutiveEvent, tick: nat, plan: Id)
    requires x.ResearchSpendRequested?
    ensures var ps := G.OnResearchSpendRequested(v, s, x, tick).published; Count(ps, Decides(plan)) == 0 && Count(ps, Defers(plan)) == 0
  {
    hide G.Policy, G.ResearchFacts, FindRuleArgs, G.WindowSeconds, By, G.OnlyRecordsResearch, Count;
    QuietCounts(G.OnResearchSpendRequested(v, s, x, tick).published, plan);
  }

  lemma {:induction false} ProposalsAreItems(ps: seq<Payload>, plan: Id)
    ensures Count(ps, Proposes(plan)) <= |F.Items(ps, plan)|
  {
    if ps != [] { ProposalsAreItems(ps[1..], plan); }
  }

  /** All the publications of a delivery, counted. */
  lemma PublicationsSpend(v: Setting, o: OState, e: Event, tick: nat, plan: Id)
    ensures var ps := Publications(v, o, e, tick);
            && Count(ps, Decides(plan)) + Count(ps, Defers(plan)) + |Open(G.Step(v.governor, o.governor, e, tick).state.pendingEscalations, plan)|
               <= |Open(o.governor.pendingEscalations, plan)| + Worth(e.body, plan)
            && Count(ps, Proposes(plan)) <= (if plan == Minted(tick, Executive, [2]) && PlanLife.ItemIn(e.body, plan) == None then 1 else 0)
  {
    hide G.Step, X.Step, T.Step, M.Step, P.Step, W.Step, Publications, Count, Open, By, F.Items;
    var before, after := GovernorsPart(v, o, e, tick);
    var gs := G.Step(v.governor, o.governor, e, tick).published;
    GovernorSpends(v.governor, o.governor, e, tick, plan);
    assert (forall p <- before :: p in before + after) && (forall p <- after :: p in before + after);
    QuietCounts(before, plan);
    QuietCounts(after, plan);
    CountConcat(before + gs, after, Decides(plan));
    CountConcat(before, gs, Decides(plan));
    CountConcat(before + gs, after, Defers(plan));
    CountConcat(before, gs, Defers(plan));
    ProposalsSpend(v, o, e, tick, plan);
  }

  lemma ProposalsSpend(v: Setting, o: OState, e: Event, tick: nat, plan: Id)
    ensures Count(Publications(v, o, e, tick), Proposes(plan))
         <= if plan == Minted(tick, Executive, [2]) && PlanLife.ItemIn(e.body, plan) == None then 1 else 0
  {
    hide G.Step, X.Step, T.Step, M.Step, P.Step, W.Step, Count, By, F.Items, PlanLife.ItemIn;
    EachPublishesItsOwn(v, o, e, tick);
    var xs := X.Step(Text(v), o.executive, e, tick).published;
    F.ExecutiveHears(Text(v), o.executive, e, tick, plan);
    ProposalsAreItems(xs, plan);
    var before := P.Step(o.perception, e).published + W.Step(o.worldModel, e).published;
    var after := G.Step(v.governor, o.governor, e, tick).published + T.Step(Text(v), v.behaviour, o.executor, e, tick).published
                 + M.Step(Text(v), o.memory, e, tick).published;
    OthersPropose(before, after, plan, v, o, e, tick);
    assert Publications(v, o, e, tick) == before + xs + after;
    CountConcat(before + xs, after, Proposes(plan));
    CountConcat(before, xs, Proposes(plan));
  }

  lemma OthersPropose(before: seq<Payload>, after: seq<Payload>, plan: Id, v: Setting, o: OState, e: Event, tick: nat)
    requires before == P.Step(o.perception, e).published + W.Step(o.worldModel, e).published
    requires after == G.Step(v.governor, o.governor, e, tick).published + T.Step(Text(v), v.behaviour, o.executor, e, tick).published
                      + M.Step(Text(v), o.memory, e, tick).published
    ensures Count(before, Proposes(plan)) == 0 && Count(after, Proposes(plan)) == 0
  {
    hide G.Step, X.Step, T.Step, M.Step, P.Step, W.Step, Count;
    EachPublishesItsOwn(v, o, e, tick);
    CountNone(before, Proposes(plan));
    CountNone(after, Proposes(plan));
  }

  /** A chance at the head of the queue was counted. */
  lemma HeadCounted(q: seq<Payload>, plan: Id)
    requires q != []
    ensures Proposes(plan)(q[0]) ==> Count(q, Proposes(plan)) >= 1
    ensures Defers(plan)(q[0]) ==> Count(q, Defers(plan)) >= 1
  {
  }

  /** The event settles a pending escalation of the plan. */
  ghost predicate SettlesFor(p: Payload, pending: map<Id, G.Escalation>, plan: Id) {
    Settles(p) && p.g.escalationId in pending && pending[p.g.escalationId].planId == plan
  }

  /** What the Governor publishes about a plan answers its proposal, or settles one of its escalations. */
  lemma GovernorActs(v: G.Env, s: G.GState, e: Event, tick: nat, plan: Id)
    ensures var ps := G.Step(v, s, e, tick).published;
            && (Count(ps, Defers(plan)) > 0 ==> Proposes(plan)(e.body))
            && (Count(ps, Decides(plan)) > 0 ==> Proposes(plan)(e.body) || SettlesFor(e.body, s.pendingEscalations, plan))
  {
    hide G.OnPlanProposed, G.OnResearchSpendRequested, G.OnGovernance, G.OnRevisionCompleted, By, Count;
    if e.body.OfExecutive? && e.body.x.PlanProposed? {
      PlanSpends(v, s, e.body.x, tick, plan);
    } else if e.body.OfExecutive? && e.body.x.ResearchSpendRequested? {
      ResearchDecidesNothing(v, s, e.body.x, tick, plan);
    } else if e.body.OfGovernor? {
      GovernanceActs(v, s, e.body.g, e.time, tick, plan);
    } else {
      QuietCounts([], plan);
    }
  }

  lemma GovernanceActs(v: G.Env, s: G.GState, g: GovernorEvent, time: real, tick: nat, plan: Id)
    ensures var ps := G.OnGovernance(v, s, g, time, tick).published;
            && Count(ps, Defers(plan)) == 0
            && (Count(ps, Decides(plan)) > 0 ==> SettlesFor(OfGovernor(g), s.pendingEscalations, plan))
  {
    hide G.OnAmendmentProposed, G.OnAmendmentApproved, G.OnAmendmentRejected, By, Count;
    var ps := G.OnGovernance(v, s, g, time, tick).published;
    if g.EscalationResolved? && g.escalationId in s.pendingEscalations {
      assert ps == [ps[0]];
      CountOne(ps[0], Decides(plan));
      CountOne(ps[0], Defers(plan));
    } else {
      QuietCounts(ps, plan);
    }
  }

  lemma PublicationsAct(v: Setting, o: OState, e: Event, tick: nat, plan: Id)
    ensures var ps := Publications(v, o, e, tick);
            && (Count(ps, Defers(plan)) > 0 ==> Proposes(plan)(e.body))
            && (Count(ps, Decides(plan)) > 0 ==> Proposes(plan)(e.body) || SettlesFor(e.body, o.governor.pendingEscalations, plan))
  {
    hide G.Step, X.Step, T.Step, M.Step, P.Step, W.Step, Publications, Count, By;
    var before, after := GovernorsPart(v, o, e, tick);
    var gs := G.Step(v.governor, o.governor, e, tick).published;
    GovernorActs(v.governor, o.governor, e, tick, plan);
    assert (forall p <- before :: p in before + after) && (forall p <- after :: p in before + after);
    QuietCounts(before, plan);
    QuietCounts(after, plan);
    CountConcat(before + gs, after, Decides(plan));
    CountConcat(before, gs, Decides(plan));
    CountConcat(before + gs, after, Defers(plan));
    CountConcat(before, gs, Defers(plan));
  }

  // ---------------------------------------------------------------- what a log can hold on a plan

  /** An answer to the escalation comes at position i or later. */
  ghost predicate AnsweredFrom(log: seq<Payload>, i: nat, id: Id) {
    exists j: nat :: i <= j < |log| && Settles(log[j]) && log[j].g.escalationId == id
  }

  /** At most one escalation and one decision; a plan both escalated and decided was answered by its owner in between. */
  ghost predicate OneDecision(log: seq<Payload>, plan: Id, ticks: nat) {
    && Count(log, Defers(plan)) <= 1 && Count(log, Decides(plan)) <= 1
    && (Count(log, Decides(plan)) > 0 ==>
          forall i: nat :: i < |log| && Defers(plan)(log[i]) ==> AnsweredFrom(log, i + 1, log[i].g.escalationId))
    && (!MintedBefore(plan, ticks) ==>
          Count(log, Proposes(plan)) == 0 && Count(log, Defers(plan)) == 0 && Count(log, Decides(plan)) == 0)
  }

  /** What is pending was created by an event already dispatched. */
  ghost predicate Backed(p: Point) {
    forall id :: id in p.o.governor.pendingEscalations ==>
      EscalatedFor(p.past, id, p.o.governor.pendingEscalations[id].planId)
  }

  /** Live, a plan has one chance; in replay, what a decided plan has pending is answered further on. */
  ghost predicate OneChance(p: Point, plan: Id) {
    var open, log := Open(p.o.governor.pendingEscalations, plan), Log(p);
    if p.replaying then Count(log, Decides(plan)) > 0 ==> forall id <- open :: AnsweredFrom(p.queue, 0, id)
    else && Chances(p.queue, log, p.o.governor.pendingEscalations, plan) <= 1
         && (Count(p.queue, Proposes(plan)) > 0 ==> Count(log, Defers(plan)) == 0)
  }

  ghost predicate Decided(p: Point, plan: Id) {
    Accountable(p) && OneDecision(Log(p), plan, p.ticks) && Backed(p) && OneChance(p, plan)
  }

  // ---------------------------------------------------------------- a live delivery

  lemma AnsweredGrows(log: seq<Payload>, more: seq<Payload>, i: nat, id: Id)
    requires AnsweredFrom(log, i, id)
    ensures AnsweredFrom(log + more, i, id)
  {
    var j: nat :| i <= j < |log| && Settles(log[j]) && log[j].g.escalationId == id;
    assert (log + more)[j] == log[j];
  }

  lemma {:induction false} CountedAt(s: seq<Payload>, f: Payload -> bool, i: nat)
    requires i < |s| && f(s[i])
    ensures Count(s, f) > 0
  {
    if i > 0 { CountedAt(s[1..], f, i - 1); }
  }

  /** Two of a kind count for two. */
  lemma CountedTwice(s: seq<Payload>, f: Payload -> bool, i: nat, j: nat)
    requires i < j < |s| && f(s[i]) && f(s[j])
    ensures Count(s, f) > 1
  {
    hide Count;
    assert s == s[..j] + s[j..];
    CountConcat(s[..j], s[j..], f);
    CountedAt(s[..j], f, i);
    CountedAt(s[j..], f, 0);
  }

  lemma BackingGrows(v: Setting, p: Point, p': Point, e: Event)
    requires Backed(p) && p'.past == p.past + [e.body] && p'.o == Successor(v, p.o, e, p.ticks)
    ensures Backed(p')
  {
    hide G.Step, EscalatedFor, X.Step, T.Step, M.Step, P.Step, W.Step, By;
    var pending, pending' := p.o.governor.pendingEscalations, p'.o.governor.pendingEscalations;
    GovernorEscalates(v.governor, p.o.governor, e, p.ticks);
    forall id | id in pending' ensures EscalatedFor(p'.past, id, pending'[id].planId) {
      if id in pending && pending'[id] == pending[id] {
        EscalatedForGrows(p.past, [e.body], id, pending[id].planId);
      } else {
        CreatedFor(p'.past, e.body);
      }
    }
  }

  /** What is decided out of an escalation was answered by the event that settled it. */
  lemma SettlingAnswers(p: Point, plan: Id)
    requires p.queue != [] && SettlesFor(p.queue[0], p.o.governor.pendingEscalations, plan)
    requires Backed(p) && OneDecision(Log(p), plan, p.ticks)
    ensures forall i: nat :: i < |Log(p)| && Defers(plan)(Log(p)[i]) ==> AnsweredFrom(Log(p), i + 1, Log(p)[i].g.escalationId)
  {
    hide Count;
    var id, log := p.queue[0].g.escalationId, Log(p);
    var c :| c in p.past && Creates(c) && c.g.escalationId == id && c.g.planId == plan;
    var k: nat :| k < |p.past| && p.past[k] == c;
    assert log[k] == c && log[|p.past|] == p.queue[0];
    forall i: nat | i < |log| && Defers(plan)(log[i]) ensures AnsweredFrom(log, i + 1, log[i].g.escalationId) {
      if i < k { CountedTwice(log, Defers(plan), i, k); }
      if k < i { CountedTwice(log, Defers(plan), k, i); }
    }
  }

  lemma DecisionStands(log: seq<Payload>, pubs: seq<Payload>, plan: Id, ticks: nat, ticks': nat)
    requires OneDecision(log, plan, ticks) && ticks <= ticks'
    requires Count(log, Defers(plan)) + Count(pubs, Defers(plan)) <= 1
    requires Count(log, Decides(plan)) + Count(pubs, Decides(plan)) <= 1
    requires Count(pubs, Defers(plan)) > 0 ==> Count(log, Decides(plan)) + Count(pubs, Decides(plan)) == 0
    requires Count(pubs, Decides(plan)) > 0 ==>
               forall i: nat :: i < |log| && Defers(plan)(log[i]) ==> AnsweredFrom(log, i + 1, log[i].g.escalationId)
    requires !MintedBefore(plan, ticks') ==> Count(pubs, Proposes(plan)) + Count(pubs, Defers(plan)) + Count(pubs, Decides(plan)) == 0
    ensures OneDecision(log + pubs, plan, ticks')
  {
    hide Count, AnsweredFrom;
    var all := log + pubs;
    CountConcat(log, pubs, Defers(plan));
    CountConcat(log, pubs, Decides(plan));
    CountConcat(log, pubs, Proposes(plan));
    if Count(all, Decides(plan)) > 0 {
      forall i: nat | i < |all| && Defers(plan)(all[i]) ensures AnsweredFrom(all, i + 1, all[i].g.escalationId) {
        if i < |log| {
          assert all[i] == log[i];
          AnsweredGrows(log, pubs, i + 1, log[i].g.escalationId);
        } else {
          assert all[i] == pubs[i - |log|];
          CountedAt(pubs, Defers(plan), i - |log|);
        }
      }
    }
  }

  /** What is queued is in the log. */
  lemma QueueInLog(p: Point, plan: Id)
    ensures Count(p.queue, Proposes(plan)) <= Count(Log(p), Proposes(plan))
    ensures Count(p.queue, Defers(plan)) <= Count(Log(p), Defers(plan))
  {
    hide Count;
    CountConcat(p.past, p.queue, Proposes(plan));
    CountConcat(p.past, p.queue, Defers(plan));
  }

  /** A plan has as many open escalations as its log has room for. */
  lemma OpenIsBacked(p: Point, plan: Id)
    requires Backed(p) && OneDecision(Log(p), plan, p.ticks)
    ensures |Open(p.o.governor.pendingEscalations, plan)| <= Count(Log(p), Defers(plan)) <= 1
  {
    hide Count, AnsweredFrom;
    var log, open := Log(p), Open(p.o.governor.pendingEscalations, plan);
    forall id | id in open ensures exists i: nat :: i < |log| && Defers(plan)(log[i]) && log[i].g.escalationId == id {
      var c :| c in p.past && Creates(c) && c.g.escalationId == id && c.g.planId == plan;
      var k: nat :| k < |p.past| && p.past[k] == c;
      assert log[k] == c;
    }
    if open != {} {
      var id :| id in open;
      var i: nat :| i < |log| && Defers(plan)(log[i]) && log[i].g.escalationId == id;
      CountedAt(log, Defers(plan), i);
      forall other | other in open ensures other == id {
        var j: nat :| j < |log| && Defers(plan)(log[j]) && log[j].g.escalationId == other;
        if i < j { CountedTwice(log, Defers(plan), i, j); }
        if j < i { CountedTwice(log, Defers(plan), j, i); }
      }
      assert open == {id};
    }
  }

  /** The counts of one live delivery. */
  lemma DeliveredDecision(p: Point, pubs: seq<Payload>, plan: Id, pending': map<Id, G.Escalation>)
    requires p.queue != [] && Backed(p) && OneDecision(Log(p), plan, p.ticks) && OneChance(p, plan) && !p.replaying
    requires Count(pubs, Decides(plan)) + Count(pubs, Defers(plan)) + |Open(pending', plan)|
             <= |Open(p.o.governor.pendingEscalations, plan)| + Worth(p.queue[0], plan)
    requires Count(pubs, Proposes(plan)) <= (if plan == Minted(p.ticks, Executive, [2]) && Worth(p.queue[0], plan) == 0 then 1 else 0)
    requires Count(pubs, Defers(plan)) > 0 ==> Proposes(plan)(p.queue[0])
    requires Count(pubs, Decides(plan)) > 0 ==> Proposes(plan)(p.queue[0]) || SettlesFor(p.queue[0], p.o.governor.pendingEscalations, plan)
    ensures OneDecision(Log(p) + pubs, plan, p.ticks + 1)
    ensures Chances(p.queue[1..] + pubs, Log(p) + pubs, pending', plan) <= 1
    ensures Count(p.queue[1..] + pubs, Proposes(plan)) > 0 ==> Count(Log(p) + pubs, Defers(plan)) == 0
  {
    hide Count, Open, Backed, AnsweredFrom;
    HeadCounted(p.queue, plan);
    QueueInLog(p, plan);
    OpenIsBacked(p, plan);
    CountTurns(p.queue, pubs, Proposes(plan));
    CountTurns(p.queue, pubs, Defers(plan));
    CountConcat(Log(p), pubs, Decides(plan));
    CountConcat(Log(p), pubs, Defers(plan));
    if Count(pubs, Decides(plan)) > 0 {
      if Proposes(plan)(p.queue[0]) { NoneDeferred(Log(p), plan); } else { SettlingAnswers(p, plan); }
    }
    DecisionStands(Log(p), pubs, plan, p.ticks, p.ticks + 1);
  }

  lemma NoneDeferred(log: seq<Payload>, plan: Id)
    requires Count(log, Defers(plan)) == 0
    ensures forall i: nat :: i < |log| ==> !Defers(plan)(log[i])
  {
    hide Count;
    forall i: nat | i < |log| ensures !Defers(plan)(log[i]) {
      if Defers(plan)(log[i]) { CountedAt(log, Defers(plan), i); }
    }
  }

  lemma DeliveringKeepsOneChance(v: Setting, p: Point, e: Event, plan: Id)
    requires p.queue != [] && HeadIs(p, e) && Decided(p, plan) && !p.replaying
    ensures Decided(Moved(v, p, e), plan)
  {
    hide G.Step, X.Step, T.Step, M.Step, P.Step, W.Step, Publications, Count, Open, Accountable, Backed, OneDecision,
         PlanLife.ItemIn;
    var pubs, p' := Publications(v, p.o, e, p.ticks), Moved(v, p, e);
    DeliveringStaysAccountable(v, p, e);
    BackingGrows(v, p, p', e);
    PublicationsSpend(v, p.o, e, p.ticks, plan);
    PublicationsAct(v, p.o, e, p.ticks, plan);
    WorthIsAnItem(e.body, plan);
    LogTurns(p);
    assert Log(p') == Log(p) + pubs;
    DeliveredDecision(p, pubs, plan, p'.o.governor.pendingEscalations);
  }

  lemma WorthIsAnItem(p: Payload, plan: Id)
    ensures Worth(p, plan) > 0 ==> PlanLife.ItemIn(p, plan).Some?
  {
  }

  // ---------------------------------------------------------------- a replayed one

  lemma SettledIsGone(v: G.Env, s: G.GState, e: Event, tick: nat)
    requires Settles(e.body)
    ensures e.body.g.escalationId !in G.Step(v, s, e, tick).state.pendingEscalations
  {
    hide By;
  }

  /** Whatever a decided plan has pending after this event is answered by one of those that follow. */
  lemma StillAnswered(v: Setting, p: Point, e: Event, plan: Id, id: Id)
    requires p.queue != [] && HeadIs(p, e) && p.replaying && OneChance(p, plan)
    requires OneDecision(Log(p), plan, p.ticks) && Count(Log(p), Decides(plan)) > 0
    requires id in Open(G.Step(v.governor, p.o.governor, e, p.ticks).state.pendingEscalations, plan)
    ensures AnsweredFrom(p.queue[1..], 0, id)
  {
    hide G.Step, Count, By;
    var log, pending' := Log(p), G.Step(v.governor, p.o.governor, e, p.ticks).state.pendingEscalations;
    GovernorEscalates(v.governor, p.o.governor, e, p.ticks);
    if id in p.o.governor.pendingEscalations && pending'[id] == p.o.governor.pendingEscalations[id] {
      assert id in Open(p.o.governor.pendingEscalations, plan);
      var j: nat :| 0 <= j < |p.queue| && Settles(p.queue[j]) && p.queue[j].g.escalationId == id;
      if j == 0 { SettledIsGone(v.governor, p.o.governor, e, p.ticks); }
      assert p.queue[1..][j - 1] == p.queue[j];
    } else {
      assert log[|p.past|] == e.body && Defers(plan)(log[|p.past|]);
      var j: nat :| |p.past| + 1 <= j < |log| && Settles(log[j]) && log[j].g.escalationId == id;
      assert p.queue[1..][j - |p.past| - 1] == log[j];
    }
  }

  lemma HearingKeepsOneChance(v: Setting, p: Point, e: Event, plan: Id)
    requires p.queue != [] && HeadIs(p, e) && Decided(p, plan) && p.replaying
    ensures Decided(Heard(v, p, e), plan)
  {
    hide G.Step, X.Step, T.Step, M.Step, P.Step, W.Step, Publications, Count, Open, Accountable, Backed, AnsweredFrom;
    var p' := Heard(v, p, e);
    HearingStaysAccountable(v, p, e);
    BackingGrows(v, p, p', e);
    LogTurns(p);
    assert Log(p') == Log(p);
    var open := Open(p'.o.governor.pendingEscalations, plan);
    if Count(Log(p), Decides(plan)) > 0 {
      forall id | id in open ensures AnsweredFrom(p'.queue, 0, id) { StillAnswered(v, p, e, plan, id); }
    }
    if !p'.replaying {
      assert p'.queue == [];
      CountNone(p'.queue, Proposes(plan));
      CountNone(p'.queue, Defers(plan));
      OpenIsBacked(p', plan);
      if Count(Log(p), Decides(plan)) > 0 { NothingUnanswered(open); }
    }
  }

  lemma NothingUnanswered(open: set<Id>)
    requires forall id <- open :: AnsweredFrom([], 0, id)
    ensures open == {}
  {
    assert forall id :: !AnsweredFrom([], 0, id);
  }

  // ---------------------------------------------------------------- over whole runs

  lemma EnteringKeepsOneChance(p: Point, body: Payload, plan: Id)
    requires Decided(p, plan) && Outside(p.o, body) && !p.replaying
    ensures Decided(Entered(p, body), plan)
  {
    hide Count, Open, Accountable, AnsweredFrom;
    EnteringStaysAccountable(p, body);
    CountSnoc(p.queue, body, Proposes(plan));
    CountSnoc(p.queue, body, Defers(plan));
    CountSnoc(Log(p), body, Decides(plan));
    CountSnoc(Log(p), body, Defers(plan));
    CountOne(body, Proposes(plan));
    CountOne(body, Decides(plan));
    CountOne(body, Defers(plan));
    assert Log(Entered(p, body)) == Log(p) + [body];
    DecisionStands(Log(p), [body], plan, p.ticks, p.ticks);
  }

  lemma DroppingKeepsOneChance(p: Point, plan: Id)
    requires Decided(p, plan) && p.queue != [] && !p.replaying
    ensures Decided(Dropped(p), plan)
  {
    hide Count, Open, Accountable, OneDecision, EscalatedFor;
    var p', pending := Dropped(p), p.o.governor.pendingEscalations;
    LosingStaysAccountable(p);
    LogTurns(p);
    assert Log(p') == Log(p);
    CountTurns(p.queue, [], Proposes(plan));
    CountTurns(p.queue, [], Defers(plan));
    CountNone([], Proposes(plan));
    CountNone([], Defers(plan));
    assert p.queue[1..] + [] == p.queue[1..];
    HeadCounted(p.queue, plan);
    forall id | id in pending ensures EscalatedFor(p'.past, id, pending[id].planId) {
      EscalatedForGrows(p.past, [p.queue[0]], id, pending[id].planId);
    }
  }

  lemma RebootingKeepsOneChance(p: Point, plan: Id)
    requires Decided(p, plan)
    ensures Decided(Rebooted(p), plan)
  {
    hide Count, Accountable, OneDecision, AnsweredFrom;
    var p' := Rebooted(p);
    LosingStaysAccountable(p);
    assert Log(p') == Log(p);
    assert Open(p'.o.governor.pendingEscalations, plan) == {};
    if Log(p) == [] {
      CountNone(p'.queue, Proposes(plan));
      CountNone(p'.queue, Defers(plan));
      CountNone(Log(p), Decides(plan));
    }
  }

  /** A log holds no more of anything than a longer one, and what it answers was answered before. */
  lemma OneDecisionSoFar(log: seq<Payload>, more: seq<Payload>, plan: Id, ticks: nat)
    requires OneDecision(log + more, plan, ticks) && forall p <- more :: !Settles(p)
    ensures OneDecision(log, plan, ticks)
  {
    hide Count;
    var all := log + more;
    CountConcat(log, more, Defers(plan));
    CountConcat(log, more, Decides(plan));
    CountConcat(log, more, Proposes(plan));
    if Count(log, Decides(plan)) > 0 {
      forall i: nat | i < |log| && Defers(plan)(log[i]) ensures AnsweredFrom(log, i + 1, log[i].g.escalationId) {
        assert all[i] == log[i];
        assert forall k :: |log| <= k < |all| ==> all[k] == more[k - |log|] && more[k - |log|] in more;
        var j: nat :| i + 1 <= j < |all| && Settles(all[j]) && all[j].g.escalationId == all[i].g.escalationId;
        assert all[j] == log[j];
      }
    }
  }

  lemma TearingKeepsOneChance(v: Setting, p: Point, e: Event, n: nat, plan: Id)
    requires p.queue != [] && HeadIs(p, e) && Decided(p, plan) && !p.replaying
    ensures Decided(Torn(v, p, e, n), plan)
  {
    hide Count, Accountable, OneDecision, AnsweredFrom, Publications, Successor, Backed, OneChance;
    var p', pubs := Torn(v, p, e, n), Publications(v, p.o, e, p.ticks);
    var logged := Taken(pubs, n);
    TearingStaysAccountable(v, p, e, n);
    DeliveringKeepsOneChance(v, p, e, plan);
    LogTurns(p);
    assert Log(Moved(v, p, e)) == Log(p) + pubs == Log(p) + logged + pubs[|logged|..];
    PublishedEscalations(v, p.o, e, p.ticks);
    OneDecisionSoFar(Log(p) + logged, pubs[|logged|..], plan, p.ticks + 1);
    assert Log(p') == Log(p) + logged;
    BootsWithOneChance(p', plan);
  }

  lemma BootsWithOneChance(p: Point, plan: Id)
    requires p.o == Organism.Initial() && p.past == [] && p.replaying
    ensures Backed(p) && OneChance(p, plan)
  {
    hide Count, AnsweredFrom;
    assert Open(p.o.governor.pendingEscalations, plan) == {};
  }

  lemma ConfiguringKeepsOneChance(p: Point, o: OState, plan: Id)
    requires Decided(p, plan) && Reconfigures(p.o, o)
    ensures Decided(Configured(p, o), plan)
  {
    hide Count, Open, Accountable, OneDecision, EscalatedFor, AnsweredFrom;
    ConfiguringStaysAccountable(p, o);
    assert Log(Configured(p, o)) == Log(p);
  }

  lemma StepKeepsOneChance(v: Setting, p: Point, move: Move, e: Event, plan: Id)
    requires Decided(p, plan) && Possible(p, move) && HeadIs(p, e)
    ensures Decided(Stepped(v, p, move, e), plan)
  {
    hide Decided, Moved, Heard, Torn, Outside, Reconfigures;
    match move
    case Enter(body, _) => EnteringKeepsOneChance(p, body, plan);
    case Next => DeliveringKeepsOneChance(v, p, e, plan);
    case Drop => DroppingKeepsOneChance(p, plan);
    case Reboot => RebootingKeepsOneChance(p, plan);
    case Tear(n) => TearingKeepsOneChance(v, p, e, n, plan);
    case Hear => HearingKeepsOneChance(v, p, e, plan);
    case Configure(o) => ConfiguringKeepsOneChance(p, o, plan);
  }

  lemma NoChanceYet(plan: Id)
    ensures Decided(Birth(), plan)
  {
    NothingToAccountFor();
    assert Open(Birth().o.governor.pendingEscalations, plan) == {};
  }

  lemma RunsKeepOneChance(v: Setting, moves: seq<Move>, plan: Id)
    requires Legal(v, moves)
    ensures Decided(Here(v, moves), plan)
  {
    hide Reached, Legal, Loses, Decided, Possible, Affords, Stepped;
    var inv := (p: Point) => Decided(p, plan);
    NoChanceYet(plan);
    forall p, move, e: Event | inv(p) && Possible(p, move) && HeadIs(p, e)
      ensures inv(Stepped(v, p, move, e)) {
      StepKeepsOneChance(v, p, move, e, plan);
    }
    LosesAnything(v, moves);
    RunsKeep(v, moves, AnyLoss, inv);
  }

  /**
   In every run, across shutdowns and restarts: the log holds at most one escalation of any plan and at most
   one decision on it; and while a live process still has its proposal or its escalation queued, or holds it
   open, it holds none.
   */
  lemma OneDecisionPerPlan(v: Setting, moves: seq<Move>, plan: Id)
    requires Legal(v, moves)
    ensures var p := Here(v, moves);
            && Count(Log(p), Decides(plan)) <= 1 && Count(Log(p), Defers(plan)) <= 1
            && (!p.replaying && (Count(p.queue, Proposes(plan)) > 0 || Count(p.queue, Defers(plan)) > 0
                                 || Open(p.o.governor.pendingEscalations, plan) != {})
                ==> Count(Log(p), Decides(plan)) == 0)
  {
    hide Here, Legal, Count, Open, Accountable, Backed, AnsweredFrom;
    RunsKeepOneChance(v, moves, plan);
  }
}
