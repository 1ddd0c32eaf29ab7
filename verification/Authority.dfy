/** No plan is granted without authority: what every run's log says about decisions. */
module Authority {
  import opened Prelude
  import opened Events
  import opened Rules
  import opened KernelModel
  import opened Organism
  import opened Runs
  import G = GovernorModel
  import GT = GovernorTheorems
  import T = ExecutorModel
  import X = ExecutiveModel
  import M = MemoryModel
  import P = PerceptionModel
  import W = WorldModelModel

  // ---------------------------------------------------------------- where authority comes from

  predicate GrantsPlan(p: Payload, plan: Id) { GT.Grants(p) && p.g.planId == plan }
  predicate PassesPlan(p: Payload,
        plan: Id) { p.OfGovernor? && p.g.PolicyEvaluated? && p.g.planId == plan && p.g.passed }
  predicate CoversPlan(p: Payload,
        plan: Id) { p.OfGovernor? && p.g.BudgetChecked? && p.g.planId == plan && p.g.sufficient }
  predicate OwnerApproves(p: Payload,
        plan: Id) { p.OfGovernor? && p.g.EscalationResolved? && p.g.planId == plan && p.g.decision == G.APPROVED }

  /** Before position i the plan passed the constitution and then the budget, or its owner approved its escalation. */
  ghost predicate Authorised(log: seq<Payload>, i: nat, plan: Id) {
    || (exists j: nat, k: nat :: j < k < i <= |log| && PassesPlan(log[j], plan) && CoversPlan(log[k], plan))
    || (exists j: nat :: j < i <= |log| && OwnerApproves(log[j], plan))
  }

  ghost predicate TracedAt(log: seq<Payload>, i: nat)
    requires i < |log|
  {
    forall plan :: GrantsPlan(log[i], plan) ==> Authorised(log, i, plan)
  }

  ghost predicate Traced(log: seq<Payload>) {
    forall i: nat :: i < |log| ==> TracedAt(log, i)
  }

  lemma TraceExtends(log: seq<Payload>, more: seq<Payload>, i: nat, plan: Id)
    requires i <= |log|
    ensures Authorised(log, i, plan) ==> Authorised(log + more, i, plan)
  {
    var all := log + more;
    assert forall j :: 0 <= j < i ==> all[j] == log[j];
    if j: nat, k: nat :| j < k < i && PassesPlan(log[j], plan) && CoversPlan(log[k], plan) {
      assert PassesPlan(all[j], plan) && CoversPlan(all[k], plan);
    }
    if j: nat :| j < i && OwnerApproves(log[j], plan) { assert OwnerApproves(all[j], plan); }
  }

  lemma TracedGrows(log: seq<Payload>, more: seq<Payload>)
    requires Traced(log)
    requires forall i: nat :: |log| <= i < |log + more| ==> TracedAt(log + more, i)
    ensures Traced(log + more)
  {
    hide GrantsPlan, Authorised;
    forall i: nat | i < |log| ensures TracedAt(log + more, i) {
      assert TracedAt(log, i) && (log + more)[i] == log[i];
      forall plan ensures Authorised(log, i, plan) ==> Authorised(log + more, i, plan) {
        TraceExtends(log, more, i, plan);
      }
    }
  }

  // ---------------------------------------------------------------- escalations keep their plan

  predicate Creates(p: Payload) { p.OfGovernor? && p.g.EscalationCreated? }
  predicate Settles(p: Payload) { p.OfGovernor? && p.g.EscalationResolved? }

  predicate MintedBefore(id: Id, ticks: nat) { id.Minted? && id.tick < ticks }

  ghost predicate Distinct(log: seq<Payload>) {
    forall i: nat, j: nat :: i < j < |log| && Creates(log[i]) && Creates(log[j]) ==> log[i].g.escalationId != log[j].g.escalationId
  }

  /** Each escalation is created once; whatever is held or resolved under its id is about the plan it was created for. */
  ghost predicate Escalations(log: seq<Payload>, pending: map<Id, G.Escalation>, ticks: nat) {
    && (forall p <- log :: Creates(p) ==> MintedBefore(p.g.escalationId, ticks))
    && Distinct(log)
    && (forall id :: id in pending ==> EscalatedFor(log, id, pending[id].planId))
    && (forall p <- log :: Settles(p) ==> EscalatedFor(log, p.g.escalationId, p.g.planId))
  }

  ghost predicate EscalatedFor(log: seq<Payload>, id: Id, plan: Id) {
    exists p <- log :: Creates(p) && p.g.escalationId == id && p.g.planId == plan
  }

  lemma SamePlan(log: seq<Payload>, id: Id, plan: Id, other: Id)
    requires Distinct(log) && EscalatedFor(log, id, plan) && EscalatedFor(log, id, other)
    ensures plan == other
  {
    var p :| p in log && Creates(p) && p.g.escalationId == id && p.g.planId == plan;
    var q :| q in log && Creates(q) && q.g.escalationId == id && q.g.planId == other;
    var i: nat :| i < |log| && log[i] == p;
    var j: nat :| j < |log| && log[j] == q;
    assert Creates(log[i]) && Creates(log[j]);
  }

  lemma EscalatedForGrows(log: seq<Payload>, more: seq<Payload>, id: Id, plan: Id)
    requires EscalatedFor(log, id, plan)
    ensures EscalatedFor(log + more, id, plan)
  {
    var p :| p in log && Creates(p) && p.g.escalationId == id && p.g.planId == plan;
    assert p in log + more;
  }

  lemma DistinctGrows(log: seq<Payload>, more: seq<Payload>, ticks: nat)
    requires Distinct(log) && Distinct(more)
    requires forall p <- log :: Creates(p) ==> MintedBefore(p.g.escalationId, ticks)
    requires forall p <- more :: Creates(p) ==> !MintedBefore(p.g.escalationId, ticks)
    ensures Distinct(log + more)
  {
    var all, n := log + more, |log|;
    forall i: nat, j: nat | i < j < |all| && Creates(all[i]) && Creates(all[j]) ensures all[i].g.escalationId != all[j].g.escalationId {
      if j < n {
        assert Creates(log[i]) && Creates(log[j]);
      } else if i >= n {
        assert Creates(more[i - n]) && Creates(more[j - n]);
      } else {
        assert log[i] in log && more[j - n] in more;
      }
    }
  }

  /** New entries create only escalations minted just now, and resolve only ones already created. */
  lemma EscalationsGrow(log: seq<Payload>, more: seq<Payload>, pending: map<Id, G.Escalation>, pending': map<Id,
        G.Escalation>, ticks: nat, ticks': nat)
    requires Escalations(log, pending, ticks) && ticks <= ticks' && Distinct(more)
    requires forall p <- more :: Creates(p) ==> MintedBefore(p.g.escalationId, ticks') && !MintedBefore(p.g.escalationId, ticks)
    requires forall p <- more :: Settles(p) ==> EscalatedFor(log, p.g.escalationId, p.g.planId)
    requires forall id :: id in pending' ==> EscalatedFor(log, id, pending'[id].planId)
    ensures Escalations(log + more, pending', ticks')
  {
    DistinctGrows(log, more, ticks);
    hide EscalatedFor, Distinct;
    forall id | id in pending' ensures EscalatedFor(log + more, id, pending'[id].planId) {
      EscalatedForGrows(log, more, id, pending'[id].planId);
    }
    forall p | p in log + more && Settles(p) ensures EscalatedFor(log + more, p.g.escalationId, p.g.planId) {
      assert p in log || p in more;
      EscalatedForGrows(log, more, p.g.escalationId, p.g.planId);
    }
  }

  // ---------------------------------------------------------------- what components publish

  /** A grant the Governor publishes on a plan follows that plan's passed policy and sufficient budget, or settles an escalation. */
  lemma GovernorGrants(v: G.Env, s: G.GState, e: Event, tick: nat, i: nat, plan: Id)
    requires i < |G.Step(v, s, e, tick).published| && GrantsPlan(G.Step(v, s, e, tick).published[i], plan)
    ensures var ps := G.Step(v, s, e, tick).published;
            || (i >= 2 && PassesPlan(ps[0], plan) && CoversPlan(ps[1], plan))
            || (e.body.OfGovernor? && e.body.g.EscalationResolved? && e.body.g.decision == G.APPROVED
                && e.body.g.escalationId in s.pendingEscalations && plan == s.pendingEscalations[e.body.g.escalationId].planId)
  {
    hide G.OnPlanProposed, G.OnResearchSpendRequested, G.OnAmendmentProposed, G.OnAmendmentApproved,
         G.OnAmendmentRejected, By;
    if e.body.OfExecutive? && e.body.x.PlanProposed? {
      PlanGrants(v, s, e.body.x, tick, i, plan);
    } else if e.body.OfExecutive? && e.body.x.ResearchSpendRequested? {
      ResearchGrantsNothing(v, s, e.body.x, tick);
    }
  }

  lemma PlanGrants(v: G.Env, s: G.GState, x: ExecutiveEvent, tick: nat, i: nat, plan: Id)
    requires x.PlanProposed? && i < |G.OnPlanProposed(v, s, x, tick).published| && GrantsPlan(G.OnPlanProposed(v, s, x, tick).published[i], plan)
    ensures var ps := G.OnPlanProposed(v, s, x, tick).published;
            i >= 2 && PassesPlan(ps[0], plan) && CoversPlan(ps[1], plan)
  {
    hide G.OnPlanProposed, GT.EndingOf, GT.Passes, GT.Covered, GT.Vetoed, By;
    var preamble := GT.PlanDecision(v, s, x, tick);
    var ps := G.OnPlanProposed(v, s, x, tick).published;
    BeyondPreamble(ps, preamble, i);
    assert ps[i] == ps[|preamble|..][i - |preamble|];
    assert ps[0] == ps[..|preamble|][0] && ps[1] == ps[..|preamble|][1];
  }

  lemma BeyondPreamble(ps: seq<Payload>, preamble: seq<Payload>, i: nat)
    requires GT.Preambles(preamble) && |preamble| <= |ps| && ps[..|preamble|] == preamble && i < |ps| && GT.Grants(ps[i])
    ensures i >= |preamble|
  {
    forall k | 0 <= k < |preamble| ensures !GT.Grants(ps[k]) {
      assert ps[k] == preamble[k] && preamble[k] in preamble;
    }
  }

  lemma ResearchGrantsNothing(v: G.Env, s: G.GState, x: ExecutiveEvent, tick: nat)
    requires x.ResearchSpendRequested?
    ensures forall p <- G.OnResearchSpendRequested(v, s, x, tick).published :: !GT.Grants(p)
  {
    hide G.Policy, G.ResearchFacts, FindRuleArgs, G.WindowSeconds, By, G.OnlyRecordsResearch;
  }

  ghost predicate NoEscalation(ps: seq<Payload>) {
    forall p <- ps :: !Creates(p) && !Settles(p)
  }

  lemma NoneDistinct(ps: seq<Payload>)
    requires NoEscalation(ps)
    ensures Distinct(ps)
  {
    forall i: nat | i < |ps| ensures !Creates(ps[i]) { assert ps[i] in ps; }
  }

  /** What the Governor's reaction does to escalations. */
  lemma GovernorEscalates(v: G.Env, s: G.GState, e: Event, tick: nat)
    ensures var r := G.Step(v, s, e, tick);
            && Distinct(r.published)
            && (forall p <- r.published :: !Settles(p) && (Creates(p) ==> p.g.escalationId == Minted(tick, Governor, [1])))
            && (forall id :: id in r.state.pendingEscalations ==>
                  || (id in s.pendingEscalations && r.state.pendingEscalations[id] == s.pendingEscalations[id])
                  || (Creates(e.body) && e.body.g.escalationId == id && r.state.pendingEscalations[id].planId == e.body.g.planId))
  {
    hide G.OnPlanProposed, G.OnResearchSpendRequested, G.OnGovernance, G.OnRevisionCompleted, By;
    if e.body.OfExecutive? && e.body.x.PlanProposed? {
      PlanEscalates(v, s, e.body.x, tick);
    } else if e.body.OfExecutive? && e.body.x.ResearchSpendRequested? {
      ResearchEscalatesNothing(v, s, e.body.x, tick);
      NoneDistinct(G.OnResearchSpendRequested(v, s, e.body.x, tick).published);
    } else if e.body.OfGovernor? {
      GovernanceEscalates(v, s, e.body.g, e.time, tick);
    }
  }

  lemma GovernanceEscalates(v: G.Env, s: G.GState, g: GovernorEvent, time: real, tick: nat)
    ensures var r := G.OnGovernance(v, s, g, time, tick);
            && Distinct(r.published) && (forall p <- r.published :: !Settles(p) && !Creates(p))
            && (forall id :: id in r.state.pendingEscalations ==>
                  || (id in s.pendingEscalations && r.state.pendingEscalations[id] == s.pendingEscalations[id])
                  || (g.EscalationCreated? && g.escalationId == id && r.state.pendingEscalations[id].planId == g.planId))
  {
    hide G.OnAmendmentProposed, G.OnAmendmentApproved, G.OnAmendmentRejected, By;
    AmendingLeavesEscalations(s, g, time);
  }

  lemma AmendingLeavesEscalations(s: G.GState, g: GovernorEvent, time: real)
    ensures g.AmendmentProposed? ==> G.OnAmendmentProposed(s, g, time).state.pendingEscalations == s.pendingEscalations && G.OnAmendmentProposed(s, g, time).published == []
    ensures g.ConstitutionAmended? ==> G.OnAmendmentApproved(s, g, time).state.pendingEscalations == s.pendingEscalations && G.OnAmendmentApproved(s, g, time).published == []
    ensures g.AmendmentRejected? ==> G.OnAmendmentRejected(s, g, time).state.pendingEscalations == s.pendingEscalations && G.OnAmendmentRejected(s, g, time).published == []
  {
  }

  lemma PlanEscalates(v: G.Env, s: G.GState, x: ExecutiveEvent, tick: nat)
    requires x.PlanProposed?
    ensures var r := G.OnPlanProposed(v, s, x, tick);
            && Distinct(r.published)
            && (forall p <- r.published :: !Settles(p) && (Creates(p) ==> p.g.escalationId == Minted(tick, Governor, [1])))
            && r.state.pendingEscalations == s.pendingEscalations
  {
    hide G.CheckBudget, G.Policy, By;
    if s.constitutions != [] && s.activeBudget.Some? {
      DecidingEscalatesNothing(v, s, x, tick);
      NoneDistinct(G.OnPlanProposed(v, s, x, tick).published);
    }
  }

  lemma DecidingEscalatesNothing(v: G.Env, s: G.GState, x: ExecutiveEvent, tick: nat)
    requires x.PlanProposed? && s.constitutions != [] && s.activeBudget.Some?
    ensures NoEscalation(G.OnPlanProposed(v, s, x, tick).published)
  {
    hide G.OnPlanProposed, GT.Passes, GT.Covered, GT.Vetoed, By, G.Policy, GT.Ends, GT.PlanVerdict;
    var preamble := GT.PlanDecision(v, s, x, tick);
    var ps := G.OnPlanProposed(v, s, x, tick).published;
    EndingEscalatesNothing(ps[|preamble|..], GT.EndingOf(v, s, x), x.planId, x.actions);
    assert ps == preamble + ps[|preamble|..];
  }

  lemma EndingEscalatesNothing(tail: seq<Payload>, ending: GT.Ending, plan: Id, actions: seq<string>)
    requires GT.Ends(tail, ending, plan, actions) && !ending.Escalated?
    ensures NoEscalation(tail)
  {
  }

  lemma ResearchEscalatesNothing(v: G.Env, s: G.GState, x: ExecutiveEvent, tick: nat)
    requires x.ResearchSpendRequested?
    ensures NoEscalation(G.OnResearchSpendRequested(v, s, x, tick).published)
  {
    hide G.Policy, G.ResearchFacts, FindRuleArgs, G.WindowSeconds, By, G.OnlyRecordsResearch;
  }

  // ---------------------------------------------------------------- over whole runs

  ghost predicate Accountable(p: Point) {
    Traced(Log(p)) && Escalations(Log(p), p.o.governor.pendingEscalations, p.ticks)
  }

  /** The Governor's publications stand together among all the publications of a delivery. */
  lemma GovernorsPart(v: Setting, o: OState, e: Event, tick: nat) returns (before: seq<Payload>, after: seq<Payload>)
    ensures Publications(v, o, e, tick) == before + G.Step(v.governor, o.governor, e, tick).published + after
    ensures forall p <- before + after :: !p.OfGovernor?
    ensures forall p <- G.Step(v.governor, o.governor, e, tick).published :: p.OfGovernor?
  {
    hide P.Step, W.Step, X.Step, G.Step, T.Step, M.Step;
    EachPublishesItsOwn(v, o, e, tick);
    before := P.Step(o.perception, e).published + W.Step(o.worldModel, e).published + X.Step(Text(v), o.executive, e, tick).published;
    after := T.Step(Text(v), v.behaviour, o.executor, e, tick).published + M.Step(Text(v), o.memory, e, tick).published;
    assert Publications(v, o, e, tick) == before + G.Step(v.governor, o.governor, e, tick).published + after;
  }

  /** Position k among the publications, if the Governor's, is position k - |before| among its own. */
  lemma Position(before: seq<Payload>, own: seq<Payload>, after: seq<Payload>, k: nat)
    requires (forall p <- before + after :: !p.OfGovernor?) && k < |before + own + after|
    ensures (before + own + after)[k].OfGovernor? ==> |before| <= k < |before| + |own| && (before + own + after)[k] == own[k - |before|]
    ensures !(before + own + after)[k].OfGovernor? && (forall p <- own :: p.OfGovernor?) ==> (before + own + after)[k] in before + after
  {
    var all := before + own + after;
    if k < |before| {
      assert all[k] == before[k] && before[k] in before + after;
    } else if k >= |before| + |own| {
      assert all[k] == after[k - |before| - |own|] && after[k - |before| - |own|] in before + after;
    } else {
      assert all[k] == own[k - |before|] && own[k - |before|] in own;
    }
  }

  lemma NewEntryTraced(v: Setting, p: Point, e: Event, i: nat)
    requires p.queue != [] && HeadIs(p, e) && Accountable(p)
    requires |Log(p)| <= i < |Log(p) + Publications(v, p.o, e, p.ticks)|
    ensures TracedAt(Log(p) + Publications(v, p.o, e, p.ticks), i)
  {
    hide G.Step, T.Step, Publications, Traced, Escalations, By, PassesPlan, CoversPlan, EscalatedFor;
    var before, after := GovernorsPart(v, p.o, e, p.ticks);
    var gs := G.Step(v.governor, p.o.governor, e, p.ticks).published;
    var log, n, pubs := Log(p), |Log(p)|, Publications(v, p.o, e, p.ticks);
    var all, at := log + pubs, |p.past|;
    assert all[i] == pubs[i - n] && all[at] == e.body && at < n;
    Position(before, gs, after, i - n);
    forall plan | GrantsPlan(all[i], plan) ensures Authorised(all, i, plan) {
      var k := i - n - |before|;
      GovernorGrants(v.governor, p.o.governor, e, p.ticks, k, plan);
      if k >= 2 && PassesPlan(gs[0], plan) && CoversPlan(gs[1], plan) {
        assert all[n + |before|] == gs[0] && all[n + |before| + 1] == gs[1];
        assert n + |before| < n + |before| + 1 < i;
      } else {
        SettledPlan(p, e, plan);
        assert OwnerApproves(all[at], plan);
      }
    }
  }

  /** The plan an escalation is settled for is the plan it was created for. */
  lemma SettledPlan(p: Point, e: Event, plan: Id)
    requires p.queue != [] && HeadIs(p, e) && Escalations(Log(p), p.o.governor.pendingEscalations, p.ticks)
    requires e.body.OfGovernor? && e.body.g.EscalationResolved? && e.body.g.escalationId in p.o.governor.pendingEscalations
    requires plan == p.o.governor.pendingEscalations[e.body.g.escalationId].planId
    ensures e.body.g.planId == plan
  {
    hide EscalatedFor, Distinct;
    assert e.body in Log(p) && Settles(e.body);
    SamePlan(Log(p), e.body.g.escalationId, plan, e.body.g.planId);
  }

  lemma DistinctAmongOthers(before: seq<Payload>, own: seq<Payload>, after: seq<Payload>)
    requires Distinct(own) && forall p <- before + after :: !p.OfGovernor?
    ensures Distinct(before + own + after)
  {
    var all := before + own + after;
    forall i: nat, j: nat | i < j < |all| && Creates(all[i]) && Creates(all[j]) ensures all[i].g.escalationId != all[j].g.escalationId {
      Position(before, own, after, i);
      Position(before, own, after, j);
      assert Creates(own[i - |before|]) && Creates(own[j - |before|]);
    }
  }

  lemma DeliveryEscalates(v: Setting, p: Point, e: Event)
    requires p.queue != [] && HeadIs(p, e) && Escalations(Log(p), p.o.governor.pendingEscalations, p.ticks)
    ensures Escalations(Log(p) + Publications(v, p.o, e, p.ticks), G.Step(v.governor, p.o.governor, e, p.ticks).state.pendingEscalations, p.ticks + 1)
  {
    hide G.Step, T.Step, Publications, By, EscalatedFor, Distinct;
    var before, after := GovernorsPart(v, p.o, e, p.ticks);
    var gs, pubs := G.Step(v.governor, p.o.governor, e, p.ticks).published, Publications(v, p.o, e, p.ticks);
    var pending, pending', log := p.o.governor.pendingEscalations, G.Step(v.governor, p.o.governor, e, p.ticks).state.pendingEscalations, Log(p);
    GovernorEscalates(v.governor, p.o.governor, e, p.ticks);
    DistinctAmongOthers(before, gs, after);
    forall q | q in pubs && q.OfGovernor? ensures q in gs {
      assert q in gs || q in before + after;
    }
    forall id | id in pending' ensures EscalatedFor(log, id, pending'[id].planId) {
      if !(id in pending && pending'[id] == pending[id]) {
        assert e.body in log;
        CreatedFor(log, e.body);
      }
    }
    EscalationsGrow(log, pubs, pending, pending', p.ticks, p.ticks + 1);
  }

  lemma CreatedFor(log: seq<Payload>, p: Payload)
    requires p in log && Creates(p)
    ensures EscalatedFor(log, p.g.escalationId, p.g.planId)
  {
  }

  lemma DeliveringStaysAccountable(v: Setting, p: Point, e: Event)
    requires p.queue != [] && HeadIs(p, e) && Accountable(p)
    ensures Accountable(Moved(v, p, e))
  {
    hide G.Step, Publications, TracedAt, Escalations, X.Step, T.Step, M.Step, P.Step, W.Step;
    var pubs := Publications(v, p.o, e, p.ticks);
    forall i: nat | |Log(p)| <= i < |Log(p) + pubs| ensures TracedAt(Log(p) + pubs, i) {
      NewEntryTraced(v, p, e, i);
    }
    TracedGrows(Log(p), pubs);
    DeliveryEscalates(v, p, e);
    assert Log(Moved(v, p, e)) == Log(p) + pubs by { LogTurns(p); }
  }

  /** A replayed event gives the Governor back only escalations the log created. */
  lemma HearingStaysAccountable(v: Setting, p: Point, e: Event)
    requires p.queue != [] && HeadIs(p, e) && Accountable(p)
    ensures Accountable(Heard(v, p, e))
  {
    hide G.Step, Publications, Traced, By, EscalatedFor, Distinct, X.Step, T.Step, M.Step, P.Step, W.Step;
    var log, pending := Log(p), p.o.governor.pendingEscalations;
    var pending' := G.Step(v.governor, p.o.governor, e, p.ticks).state.pendingEscalations;
    LogTurns(p);
    GovernorEscalates(v.governor, p.o.governor, e, p.ticks);
    forall id | id in pending' ensures EscalatedFor(log, id, pending'[id].planId) {
      if !(id in pending && pending'[id] == pending[id]) { CreatedFor(log, e.body); }
    }
    assert Log(Heard(v, p, e)) == log;
  }

  lemma EnteringStaysAccountable(p: Point, body: Payload)
    requires Accountable(p) && Outside(p.o, body)
    ensures Accountable(Entered(p, body))
  {
    hide EscalatedFor, Escalations;
    var log, all, n := Log(p), Log(p) + [body], |Log(p)|;
    assert Log(Entered(p, body)) == all;
    assert all[n] == body;
    TracedGrows(log, [body]);
    EnteringEscalates(p, body);
  }

  lemma EnteringEscalates(p: Point, body: Payload)
    requires Escalations(Log(p), p.o.governor.pendingEscalations, p.ticks) && Outside(p.o, body)
    ensures Escalations(Log(p) + [body], p.o.governor.pendingEscalations, p.ticks)
  {
    hide EscalatedFor;
    assert Distinct([body]);
    EscalationsGrow(Log(p), [body], p.o.governor.pendingEscalations, p.o.governor.pendingEscalations, p.ticks, p.ticks);
  }

  /** Neither a dropped event nor a dead process takes anything out of the log. */
  lemma LosingStaysAccountable(p: Point)
    requires Accountable(p)
    ensures p.queue != [] ==> Accountable(Dropped(p))
    ensures Accountable(Rebooted(p))
  {
    hide Traced, EscalatedFor, Distinct;
    assert Log(Rebooted(p)) == Log(p);
    if p.queue != [] { LogTurns(p); assert Log(Dropped(p)) == Log(p); }
  }

  /** Whatever was logged of a dispatch, what came before it is there. */
  lemma TearingStaysAccountable(v: Setting, p: Point, e: Event, n: nat)
    requires p.queue != [] && HeadIs(p, e) && Accountable(p)
    ensures Accountable(Torn(v, p, e, n))
  {
    hide G.Step, Publications, TracedAt, X.Step, T.Step, M.Step, P.Step, W.Step, EscalatedFor;
    var pubs := Publications(v, p.o, e, p.ticks);
    var logged, full := Taken(pubs, n), Log(p) + pubs;
    forall i: nat | |Log(p)| <= i < |Log(p) + logged| ensures TracedAt(Log(p) + logged, i) {
      NewEntryTraced(v, p, e, i);
      assert full == Log(p) + logged + pubs[|logged|..];
      TracedSoFar(Log(p) + logged, pubs[|logged|..], i);
    }
    TracedGrows(Log(p), logged);
    PublishedEscalations(v, p.o, e, p.ticks);
    DistinctSoFar(pubs, |logged|);
    EscalationsGrow(Log(p), logged, p.o.governor.pendingEscalations, map[], p.ticks, p.ticks + 1);
    assert Log(Torn(v, p, e, n)) == Log(p) + logged;
  }

  /** What traces an entry comes before it. */
  lemma TracedSoFar(log: seq<Payload>, more: seq<Payload>, i: nat)
    requires i < |log| && TracedAt(log + more, i)
    ensures TracedAt(log, i)
  {
    var all := log + more;
    assert forall j :: 0 <= j <= i ==> all[j] == log[j];
    forall plan | GrantsPlan(log[i], plan) ensures Authorised(log, i, plan) {
      if j: nat, k: nat :| j < k < i && PassesPlan(all[j], plan) && CoversPlan(all[k], plan) {
        assert PassesPlan(log[j], plan) && CoversPlan(log[k], plan);
      } else {
        var j: nat :| j < i && OwnerApproves(all[j], plan);
        assert OwnerApproves(log[j], plan);
      }
    }
  }

  lemma DistinctSoFar(ps: seq<Payload>, n: nat)
    requires Distinct(ps) && n <= |ps|
    ensures Distinct(ps[..n])
  {
  }

  /** A delivery creates escalations minted by it, distinct, and resolves none. */
  lemma PublishedEscalations(v: Setting, o: OState, e: Event, tick: nat)
    ensures Distinct(Publications(v, o, e, tick))
    ensures forall q <- Publications(v, o, e, tick) :: !Settles(q) && (Creates(q) ==> q.g.escalationId == Minted(tick, Governor, [1]))
  {
    hide G.Step, T.Step, Publications, By;
    var before, after := GovernorsPart(v, o, e, tick);
    var gs := G.Step(v.governor, o.governor, e, tick).published;
    GovernorEscalates(v.governor, o.governor, e, tick);
    DistinctAmongOthers(before, gs, after);
    forall q | q in Publications(v, o, e, tick) && q.OfGovernor? ensures q in gs {
      assert q in gs || q in before + after;
    }
  }

  lemma StepStaysAccountable(v: Setting, p: Point, move: Move, e: Event)
    requires Accountable(p) && Possible(p, move) && HeadIs(p, e)
    ensures Accountable(Stepped(v, p, move, e))
  {
    hide Accountable, Moved, Heard, Torn, Outside, Reconfigures;
    match move
    case Enter(body, _) => EnteringStaysAccountable(p, body);
    case Next => DeliveringStaysAccountable(v, p, e);
    case Drop => LosingStaysAccountable(p);
    case Reboot => LosingStaysAccountable(p);
    case Tear(n) => TearingStaysAccountable(v, p, e, n);
    case Hear => HearingStaysAccountable(v, p, e);
    case Configure(o) => ConfiguringStaysAccountable(p, o);
  }

  lemma ConfiguringStaysAccountable(p: Point, o: OState)
    requires Accountable(p) && Reconfigures(p.o, o)
    ensures Accountable(Configured(p, o))
  {
    hide Traced, Escalations;
  }

  lemma NothingToAccountFor()
    ensures Accountable(Birth())
  {
  }

  lemma RunsStayAccountable(v: Setting, moves: seq<Move>)
    requires Legal(v, moves)
    ensures Accountable(Here(v, moves))
  {
    hide Reached, Legal, Loses, Accountable, Possible, Affords, Stepped;
    var inv := (p: Point) => Accountable(p);
    NothingToAccountFor();
    forall p, move, e: Event | inv(p) && Possible(p, move) && HeadIs(p, e)
      ensures inv(Stepped(v, p, move, e)) {
      StepStaysAccountable(v, p, move, e);
    }
    LosesAnything(v, moves);
    RunsKeep(v, moves, AnyLoss, inv);
  }

  /**
   In every run, across shutdowns and restarts: every grant in the log comes after that plan passed the constitution and
   then found sufficient budget, or after its owner approved its escalation.
   */
  lemma GrantsAreAuthorised(v: Setting, moves: seq<Move>, i: nat, plan: Id)
    requires Legal(v, moves) && Holds(Log(Here(v, moves)), i, plan)
    ensures Authorised(Log(Here(v, moves)), i, plan)
  {
    hide Reached, Legal, Here, Escalations, Authorised;
    RunsStayAccountable(v, moves);
    assert TracedAt(Log(Here(v, moves)), i);
  }

  /** Entry i of the log grants the plan. */
  predicate Holds(log: seq<Payload>, i: nat, plan: Id) {
    i < |log| && GrantsPlan(log[i], plan)
  }
}
