/** What the owner decides: amendments and escalations, told from the events. */
module OwnerDecisions {
  import opened Prelude
  import opened Ordering
  import opened Events
  import opened Rules
  import opened GovernorModel
  import opened GovernorTheorems

  // ---------------------------------------------------------------- what the events say is pending

  predicate AboutAmendment(p: Payload, id: Id) {
    p.OfGovernor? && (p.g.AmendmentProposed? || p.g.ConstitutionAmended? || p.g.AmendmentRejected?) && p.g.amendmentId == id
  }

  /** What a proposal proposes. */
  function Proposed(e: Event): Option<Constitution> {
    match e.body
    case OfGovernor(AmendmentProposed(_, id, _, version, rules, _)) => Some(Constitution(id, version, rules, e.time))
    case _ => None
  }

  /** An amendment is pending when the last event about it is its proposal. */
  function PendingAmendment(s: GState, events: seq<Event>, id: Id): Option<Constitution> {
    if events == [] then Lookup(s.pendingAmendments, id)
    else
      var e := events[|events| - 1];
      if AboutAmendment(e.body, id) then Proposed(e) else PendingAmendment(s, events[..|events| - 1], id)
  }

  /** The constitutions approved while they were pending, in order. */
  function Adopted(s: GState, events: seq<Event>): seq<Constitution> {
    if events == [] then []
    else
      var before, e := events[..|events| - 1], events[|events| - 1];
      Adopted(s, before) + match e.body
                           case OfGovernor(ConstitutionAmended(id, _, _, _)) =>
                             (match PendingAmendment(s, before, id) case None => [] case Some(c) => [c])
                           case _ => []
  }

  /** What is asked of the owner under an escalation. */
  datatype Question = Question(planId: Id, actions: seq<string>)

  predicate AboutEscalation(p: Payload, id: Id) {
    p.OfGovernor? && (p.g.EscalationCreated? || p.g.EscalationResolved?) && p.g.escalationId == id
  }

  function Asked(p: Payload): Option<Question> {
    match p
    case OfGovernor(EscalationCreated(_, planId, _, actions)) => Some(Question(planId, actions))
    case _ => None
  }

  function Held(s: GState, id: Id): Option<Question> {
    match Lookup(s.pendingEscalations, id)
    case None => None
    case Some(x) => Some(Question(x.planId, x.actions))
  }

  /** An escalation is pending when the last event about it is its creation. */
  function PendingEscalation(s: GState, events: seq<Event>, id: Id): Option<Question> {
    if events == [] then Held(s, id)
    else
      var e := events[|events| - 1];
      if AboutEscalation(e.body, id) then Asked(e.body) else PendingEscalation(s, events[..|events| - 1], id)
  }

  // ---------------------------------------------------------------- the stores say the same

  predicate Untouched(s: GState, s': GState) {
    && s'.constitutions == s.constitutions && s'.pendingAmendments == s.pendingAmendments && s'.amendments == s.amendments
    && s'.pendingEscalations == s.pendingEscalations && s'.escalations == s.escalations
  }

  lemma NarrowChanges(s: GState, s': GState)
    ensures OnlyDecides(s, s') ==> Untouched(s, s')
    ensures OnlyRecordsResearch(s, s') ==> Untouched(s, s')
    ensures s' == s.(playbooks := s'.playbooks, antiPatterns := s'.antiPatterns) ==> Untouched(s, s')
  {
  }

  lemma OthersLeaveOwnership(env: Env, s: GState, e: Event, tick: nat)
    requires !e.body.OfGovernor?
    ensures Untouched(s, Step(env, s, e, tick).state)
  {
    hide OnPlanProposed, OnResearchSpendRequested, OnRevisionCompleted, OnGovernance, By, OnlyDecides, OnlyRecordsResearch;
    NarrowChanges(s, Step(env, s, e, tick).state);
  }

  lemma GovernanceAmends(env: Env, s: GState, g: GovernorEvent, time: real, tick: nat, id: Id)
    ensures Lookup(OnGovernance(env, s, g, time, tick).state.pendingAmendments, id)
         == if AboutAmendment(OfGovernor(g), id) then Proposed(Event(OfGovernor(g), Minting(0), time)) else Lookup(s.pendingAmendments, id)
  {
    hide FirstAmendment, By, OnlyGoverns, OnEscalationResolved, OnEscalationCreated, OnAmendmentProposed, OnAmendmentApproved, OnAmendmentRejected;
    if g.AmendmentProposed? || g.ConstitutionAmended? || g.AmendmentRejected? { AmendingAmends(s, g, time, id); }
    if g.EscalationCreated? || g.EscalationResolved? { EscalatingAmendsNothing(env, s, g, time, tick); }
  }

  lemma AmendingAmends(s: GState, g: GovernorEvent, time: real, id: Id)
    ensures g.AmendmentProposed? ==>
              (Lookup(OnAmendmentProposed(s, g, time).state.pendingAmendments, id)
               == if g.amendmentId == id then Some(Constitution(g.constitutionId, g.version, g.rules, time)) else Lookup(s.pendingAmendments, id))
    ensures g.ConstitutionAmended? ==>
              (Lookup(OnAmendmentApproved(s, g, time).state.pendingAmendments, id)
               == if g.amendmentId == id then None else Lookup(s.pendingAmendments, id))
    ensures g.AmendmentRejected? ==>
              (Lookup(OnAmendmentRejected(s, g, time).state.pendingAmendments, id)
               == if g.amendmentId == id then None else Lookup(s.pendingAmendments, id))
  {
    hide FirstAmendment;
  }

  lemma EscalatingAmendsNothing(env: Env, s: GState, g: GovernorEvent, time: real, tick: nat)
    ensures g.EscalationCreated? ==> OnEscalationCreated(s, g, time).state.pendingAmendments == s.pendingAmendments
    ensures g.EscalationResolved? ==> OnEscalationResolved(env, s, g, time, tick).state.pendingAmendments == s.pendingAmendments
  {
    hide By;
  }

  lemma GovernanceEscalates(env: Env, s: GState, g: GovernorEvent, time: real, tick: nat, id: Id)
    ensures Held(OnGovernance(env, s, g, time, tick).state, id)
         == if AboutEscalation(OfGovernor(g), id) then Asked(OfGovernor(g)) else Held(s, id)
  {
    hide FirstAmendment, By, OnlyGoverns;
  }

  lemma AmendmentStep(env: Env, s: GState, e: Event, tick: nat, id: Id)
    ensures Lookup(Step(env, s, e, tick).state.pendingAmendments, id)
         == if AboutAmendment(e.body, id) then Proposed(e) else Lookup(s.pendingAmendments, id)
  {
    hide OnPlanProposed, OnResearchSpendRequested, OnRevisionCompleted, OnGovernance, By;
    if e.body.OfGovernor? { GovernanceAmends(env, s, e.body.g, e.time, tick, id); } else { OthersLeaveOwnership(env, s, e, tick); }
  }

  lemma ConstitutionStep(env: Env, s: GState, e: Event, tick: nat)
    ensures Step(env, s, e, tick).state.constitutions
         == s.constitutions + match e.body
                              case OfGovernor(ConstitutionAmended(id, _, _, _)) =>
                                (match Lookup(s.pendingAmendments, id) case None => [] case Some(c) => [c])
                              case _ => []
  {
    hide OnPlanProposed, OnResearchSpendRequested, OnRevisionCompleted, Approve, Deny, FirstAmendment, By;
    assert s.constitutions + [] == s.constitutions;
    if !e.body.OfGovernor? { OthersLeaveOwnership(env, s, e, tick); }
  }

  lemma EscalationStep(env: Env, s: GState, e: Event, tick: nat, id: Id)
    ensures Held(Step(env, s, e, tick).state, id) == if AboutEscalation(e.body, id) then Asked(e.body) else Held(s, id)
  {
    hide OnPlanProposed, OnResearchSpendRequested, OnRevisionCompleted, OnGovernance, By;
    if e.body.OfGovernor? { GovernanceEscalates(env, s, e.body.g, e.time, tick, id); } else { OthersLeaveOwnership(env, s, e, tick); }
  }

  /**
   Over any events: an amendment is pending exactly when the last event about it proposed it, with the constitution it
   proposed; and the constitutions are those there were, followed by each one approved while it was pending. So an approved
   amendment is the constitution in force, and a rejected one never is.
   */
  lemma {:induction false} AmendmentsAreAdopted(env: Env, s: GState, events: seq<Event>, tick: nat, id: Id)
    ensures var s' := Govern(env, s, events, tick);
            && Lookup(s'.pendingAmendments, id) == PendingAmendment(s, events, id)
            && s'.constitutions == s.constitutions + Adopted(s, events)
  {
    hide Step;
    if events == [] {
      assert s.constitutions + [] == s.constitutions;
    } else {
      var n := |events| - 1;
      var before, e := Govern(env, s, events[..n], tick), events[n];
      AmendmentsAreAdopted(env, s, events[..n], tick, id);
      AmendmentStep(env, before, e, tick + n, id);
      ConstitutionStep(env, before, e, tick + n);
      if e.body.OfGovernor? && e.body.g.ConstitutionAmended? {
        AmendmentsAreAdopted(env, s, events[..n], tick, e.body.g.amendmentId);
      }
    }
  }

  /** An escalation is pending exactly when the last event about it created it. */
  lemma {:induction false} EscalationsAreHeld(env: Env, s: GState, events: seq<Event>, tick: nat, id: Id)
    ensures Held(Govern(env, s, events, tick), id) == PendingEscalation(s, events, id)
  {
    hide Step;
    if events != [] {
      var n := |events| - 1;
      EscalationsAreHeld(env, s, events[..n], tick, id);
      EscalationStep(env, Govern(env, s, events[..n], tick), events[n], tick + n, id);
    }
  }

  /** The answer: a grant of the plan that was escalated, with the actions it was escalated with, or a denial of it. */
  predicate AnswersOwner(p: Payload, q: Question, decision: string, reason: string) {
    p.OfGovernor? && (p.g.ApprovalGranted? || p.g.ApprovalDenied?) && p.g.planId == q.planId &&
    if decision == "approved" then p.g.ApprovalGranted? && p.g.actions == q.actions
    else p.g.ApprovalDenied? && p.g.reason == reason
  }

  /**
   After any events, a resolution of an escalation is answered by one event if the escalation is still pending, which grants
   the escalated plan exactly when the owner's word is "approved"; and by nothing if it is not.
   */
  lemma ResolutionsAreAnswered(env: Env, s: GState, events: seq<Event>, tick: nat, e: Event)
    requires e.body.OfGovernor? && e.body.g.EscalationResolved?
    ensures var g, ps := e.body.g, Step(env, Govern(env, s, events, tick), e, tick + |events|).published;
            match PendingEscalation(s, events, g.escalationId)
            case None => ps == []
            case Some(q) => |ps| == 1 && AnswersOwner(ps[0], q, g.decision, g.reason)
  {
    hide OnAmendmentProposed, OnAmendmentApproved, OnAmendmentRejected, Govern, By;
    EscalationsAreHeld(env, s, events, tick, e.body.g.escalationId);
  }
}
