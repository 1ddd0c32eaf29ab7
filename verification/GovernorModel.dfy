/** The Governor's handlers as functions: state and publications. */
module GovernorModel {
  // A handler that raises in the source stops where it raises: what it did before stands, nothing follows.

  import opened Prelude
  import opened Ordering
  import opened Events
  import opened Rules

  const DEFAULT_RESEARCH_BUDGET_WINDOW_SECONDS := 86400.0
  const ANTI_PATTERN_CONFIDENCE_THRESHOLD := 0.5
  const PLAYBOOK_CONFIDENCE_THRESHOLD := 0.5
  const ANTI_PATTERN := "anti_pattern"
  const APPROVED := "approved"

  datatype Constitution = Constitution(id: Id, version: int, rules: seq<string>, created: real)

  datatype Budget = Budget(id: string, attention: real, capital: real)

  datatype Approval = Approval(id: Id, planId: Id, granted: bool, reason: string)

  datatype AmendmentStatus = IsProposed | IsApproved | IsRejected

  datatype Amendment = Amendment(
    id: Id, constitutionId: Id, previousId: Option<Id>, version: int, rules: seq<string>, justification: string,
    status: AmendmentStatus, proposed: real, decided: Option<real>, decidedBy: Option<string>, reason: Option<string>
  )

  datatype Escalation = Escalation(
    id: Id, planId: Id, reason: string, actions: seq<string>, pending: bool, created: real,
    decision: Option<string>, resolved: Option<real>, resolvedBy: Option<string>
  )

  datatype Knowledge = Knowledge(id: Id, kind: string, summary: string, consensus: real, considered: nat, learned: real)

  datatype Application = Application(id: Id, knowledgeId: Id, kind: string, planId: Id, applied: bool, reason: string)

  datatype Spend = Spend(requestId: string, deliberationId: string, category: string, cost: real, depth: int,
                         approved: bool, reason: string, time: real)

  datatype GState = GState(
    constitutions: seq<Constitution>,
    budgets: map<string, Budget>,
    activeBudget: Option<string>,
    approvals: seq<Approval>,
    amendments: seq<Amendment>,
    pendingAmendments: map<Id, Constitution>,
    escalations: seq<Escalation>,
    pendingEscalations: map<Id, Escalation>,
    playbooks: map<Id, Knowledge>,
    antiPatterns: map<Id, Knowledge>,
    applications: seq<Application>,
    research: seq<Spend>
  )

  function Initial(): GState {
    GState([], map[], None, [], [], map[], [], map[], map[], map[], [], [])
  }

  /** `now(t)` is the clock while deciding in delivery t, `stamp(t)` while recording what was decided. */
  datatype Env = Env(library: Library, text: Notation, now: nat -> real, stamp: nat -> real)

  function After<S>(published: seq<Payload>, r: Reaction<S>): Reaction<S> {
    Reaction(r.state, published + r.published)
  }

  /** `constitution_store.current()` */
  function Current(s: GState): Constitution
    requires s.constitutions != []
  {
    s.constitutions[|s.constitutions| - 1]
  }

  /** The constitution in force, applied. */
  function Policy(env: Env, s: GState, f: Facts): Verdict
    requires s.constitutions != []
  {
    Evaluate(env.library, Current(s).rules, f)
  }

  /** Deciding on plans touches only decisions, budgets and the record of knowledge weighed. */
  predicate OnlyDecides(s: GState, s': GState) {
    s' == s.(approvals := s'.approvals, budgets := s'.budgets, applications := s'.applications)
  }

  // ---------------------------------------------------------------- plans

  function PlanFacts(p: ExecutiveEvent): Facts
    requires p.PlanProposed?
  {
    Facts(Some(p.attention), Some(p.capital), None, None, None)
  }

  function Deny(s: GState, planId: Id, reason: string, tick: nat): (r: Reaction<GState>)
    ensures OnlyDecides(s, r.state) && By(Governor, r.published, 9)
  {
    var id := Minted(tick, Governor, [0]);
    Reaction(s.(approvals := s.approvals + [Approval(id, planId, false, reason)]),
             [OfGovernor(ApprovalDenied(id, planId, reason))])
  }

  function Approve(s: GState, planId: Id, reason: string, actions: seq<string>, tick: nat): (r: Reaction<GState>)
    ensures OnlyDecides(s, r.state) && By(Governor, r.published, 9)
  {
    var id := Minted(tick, Governor, [0]);
    Reaction(s.(approvals := s.approvals + [Approval(id, planId, true, reason)]),
             [OfGovernor(ApprovalGranted(id, planId, reason, actions))])
  }

  function Grant(env: Env, s: GState, budget: Budget, p: ExecutiveEvent, support: seq<string>,
        tick: nat): (r: Reaction<GState>)
    requires p.PlanProposed?
    ensures OnlyDecides(s, r.state) && By(Governor, r.published, 9)
  {
    hide Approve, By;
    var left := Budget(budget.id, budget.attention - p.attention, budget.capital - p.capital);
    Approve(s.(budgets := s.budgets[budget.id := left]), p.planId, env.text.say(WithinPolicyAndBudget(support)), p.actions, tick)
  }

  function RequireApproval(s: GState, p: ExecutiveEvent, reason: string, tick: nat): (r: Reaction<GState>)
    requires p.PlanProposed?
    ensures r.state == s && By(Governor, r.published, 9)
  {
    Reaction(s, [OfGovernor(ApprovalRequired(p.planId, reason)),
                 OfGovernor(EscalationCreated(Minted(tick, Governor, [1]), p.planId, reason, p.actions))])
  }

  /** One piece of knowledge weighed against a plan. */
  datatype Weighing = Weighing(knowledge: Knowledge, applied: bool, reason: string)

  function WeighAntiPattern(n: Notation, k: Knowledge): Weighing {
    if k.consensus >= ANTI_PATTERN_CONFIDENCE_THRESHOLD
    then Weighing(k, true, n.say(Enforced(k.id, k.summary)))
    else Weighing(k, false, n.say(NotEnforced(k.id)))
  }

  function WeighPlaybook(n: Notation, k: Knowledge): Weighing {
    if k.consensus >= PLAYBOOK_CONFIDENCE_THRESHOLD
    then Weighing(k, true, n.say(Supported(k.id, k.summary)))
    else Weighing(k, false, n.say(NotSupported(k.id)))
  }

  /** `sorted(..., key=lambda k: k.knowledge_id)` of a store keyed by knowledge id. */
  ghost function InOrder(m: map<Id, Knowledge>): seq<Knowledge> {
    Project(SortedSet(m.Keys, IdLe), id => Lookup(m, id))
  }

  ghost function AntiPatternWeighings(n: Notation, s: GState): seq<Weighing> {
    var ks := InOrder(s.antiPatterns);
    seq(|ks|, i requires 0 <= i < |ks| => WeighAntiPattern(n, ks[i]))
  }

  ghost function PlaybookWeighings(n: Notation, s: GState): seq<Weighing> {
    var ks := InOrder(s.playbooks);
    seq(|ks|, i requires 0 <= i < |ks| => WeighPlaybook(n, ks[i]))
  }

  function AppliedReason(w: Weighing): Option<string> {
    if w.applied then Some(w.reason) else None
  }

  function Record(w: Weighing, planId: Id, tick: nat, i: nat): Application {
    Application(Minted(tick, Governor, [2, i]), w.knowledge.id, w.knowledge.kind, planId, w.applied, w.reason)
  }

  function Notice(w: Weighing, planId: Id, tick: nat, i: nat): Payload {
    var k := w.knowledge;
    var id := Minted(tick, Governor, [2, i]);
    OfGovernor(if w.applied
               then KnowledgeApplied(id, k.id, k.kind, planId, if k.kind == ANTI_PATTERN then "deny" else "support", w.reason)
               else KnowledgeIgnored(id, k.id, k.kind, planId, w.reason))
  }

  function Records(ws: seq<Weighing>, planId: Id, tick: nat): (r: seq<Application>)
    ensures |r| == |ws|
  {
    seq(|ws|, i requires 0 <= i < |ws| => Record(ws[i], planId, tick, i))
  }

  function Notices(ws: seq<Weighing>, planId: Id, tick: nat): (r: seq<Payload>)
    ensures |r| == |ws|
    ensures forall p <- r :: p.OfGovernor? && (p.g.KnowledgeApplied? || p.g.KnowledgeIgnored?)
    ensures By(Governor, r, 9)
  {
    seq(|ws|, i requires 0 <= i < |ws| => Notice(ws[i], planId, tick, i))
  }

  /** The first applied anti-pattern vetoes; the applied playbooks only lend their reasons. */
  ghost function Rule(env: Env, s: GState, p: ExecutiveEvent, budget: Budget, tick: nat): (r: Reaction<GState>)
    requires p.PlanProposed?
    ensures OnlyDecides(s, r.state) && By(Governor, r.published, 9)
  {
    hide Deny, Grant, By, Project, AntiPatternWeighings, PlaybookWeighings;
    var vetoes := Project(AntiPatternWeighings(env.text, s), AppliedReason);
    if vetoes != [] then Deny(s, p.planId, vetoes[0], tick)
    else Grant(env, s, budget, p, Project(PlaybookWeighings(env.text, s), AppliedReason), tick)
  }

  /** Everything the Governor has learned is weighed, and the weighing recorded and announced, before it rules. */
  ghost function Advise(env: Env, s: GState, p: ExecutiveEvent, budget: Budget, tick: nat): (r: Reaction<GState>)
    requires p.PlanProposed?
    ensures OnlyDecides(s, r.state) && By(Governor, r.published, 9)
  {
    hide Rule, By, Records, Notices, AntiPatternWeighings, PlaybookWeighings;
    var ws := AntiPatternWeighings(env.text, s) + PlaybookWeighings(env.text, s);
    var ruled := Rule(env, s.(applications := s.applications + Records(ws, p.planId, tick)), p, budget, tick);
    ByBoth(Governor, Notices(ws, p.planId, tick), ruled.published, 9);
    After(Notices(ws, p.planId, tick), ruled)
  }

  predicate AttentionOk(budget: Budget, p: ExecutiveEvent)
    requires p.PlanProposed?
  {
    p.attention <= budget.attention
  }

  predicate CapitalOk(budget: Budget, p: ExecutiveEvent)
    requires p.PlanProposed?
  {
    p.capital <= budget.capital
  }

  function Checked(budget: Budget, p: ExecutiveEvent): (r: seq<Payload>)
    requires p.PlanProposed?
    ensures By(Governor, r, 9)
  {
    [OfGovernor(BudgetChecked(p.planId, budget.id, p.attention, budget.attention, p.capital, budget.capital,
                              AttentionOk(budget, p) && CapitalOk(budget, p)))]
  }

  ghost function CheckBudget(env: Env, s: GState, p: ExecutiveEvent, tick: nat): (r: Reaction<GState>)
    requires p.PlanProposed? && s.activeBudget.Some?
    ensures OnlyDecides(s, r.state) && By(Governor, r.published, 9)
  {
    hide Advise, Deny, By, Checked;
    if s.activeBudget.value !in s.budgets then ByNone(Governor, 9); Reaction(s, [])  // KeyError
    else
      var budget := s.budgets[s.activeBudget.value];
      var decided := if AttentionOk(budget, p) && CapitalOk(budget, p) then Advise(env, s, p, budget, tick)
                     else Deny(s, p.planId, env.text.say(Shortfall(AttentionOk(budget, p), CapitalOk(budget, p))), tick);
      ByBoth(Governor, Checked(budget, p), decided.published, 9);
      After(Checked(budget, p), decided)
  }

  function Evaluated(constitution: Constitution, p: ExecutiveEvent, passed: bool, reason: string): (r: seq<Payload>)
    requires p.PlanProposed?
    ensures By(Governor, r, 9)
  {
    [OfGovernor(PolicyEvaluated(p.planId, constitution.id, passed, reason))]
  }

  ghost function OnPlanProposed(env: Env, s: GState, p: ExecutiveEvent, tick: nat): (r: Reaction<GState>)
    requires p.PlanProposed?
    ensures OnlyDecides(s, r.state) && By(Governor, r.published, 9)
  {
    hide CheckBudget, Policy, Deny, RequireApproval, By, Evaluated;
    if s.constitutions == [] then RequireApproval(s, p, env.text.say(NoConstitution), tick)
    else if s.activeBudget.None? then RequireApproval(s, p, env.text.say(NoBudget), tick)
    else
      match Policy(env, s, PlanFacts(p))
      case Raises => ByNone(Governor, 9); Reaction(s, [])
      case Verdict(passed, reason) =>
        var evaluated := Evaluated(Current(s), p, passed, reason);
        var decided := if passed then CheckBudget(env, s, p, tick) else Deny(s, p.planId, reason, tick);
        ByBoth(Governor, evaluated, decided.published, 9);
        After(evaluated, decided)
  }

  // ---------------------------------------------------------------- research spending

  /** At most one record is added, and nothing else changes. */
  predicate OnlyRecordsResearch(s: GState, s': GState) {
    s' == s.(research := s'.research) && |s.research| <= |s'.research| <= |s.research| + 1 && s.research <= s'.research
  }

  function DecideResearch(s: GState, x: ExecutiveEvent, approved: bool, reason: string,
        time: real): (r: Reaction<GState>)
    requires x.ResearchSpendRequested?
    ensures OnlyRecordsResearch(s, r.state) && By(Governor, r.published, 16)
  {
    Reaction(s.(research := s.research + [Spend(x.requestId, x.deliberationId, x.category, x.cost, x.depth, approved, reason, time)]),
             [OfGovernor(if approved then ResearchSpendApproved(x.requestId, x.deliberationId, x.category, x.cost, reason)
                         else ResearchSpendDenied(x.requestId, x.deliberationId, x.category, reason))])
  }

  /** `None` is the ValueError of a malformed window. */
  function WindowSeconds(n: Notation, args: seq<string>): Option<real> {
    if |args| > 1 then n.parseReal(args[1]) else Some(DEFAULT_RESEARCH_BUDGET_WINDOW_SECONDS)
  }

  function CostOf(r: Spend): real { r.cost }

  function ApprovedSince(research: seq<Spend>, cutoff: real): seq<Spend> {
    Filter(research, (r: Spend) => r.approved && r.time >= cutoff)
  }

  function ForDeliberation(research: seq<Spend>, deliberationId: string): seq<Spend> {
    Filter(research, (r: Spend) => r.deliberationId == deliberationId)
  }

  function ResearchFacts(s: GState, x: ExecutiveEvent, cutoff: real): Facts
    requires x.ResearchSpendRequested?
  {
    Facts(None, None, Some(x.depth), Some(|ForDeliberation(s.research, x.deliberationId)| + 1),
          Some(Sum(ApprovedSince(s.research, cutoff), CostOf) + x.cost))
  }

  function OnResearchSpendRequested(env: Env, s: GState, x: ExecutiveEvent, tick: nat): (r: Reaction<GState>)
    requires x.ResearchSpendRequested?
    ensures OnlyRecordsResearch(s, r.state) && By(Governor, r.published, 16)
  {
    hide DecideResearch, Policy, ResearchFacts, FindRuleArgs, WindowSeconds;
    if s.constitutions == [] then DecideResearch(s, x, false, env.text.say(NoConstitution), env.stamp(tick))
    else
      match FindRuleArgs(Current(s).rules, RESEARCH_BUDGET)
      case None => DecideResearch(s, x, false, env.text.say(NoResearchPolicy), env.stamp(tick))
      case Some(args) =>
        match WindowSeconds(env.text, args)
        case None => Reaction(s, [])
        case Some(window) =>
          match Policy(env, s, ResearchFacts(s, x, env.now(tick) - window))
          case Raises => Reaction(s, [])
          case Verdict(passed, reason) =>
            DecideResearch(s, x, passed, if passed then env.text.say(WithinResearchBudget) else reason, env.stamp(tick))
  }

  // ---------------------------------------------------------------- amendments

  function FirstAmendment(records: seq<Amendment>, id: Id): Option<Amendment> {
    if records == [] then None else if records[0].id == id then Some(records[0]) else FirstAmendment(records[1..], id)
  }

  function OnAmendmentProposed(s: GState, g: GovernorEvent, time: real): Reaction<GState>
    requires g.AmendmentProposed?
  {
    var record := Amendment(g.amendmentId, g.constitutionId, g.previousId, g.version, g.rules, g.justification,
                            IsProposed, time, None, None, None);
    Reaction(s.(pendingAmendments := s.pendingAmendments[g.amendmentId := Constitution(g.constitutionId, g.version, g.rules, time)],
                amendments := s.amendments + [record]), [])
  }

  function OnAmendmentApproved(s: GState, g: GovernorEvent, time: real): Reaction<GState>
    requires g.ConstitutionAmended?
  {
    if g.amendmentId !in s.pendingAmendments then Reaction(s, [])  // KeyError
    else
      var adopted := s.(pendingAmendments := s.pendingAmendments - {g.amendmentId},
                        constitutions := s.constitutions + [s.pendingAmendments[g.amendmentId]]);
      match FirstAmendment(s.amendments, g.amendmentId)
      case None => Reaction(adopted, [])  // IndexError
      case Some(proposed) =>
        Reaction(adopted.(amendments := s.amendments + [
          Amendment(g.amendmentId, g.constitutionId, proposed.previousId, g.version, proposed.rules, proposed.justification,
                    IsApproved, proposed.proposed, Some(time), Some(g.approvedBy), None)]), [])
  }

  function OnAmendmentRejected(s: GState, g: GovernorEvent, time: real): Reaction<GState>
    requires g.AmendmentRejected?
  {
    if g.amendmentId !in s.pendingAmendments then Reaction(s, [])  // KeyError
    else
      var dropped := s.(pendingAmendments := s.pendingAmendments - {g.amendmentId});
      match FirstAmendment(s.amendments, g.amendmentId)
      case None => Reaction(dropped, [])  // IndexError
      case Some(proposed) =>
        Reaction(dropped.(amendments := s.amendments + [
          Amendment(g.amendmentId, g.constitutionId, proposed.previousId, proposed.version, proposed.rules, proposed.justification,
                    IsRejected, proposed.proposed, Some(time), None, Some(g.reason))]), [])
  }

  // ---------------------------------------------------------------- escalations

  function OnEscalationCreated(s: GState, g: GovernorEvent, time: real): Reaction<GState>
    requires g.EscalationCreated?
  {
    var record := Escalation(g.escalationId, g.planId, g.reason, g.actions, true, time, None, None, None);
    Reaction(s.(escalations := s.escalations + [record], pendingEscalations := s.pendingEscalations[g.escalationId := record]), [])
  }

  function OnEscalationResolved(env: Env, s: GState, g: GovernorEvent, time: real, tick: nat): Reaction<GState>
    requires g.EscalationResolved?
  {
    if g.escalationId !in s.pendingEscalations then Reaction(s, [])  // KeyError
    else
      var pending := s.pendingEscalations[g.escalationId];
      var record := Escalation(g.escalationId, pending.planId, pending.reason, pending.actions, false, pending.created,
                               Some(g.decision), Some(time), Some(g.resolvedBy));
      var resolved := s.(pendingEscalations := s.pendingEscalations - {g.escalationId}, escalations := s.escalations + [record]);
      if g.decision == APPROVED then Approve(resolved, pending.planId, env.text.say(OwnerApproved), pending.actions, tick)
      else Deny(resolved, pending.planId, g.reason, tick)
  }

  // ---------------------------------------------------------------- knowledge

  function OnRevisionCompleted(s: GState, m: MemoryEvent, time: real): (r: Reaction<GState>)
    requires m.RevisionCompleted?
    ensures r.state == s.(playbooks := r.state.playbooks, antiPatterns := r.state.antiPatterns) && r.published == []
  {
    var k := Knowledge(m.knowledgeId, m.knowledgeType, m.summary, m.consensus, m.considered, time);
    Reaction(if k.kind == ANTI_PATTERN then s.(antiPatterns := s.antiPatterns[k.id := k])
             else s.(playbooks := s.playbooks[k.id := k]), [])
  }

  // ---------------------------------------------------------------- the subscriptions

  /** Amendments and escalations leave budgets, research and knowledge alone. */
  predicate OnlyGoverns(s: GState, s': GState) {
    s' == s.(constitutions := s'.constitutions, approvals := s'.approvals, amendments := s'.amendments,
             pendingAmendments := s'.pendingAmendments, escalations := s'.escalations, pendingEscalations := s'.pendingEscalations)
  }

  function OnGovernance(env: Env, s: GState, g: GovernorEvent, time: real, tick: nat): (r: Reaction<GState>)
    ensures OnlyGoverns(s, r.state) && By(Governor, r.published, 9)
    ensures !g.ConstitutionAmended? ==> r.state.constitutions == s.constitutions
    ensures !g.EscalationResolved? ==> r.published == []
  {
    if g.AmendmentProposed? then OnAmendmentProposed(s, g, time)
    else if g.ConstitutionAmended? then OnAmendmentApproved(s, g, time)
    else if g.AmendmentRejected? then OnAmendmentRejected(s, g, time)
    else if g.EscalationCreated? then OnEscalationCreated(s, g, time)
    else if g.EscalationResolved? then OnEscalationResolved(env, s, g, time, tick)
    else Reaction(s, [])
  }

  ghost function Step(env: Env, s: GState, e: Event, tick: nat): Reaction<GState> {
    match e.body
    case OfExecutive(x) =>
      if x.PlanProposed? then OnPlanProposed(env, s, x, tick)
      else if x.ResearchSpendRequested? then OnResearchSpendRequested(env, s, x, tick)
      else Reaction(s, [])
    case OfGovernor(g) => OnGovernance(env, s, g, e.time, tick)
    case OfMemory(m) => if m.RevisionCompleted? then OnRevisionCompleted(s, m, e.time) else Reaction(s, [])
    case _ => Reaction(s, [])
  }

  // ---------------------------------------------------------------- what snapshots rebuild

  function AmendmentId(a: Amendment): Id { a.id }
  function EscalationId(x: Escalation): Id { x.id }
  function KnowledgeId(k: Knowledge): Id { k.id }

  function Candidate(a: Amendment): Constitution {
    Constitution(a.constitutionId, a.version, a.rules, a.proposed)
  }

  /** `_restore_amendments`: the amendments whose latest transition is the proposal. */
  function RebuiltAmendments(records: seq<Amendment>): map<Id, Constitution> {
    var latest := Latest(records, AmendmentId);
    map id | id in latest && latest[id].status == IsProposed :: Candidate(latest[id])
  }

  /** `_restore_escalations`: the escalations whose latest transition is the creation. */
  function RebuiltEscalations(records: seq<Escalation>): map<Id, Escalation> {
    var latest := Latest(records, EscalationId);
    map id | id in latest && latest[id].pending :: latest[id]
  }
}
