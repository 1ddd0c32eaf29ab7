/** The Governor's answers, and that its ledgers hold exactly what it announced. */
module Verdicts {
  import opened Prelude
  import opened Ordering
  import opened Events
  import opened Rules
  import opened GovernorModel
  import opened GovernorTheorems

  // ---------------------------------------------------------------- the answer to a research request

  function Price(r: Spend): real { r.cost }

  /** Approved spending stamped from an instant on. */
  function SpentSince(research: seq<Spend>, from: real): real {
    Sum(Filter(research, (r: Spend) => r.approved && r.time >= from), Price)
  }

  /** How often a deliberation has asked before. */
  function Asked(research: seq<Spend>, deliberationId: string): nat {
    Count(research, (r: Spend) => r.deliberationId == deliberationId)
  }

  /** The window a research rule names in seconds, or a day. */
  function WindowOf(n: Notation, args: seq<string>): Option<real> {
    if |args| > 1 then n.parseReal(args[1]) else Some(86400.0)
  }

  /** Arguments of the research rule in force. */
  function ResearchArgs(s: GState): Option<seq<string>> {
    if s.constitutions == [] then None else FindRuleArgs(RulesInForce(s), "research_budget")
  }

  /** What the rules in force say of a request, told its depth, its deliberation's searches and the window's spending. */
  ghost function ResearchVerdict(env: Env, s: GState, x: ExecutiveEvent, tick: nat): Verdict
    requires x.ResearchSpendRequested? && ResearchArgs(s).Some?
  {
    match WindowOf(env.text, ResearchArgs(s).value)
    case None => Raises
    case Some(window) =>
      Evaluate(env.library, RulesInForce(s),
               Facts(None, None, Some(x.depth), Some(Asked(s.research, x.deliberationId) + 1),
                     Some(SpentSince(s.research, env.now(tick) - window) + x.cost)))
  }

  ghost predicate MayResearch(env: Env, s: GState, x: ExecutiveEvent, tick: nat)
    requires x.ResearchSpendRequested?
  {
    ResearchArgs(s).Some? && ResearchVerdict(env, s, x, tick).Verdict? && ResearchVerdict(env, s, x, tick).passed
  }

  lemma {:induction false} SumOfPrices(research: seq<Spend>)
    ensures Sum(research, CostOf) == Sum(research, Price)
  {
    if research != [] { SumOfPrices(research[1..]); }
  }

  lemma ResearchVerdictIs(env: Env, s: GState, x: ExecutiveEvent, tick: nat, window: real)
    requires x.ResearchSpendRequested? && ResearchArgs(s).Some? && WindowOf(env.text, ResearchArgs(s).value) == Some(window)
    ensures Policy(env, s, ResearchFacts(s, x, env.now(tick) - window)) == ResearchVerdict(env, s, x, tick)
  {
    hide Evaluate, FindRuleArgs, Sum, Filter;
    var from := env.now(tick) - window;
    SumOfPrices(ApprovedSince(s.research, from));
    FilterAlike(s.research, (r: Spend) => r.approved && r.time >= from, from);
    FilterOfOne(s.research, x.deliberationId);
  }

  lemma {:induction false} FilterAlike(research: seq<Spend>, p: Spend -> bool, from: real)
    requires forall r: Spend :: p(r) <==> r.approved && r.time >= from
    ensures Filter(research, p) == ApprovedSince(research, from)
  {
    if research != [] { FilterAlike(research[1..], p, from); }
  }

  lemma {:induction false} FilterOfOne(research: seq<Spend>, deliberationId: string)
    ensures |ForDeliberation(research, deliberationId)| == Asked(research, deliberationId)
  {
    if research != [] { FilterOfOne(research[1..], deliberationId); }
  }

  /** The event that answers a request, naming it and, if it is granted, what it may cost. */
  predicate Answers(p: Payload, x: ExecutiveEvent, granted: bool)
    requires x.ResearchSpendRequested?
  {
    p.OfGovernor? &&
    if granted
    then p.g.ResearchSpendApproved? && p.g.requestId == x.requestId && p.g.deliberationId == x.deliberationId
         && p.g.category == x.category && p.g.cost == x.cost
    else p.g.ResearchSpendDenied? && p.g.requestId == x.requestId && p.g.deliberationId == x.deliberationId
         && p.g.category == x.category
  }

  /** The record of an answered request. */
  predicate Notes(r: Spend, x: ExecutiveEvent, granted: bool, time: real)
    requires x.ResearchSpendRequested?
  {
    && r.requestId == x.requestId && r.deliberationId == x.deliberationId && r.category == x.category
    && r.cost == x.cost && r.depth == x.depth && r.approved == granted && r.time == time
  }

  lemma NoWindow(env: Env, s: GState, x: ExecutiveEvent, tick: nat)
    requires x.ResearchSpendRequested? && ResearchArgs(s).Some? && WindowOf(env.text, ResearchArgs(s).value).None?
    ensures ResearchVerdict(env, s, x, tick) == Raises
  {
  }

  /** What a request is answered with, and the record it leaves. */
  ghost predicate Answered(r: Reaction<GState>, s: GState, x: ExecutiveEvent, granted: bool, time: real)
    requires x.ResearchSpendRequested?
  {
    && |r.published| == 1 && Answers(r.published[0], x, granted)
    && |r.state.research| == |s.research| + 1 && Notes(r.state.research[|s.research|], x, granted, time)
    && r.state == s.(research := s.research + [r.state.research[|s.research|]])
  }

  lemma DecisionAnswers(s: GState, x: ExecutiveEvent, approved: bool, reason: string, time: real)
    requires x.ResearchSpendRequested?
    ensures Answered(DecideResearch(s, x, approved, reason, time), s, x, approved, time)
  {
    hide By;
  }

  /**
   A request for research spending is answered by one event, an approval of its cost exactly when the constitution in force
   has a research rule and its rules pass the request, and recorded as it was answered; if reading a rule raises, it is
   neither answered nor recorded.
   */
  lemma ResearchIsAnswered(env: Env, s: GState, e: Event, tick: nat)
    requires e.body.OfExecutive? && e.body.x.ResearchSpendRequested?
    ensures var r, x := Step(env, s, e, tick), e.body.x;
            if ResearchArgs(s).Some? && ResearchVerdict(env, s, x, tick).Raises? then r == Reaction(s, [])
            else Answered(r, s, x, MayResearch(env, s, x, tick), env.stamp(tick))
  {
    hide Policy, ResearchFacts, FindRuleArgs, ResearchVerdict, By, DecideResearch, Answered, OnlyRecordsResearch, OnPlanProposed, OnGovernance;
    var x, time := e.body.x, env.stamp(tick);
    forall approved, reason ensures Answered(DecideResearch(s, x, approved, reason, time), s, x, approved, time) {
      DecisionAnswers(s, x, approved, reason, time);
    }
    if ResearchArgs(s).Some? {
      var args := ResearchArgs(s).value;
      if WindowOf(env.text, args).Some? { ResearchVerdictIs(env, s, x, tick, WindowOf(env.text, args).value); } else { NoWindow(env, s, x, tick); }
    }
  }

  /** Under the default rules, when it keeps every cap declared on depth, on the deliberation's searches and on spending. */
  lemma ResearchIsCapped(env: Env, s: GState, x: ExecutiveEvent, tick: nat)
    requires x.ResearchSpendRequested? && env.library == DefaultRules(env.text)
    ensures MayResearch(env, s, x, tick) <==>
            && ResearchArgs(s).Some? && WindowOf(env.text, ResearchArgs(s).value).Some?
            && forall rule <- RulesInForce(s) ::
                 ResearchKeeps(env.text, rule, x.depth, Asked(s.research, x.deliberationId) + 1,
                               SpentSince(s.research, env.now(tick) - WindowOf(env.text, ResearchArgs(s).value).value) + x.cost)
  {
    hide DefaultRules, FindRuleArgs, ResearchKeeps, Evaluate, Asked, SpentSince;
    if ResearchArgs(s).Some? && WindowOf(env.text, ResearchArgs(s).value).Some? {
      ResearchPassesIff(env.text, RulesInForce(s), x.depth, Asked(s.research, x.deliberationId) + 1,
                        SpentSince(s.research, env.now(tick) - WindowOf(env.text, ResearchArgs(s).value).value) + x.cost);
    }
  }

  // ---------------------------------------------------------------- the ledger of research is what was announced

  /** What the Governor announces over a list of events, each event with the instant of its decision's record. */
  ghost function Announced(env: Env, s: GState, events: seq<Event>, tick: nat): seq<(Payload, real)> {
    if events == [] then []
    else
      var n := |events| - 1;
      Announced(env, s, events[..n], tick) + Stamped(Step(env, Govern(env, s, events[..n], tick), events[n], tick + n).published, env.stamp(tick + n))
  }

  function Stamped(ps: seq<Payload>, time: real): (r: seq<(Payload, real)>)
    ensures |r| == |ps| && forall i :: 0 <= i < |r| ==> r[i] == (ps[i], time)
  {
    seq(|ps|, i requires 0 <= i < |ps| => (ps[i], time))
  }

  /** A request's id, whether it was granted, its cost if it was, and when. */
  datatype Ruling = Ruling(requestId: string, granted: bool, cost: real, time: real)

  function RulingIn(a: (Payload, real)): Option<Ruling> {
    match a.0
    case OfGovernor(ResearchSpendApproved(id, _, _, cost, _)) => Some(Ruling(id, true, cost, a.1))
    case OfGovernor(ResearchSpendDenied(id, _, _, _)) => Some(Ruling(id, false, 0.0, a.1))
    case _ => None
  }

  function RulingOf(r: Spend): Option<Ruling> {
    Some(Ruling(r.requestId, r.approved, if r.approved then r.cost else 0.0, r.time))
  }

  predicate IsRuling(p: Payload) {
    p.OfGovernor? && (p.g.ResearchSpendApproved? || p.g.ResearchSpendDenied?)
  }

  ghost predicate RulesNothing(ps: seq<Payload>) {
    forall p <- ps :: !IsRuling(p)
  }

  lemma NoRuling(ps: seq<Payload>, time: real)
    requires RulesNothing(ps)
    ensures Project(Stamped(ps, time), RulingIn) == []
  {
    forall a | a in Stamped(ps, time) ensures RulingIn(a) == None {
      var i :| 0 <= i < |ps| && Stamped(ps, time)[i] == a;
      assert ps[i] in ps;
    }
    ProjectNothing(Stamped(ps, time), RulingIn);
  }

  lemma OthersRuleNothing(env: Env, s: GState, e: Event, tick: nat)
    requires !(e.body.OfExecutive? && e.body.x.ResearchSpendRequested?)
    ensures RulesNothing(Step(env, s, e, tick).published) && Step(env, s, e, tick).state.research == s.research
  {
    hide OnPlanProposed, OnRevisionCompleted, OnGovernance, IsRuling, By;
    OthersLeaveResearch(env, s, e, tick);
    if e.body.OfExecutive? && e.body.x.PlanProposed? { PlansRuleNothing(env, s, e.body.x, tick); }
    if e.body.OfGovernor? { GovernanceRulesNothing(env, s, e.body.g, e.time, tick); }
  }

  lemma EndingRulesNothing(tail: seq<Payload>, ending: Ending, planId: Id, actions: seq<string>)
    requires Ends(tail, ending, planId, actions)
    ensures RulesNothing(tail)
  {
  }

  lemma PlansRuleNothing(env: Env, s: GState, p: ExecutiveEvent, tick: nat)
    requires p.PlanProposed?
    ensures RulesNothing(OnPlanProposed(env, s, p, tick).published)
  {
    hide OnPlanProposed, EndingOf, Passes, Covered, Vetoed, Ends, By, Charged;
    var preamble := PlanDecision(env, s, p, tick);
    var ps := OnPlanProposed(env, s, p, tick).published;
    EndingRulesNothing(ps[|preamble|..], EndingOf(env, s, p), p.planId, p.actions);
    assert ps == preamble + ps[|preamble|..];
  }

  lemma GovernanceRulesNothing(env: Env, s: GState, g: GovernorEvent, time: real, tick: nat)
    ensures RulesNothing(OnGovernance(env, s, g, time, tick).published)
  {
    hide By, OnAmendmentProposed, OnAmendmentApproved, OnAmendmentRejected;
  }

  lemma StepRules(env: Env, s: GState, e: Event, tick: nat)
    ensures var r := Step(env, s, e, tick);
            Project(r.state.research, RulingOf) == Project(s.research, RulingOf) + Project(Stamped(r.published, env.stamp(tick)), RulingIn)
  {
    hide Step, Project, MayResearch, ResearchVerdict, ResearchArgs;
    var r := Step(env, s, e, tick);
    if e.body.OfExecutive? && e.body.x.ResearchSpendRequested? {
      ResearchIsAnswered(env, s, e, tick);
      if r.published == [] {
        ProjectNothing(Stamped([], env.stamp(tick)), RulingIn);
      } else {
        var p := (r.published[0], env.stamp(tick));
        assert Stamped(r.published, env.stamp(tick)) == [p];
        ProjectOne(p, RulingIn);
        ProjectSnoc(s.research, r.state.research[|s.research|], RulingOf);
      }
    } else {
      OthersRuleNothing(env, s, e, tick);
      NoRuling(r.published, env.stamp(tick));
    }
  }

  /** Over any events, the ledger of research holds exactly what was announced of it, in order: request, verdict, cost, instant. */
  lemma {:induction false} ResearchLedgerIsAnnounced(env: Env, s: GState, events: seq<Event>, tick: nat)
    ensures Project(Govern(env, s, events, tick).research, RulingOf)
         == Project(s.research, RulingOf) + Project(Announced(env, s, events, tick), RulingIn)
  {
    hide Step, Project;
    if events == [] {
      ProjectNothing([], RulingIn);
    } else {
      var n := |events| - 1;
      var before, said := Govern(env, s, events[..n], tick), Announced(env, s, events[..n], tick);
      var more := Stamped(Step(env, before, events[n], tick + n).published, env.stamp(tick + n));
      ResearchLedgerIsAnnounced(env, s, events[..n], tick);
      StepRules(env, before, events[n], tick + n);
      ProjectConcat(said, more, RulingIn);
      Associates(Project(s.research, RulingOf), Project(said, RulingIn), Project(more, RulingIn));
    }
  }

  function CostIn(r: Ruling): real { r.cost }

  /** The approvals among some rulings that fall in the window before t. */
  function Within(rulings: seq<Ruling>, t: real, window: real): seq<Ruling> {
    Filter(rulings, (r: Ruling) => r.granted && t - window <= r.time <= t)
  }

  lemma WithinTurns(x: Ruling, rest: seq<Ruling>, t: real, window: real)
    ensures var counts, all := x.granted && t - window <= x.time <= t, Within([x] + rest, t, window);
            && |all| == |Within(rest, t, window)| + (if counts then 1 else 0)
            && Sum(all, CostIn) == Sum(Within(rest, t, window), CostIn) + (if counts then x.cost else 0.0)
  {
    assert ([x] + rest)[1..] == rest;
    assert ([x] + Within(rest, t, window))[1..] == Within(rest, t, window);
    assert [] + Within(rest, t, window) == Within(rest, t, window);
  }

  lemma InWindowTurns(research: seq<Spend>, t: real, window: real)
    requires research != []
    ensures var counts, all, rest := research[0].approved && t - window <= research[0].time <= t, InWindow(research, t, window), InWindow(research[1..], t, window);
            && |all| == |rest| + (if counts then 1 else 0)
            && Sum(all, CostOf) == Sum(rest, CostOf) + (if counts then research[0].cost else 0.0)
  {
    var rest := InWindow(research[1..], t, window);
    assert ([research[0]] + rest)[1..] == rest;
    assert [] + rest == rest;
  }

  lemma {:induction false} WindowsAlike(research: seq<Spend>, t: real, window: real)
    ensures Sum(Within(Project(research, RulingOf), t, window), CostIn) == Sum(InWindow(research, t, window), CostOf)
    ensures |Within(Project(research, RulingOf), t, window)| == |InWindow(research, t, window)|
  {
    if research != [] {
      var r, rest := research[0], Project(research[1..], RulingOf);
      assert Project(research, RulingOf) == [RulingOf(r).value] + rest;
      hide Project, Filter, Sum, Within, InWindow;
      WindowsAlike(research[1..], t, window);
      WithinTurns(RulingOf(r).value, rest, t, window);
      InWindowTurns(research, t, window);
    }
  }

  /**
   So the bound is one on what is announced: under one constitution with a research budget of `limit` per `window` seconds,
   from an empty ledger, the approvals announced with records stamped in the window before any instant cost at most the limit.
   */
  lemma AnnouncedSpendingIsBounded(env: Env, s: GState, events: seq<Event>, tick: nat, t: real, limit: real, window: real)
    requires Monotonic(env) && Metered(env, s, limit, window) && OneRegime(events) && s.research == []
    ensures var approvals := Within(Project(Announced(env, s, events, tick), RulingIn), t, window);
            approvals == [] || Sum(approvals, CostIn) <= limit
  {
    hide Step, Metered, OneRegime, Monotonic, Sum, Project, Within;
    var research, said := Govern(env, s, events, tick).research, Project(Announced(env, s, events, tick), RulingIn);
    assert InWindow(s.research, t, window) == [];
    RollingWindowIsBounded(env, s, events, tick, t, limit, window);
    ResearchLedgerIsAnnounced(env, s, events, tick);
    assert Project(s.research, RulingOf) == [] by { ProjectNothing(s.research, RulingOf); }
    assert [] + said == said;
    WindowsAlike(research, t, window);
  }

  // ---------------------------------------------------------------- the ledger of approvals is what was announced

  function DecisionIn(p: Payload): Option<Approval> {
    match p
    case OfGovernor(ApprovalGranted(id, planId, reason, _)) => Some(Approval(id, planId, true, reason))
    case OfGovernor(ApprovalDenied(id, planId, reason)) => Some(Approval(id, planId, false, reason))
    case _ => None
  }

  /** A reaction records the decisions it publishes. */
  ghost predicate Tells(s: GState, r: Reaction<GState>) {
    r.state.approvals == s.approvals + Project(r.published, DecisionIn)
  }

  lemma TellsAfter(s: GState, notices: seq<Payload>, r: Reaction<GState>)
    requires Tells(s, r) && Project(notices, DecisionIn) == []
    ensures Tells(s, After(notices, r))
  {
    ProjectConcat(notices, r.published, DecisionIn);
    assert [] + Project(r.published, DecisionIn) == Project(r.published, DecisionIn);
  }

  lemma SilenceTells(s: GState, r: Reaction<GState>)
    requires r.state.approvals == s.approvals && Project(r.published, DecisionIn) == []
    ensures Tells(s, r)
  {
  }

  lemma DecidingTells(s: GState, planId: Id, reason: string, actions: seq<string>, tick: nat)
    ensures Tells(s, Deny(s, planId, reason, tick)) && Tells(s, Approve(s, planId, reason, actions, tick))
  {
    hide By;
    ProjectOne(Deny(s, planId, reason, tick).published[0], DecisionIn);
    ProjectOne(Approve(s, planId, reason, actions, tick).published[0], DecisionIn);
  }

  lemma AdviceTells(env: Env, s: GState, p: ExecutiveEvent, budget: Budget, tick: nat)
    requires p.PlanProposed?
    ensures Tells(s, Advise(env, s, p, budget, tick))
  {
    var ws := AntiPatternWeighings(env.text, s) + PlaybookWeighings(env.text, s);
    var weighed := s.(applications := s.applications + Records(ws, p.planId, tick));
    ProjectNothing(Notices(ws, p.planId, tick), DecisionIn);
    hide By, Project, AntiPatternWeighings, PlaybookWeighings, Records, Notices, Deny, Approve;
    var vetoes := Project(AntiPatternWeighings(env.text, weighed), AppliedReason);
    if vetoes != [] {
      DecidingTells(weighed, p.planId, vetoes[0], [], tick);
    } else {
      GrantTells(env, weighed, budget, p, Project(PlaybookWeighings(env.text, weighed), AppliedReason), tick);
    }
    var ruled := Rule(env, weighed, p, budget, tick);
    assert Tells(s, ruled);
    TellsAfter(s, Notices(ws, p.planId, tick), ruled);
  }

  lemma GrantTells(env: Env, s: GState, budget: Budget, p: ExecutiveEvent, support: seq<string>, tick: nat)
    requires p.PlanProposed?
    ensures Tells(s, Grant(env, s, budget, p, support, tick))
  {
    hide By, Project, Approve;
    var left := Budget(budget.id, budget.attention - p.attention, budget.capital - p.capital);
    DecidingTells(s.(budgets := s.budgets[budget.id := left]), p.planId, env.text.say(WithinPolicyAndBudget(support)), p.actions, tick);
  }

  lemma CheckTells(env: Env, s: GState, p: ExecutiveEvent, tick: nat)
    requires p.PlanProposed? && s.activeBudget.Some?
    ensures Tells(s, CheckBudget(env, s, p, tick))
  {
    if s.activeBudget.value !in s.budgets {
      SilenceTells(s, Reaction(s, []));
    } else {
      var budget := s.budgets[s.activeBudget.value];
      var reason := env.text.say(Shortfall(AttentionOk(budget, p), CapitalOk(budget, p)));
      ProjectNothing(Checked(budget, p), DecisionIn);
      hide By, Project, Advise, Deny, Checked, Tells, Approve;
      AdviceTells(env, s, p, budget, tick);
      DecidingTells(s, p.planId, reason, [], tick);
      TellsAfter(s, Checked(budget, p), if AttentionOk(budget, p) && CapitalOk(budget, p) then Advise(env, s, p, budget, tick) else Deny(s, p.planId, reason, tick));
    }
  }

  lemma PlansTell(env: Env, s: GState, p: ExecutiveEvent, tick: nat)
    requires p.PlanProposed?
    ensures Tells(s, OnPlanProposed(env, s, p, tick))
  {
    hide By, Policy, Deny, Approve, CheckBudget, Evaluated, PlanFacts;
    if s.constitutions == [] || s.activeBudget.None? {
      ProjectNothing(OnPlanProposed(env, s, p, tick).published, DecisionIn);
    } else if Policy(env, s, PlanFacts(p)).Verdict? {
      var v := Policy(env, s, PlanFacts(p));
      assert Project(Evaluated(Current(s), p, v.passed, v.reason), DecisionIn) == [] by { EvaluatedDecidesNothing(Current(s), p, v.passed, v.reason); }
      hide Project, Tells;
      CheckTells(env, s, p, tick);
      DecidingTells(s, p.planId, v.reason, [], tick);
      TellsAfter(s, Evaluated(Current(s), p, v.passed, v.reason), if v.passed then CheckBudget(env, s, p, tick) else Deny(s, p.planId, v.reason, tick));
    }
  }

  lemma EvaluatedDecidesNothing(c: Constitution, p: ExecutiveEvent, passed: bool, reason: string)
    requires p.PlanProposed?
    ensures Project(Evaluated(c, p, passed, reason), DecisionIn) == []
  {
    hide By;
    ProjectNothing(Evaluated(c, p, passed, reason), DecisionIn);
  }

  lemma StepTells(env: Env, s: GState, e: Event, tick: nat)
    ensures Tells(s, Step(env, s, e, tick))
  {
    hide By, OnPlanProposed, OnResearchSpendRequested, OnGovernance, OnRevisionCompleted, Project, Tells;
    ProjectNothing([], DecisionIn);
    SilenceTells(s, Reaction(s, []));
    if e.body.OfExecutive? && e.body.x.PlanProposed? { PlansTell(env, s, e.body.x, tick); }
    if e.body.OfExecutive? && e.body.x.ResearchSpendRequested? { ResearchTells(env, s, e, tick); }
    if e.body.OfGovernor? { GovernanceTells(env, s, e.body.g, e.time, tick); }
    if e.body.OfMemory? { SilenceTells(s, Step(env, s, e, tick)); }
  }

  lemma ResearchTells(env: Env, s: GState, e: Event, tick: nat)
    requires e.body.OfExecutive? && e.body.x.ResearchSpendRequested?
    ensures Tells(s, Step(env, s, e, tick))
  {
    hide Step, MayResearch, ResearchVerdict, ResearchArgs;
    ResearchIsAnswered(env, s, e, tick);
    ProjectNothing(Step(env, s, e, tick).published, DecisionIn);
  }

  lemma GovernanceTells(env: Env, s: GState, g: GovernorEvent, time: real, tick: nat)
    ensures Tells(s, OnGovernance(env, s, g, time, tick))
  {
    hide By, FirstAmendment, Project, Deny, Approve, OnlyGoverns;
    ProjectNothing([], DecisionIn);
    assert s.approvals + [] == s.approvals;
    if g.EscalationResolved? && g.escalationId in s.pendingEscalations {
      var pending := s.pendingEscalations[g.escalationId];
      var record := Escalation(g.escalationId, pending.planId, pending.reason, pending.actions, false, pending.created,
                               Some(g.decision), Some(time), Some(g.resolvedBy));
      var resolved := s.(pendingEscalations := s.pendingEscalations - {g.escalationId}, escalations := s.escalations + [record]);
      DecidingTells(resolved, pending.planId, env.text.say(OwnerApproved), pending.actions, tick);
      DecidingTells(resolved, pending.planId, g.reason, [], tick);
    }
  }

  function DecisionAnnounced(a: (Payload, real)): Option<Approval> { DecisionIn(a.0) }

  lemma {:induction false} StampingKeepsDecisions(ps: seq<Payload>, time: real)
    ensures Project(Stamped(ps, time), DecisionAnnounced) == Project(ps, DecisionIn)
  {
    if ps != [] {
      StampingKeepsDecisions(ps[1..], time);
      assert Stamped(ps, time)[1..] == Stamped(ps[1..], time);
    }
  }

  /** Over any events, the ledger of approvals holds exactly the decisions announced, in order: plan, verdict and reason. */
  lemma {:induction false} ApprovalsLedgerIsAnnounced(env: Env, s: GState, events: seq<Event>, tick: nat)
    ensures Govern(env, s, events, tick).approvals == s.approvals + Project(Announced(env, s, events, tick), DecisionAnnounced)
  {
    hide Step, Project;
    if events == [] {
      ProjectNothing([], DecisionAnnounced);
      assert s.approvals + [] == s.approvals;
    } else {
      var n := |events| - 1;
      var before, said := Govern(env, s, events[..n], tick), Announced(env, s, events[..n], tick);
      var ps := Step(env, before, events[n], tick + n).published;
      ApprovalsLedgerIsAnnounced(env, s, events[..n], tick);
      StepTells(env, before, events[n], tick + n);
      StampingKeepsDecisions(ps, env.stamp(tick + n));
      ProjectConcat(said, Stamped(ps, env.stamp(tick + n)), DecisionAnnounced);
      Associates(s.approvals, Project(said, DecisionAnnounced), Project(ps, DecisionIn));
    }
  }
}
