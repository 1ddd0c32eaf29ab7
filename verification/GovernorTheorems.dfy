/** What the Governor promises: who decides, what is charged, what may be spent. */
module GovernorTheorems {
  import opened Prelude
  import opened Ordering
  import opened Events
  import opened Rules
  import opened GovernorModel

  // ---------------------------------------------------------------- the decision on a plan

  predicate Grants(p: Payload) {
    p.OfGovernor? && p.g.ApprovalGranted?
  }

  /** Announcements that decide nothing. */
  ghost predicate Preambles(ps: seq<Payload>) {
    forall p <- ps :: p.OfGovernor? && (p.g.PolicyEvaluated? || p.g.BudgetChecked? || p.g.KnowledgeApplied? || p.g.KnowledgeIgnored?)
  }

  /** The three ways a reaction to a plan can end, besides raising. */
  datatype Ending = Raised | Escalated | Denied | Granted

  /** An announcement or two, on this very plan. */
  predicate Ends(tail: seq<Payload>, ending: Ending, planId: Id, actions: seq<string>) {
    match ending
    case Raised => tail == []
    case Escalated => |tail| == 2 && tail[0].OfGovernor? && tail[0].g.ApprovalRequired?
                      && tail[1].OfGovernor? && tail[1].g.EscalationCreated? && tail[1].g.planId == planId && tail[1].g.actions == actions
    case Denied => |tail| == 1 && tail[0].OfGovernor? && tail[0].g.ApprovalDenied? && tail[0].g.planId == planId
    case Granted => |tail| == 1 && Grants(tail[0]) && tail[0].g.planId == planId && tail[0].g.actions == actions
  }

  /** The budget the Governor would charge covers the plan. */
  predicate Covered(s: GState, p: ExecutiveEvent)
    requires p.PlanProposed?
  {
    && s.activeBudget.Some? && s.activeBudget.value in s.budgets
    && p.attention <= s.budgets[s.activeBudget.value].attention && p.capital <= s.budgets[s.activeBudget.value].capital
  }

  /** The rules of the constitution adopted last. */
  function RulesInForce(s: GState): seq<string>
    requires s.constitutions != []
  {
    s.constitutions[|s.constitutions| - 1].rules
  }

  /** What they say of a plan's two costs. */
  function PlanVerdict(env: Env, s: GState, p: ExecutiveEvent): Verdict
    requires p.PlanProposed? && s.constitutions != []
  {
    Evaluate(env.library, RulesInForce(s), Facts(Some(p.attention), Some(p.capital), None, None, None))
  }

  lemma PlanVerdictIs(env: Env, s: GState, p: ExecutiveEvent)
    requires p.PlanProposed? && s.constitutions != []
    ensures Policy(env, s, PlanFacts(p)) == PlanVerdict(env, s, p)
  {
    hide Evaluate;
  }

  predicate Passes(env: Env, s: GState, p: ExecutiveEvent)
    requires p.PlanProposed?
  {
    s.constitutions != [] && PlanVerdict(env, s, p).Verdict? && PlanVerdict(env, s, p).passed
  }

  /** Some anti-pattern the Governor holds has reached the threshold. */
  ghost predicate Vetoed(s: GState) {
    exists id :: id in s.antiPatterns && s.antiPatterns[id].consensus >= ANTI_PATTERN_CONFIDENCE_THRESHOLD
  }

  lemma InOrderMembers(m: map<Id, Knowledge>)
    ensures forall k :: k in InOrder(m) <==> exists id :: id in m && m[id] == k
  {
    var ids, f := SortedSet(m.Keys, IdLe), (id: Id) => Lookup(m, id);
    SortedSetMembers(m.Keys, IdLe);
    forall k ensures k in InOrder(m) <==> exists id :: id in m && m[id] == k {
      if k in InOrder(m) {
        var i := ProjectOrigin(ids, f, k);
        assert ids[i] in m;
      }
      if id :| id in m && m[id] == k {
        assert id in ids;
        var i :| 0 <= i < |ids| && ids[i] == id;
        ProjectMember(ids, f, i);
      }
    }
  }

  lemma VetoIffEnforceable(n: Notation, s: GState)
    ensures Project(AntiPatternWeighings(n, s), AppliedReason) != [] <==> Vetoed(s)
  {
    var ks, ws := InOrder(s.antiPatterns), AntiPatternWeighings(n, s);
    InOrderMembers(s.antiPatterns);
    if id :| id in s.antiPatterns && s.antiPatterns[id].consensus >= ANTI_PATTERN_CONFIDENCE_THRESHOLD {
      assert s.antiPatterns[id] in ks;
      var i :| 0 <= i < |ks| && ks[i] == s.antiPatterns[id];
      ProjectMember(ws, AppliedReason, i);
    }
    if Project(ws, AppliedReason) != [] {
      var i := ProjectOrigin(ws, AppliedReason, Project(ws, AppliedReason)[0]);
      assert ks[i] in ks;
    }
  }

  function Charged(b: Budget, p: ExecutiveEvent): Budget
    requires p.PlanProposed?
  {
    Budget(b.id, b.attention - p.attention, b.capital - p.capital)
  }

  lemma RuleShape(env: Env, s: GState, p: ExecutiveEvent, budget: Budget, tick: nat)
    requires p.PlanProposed?
    ensures var r := Rule(env, s, p, budget, tick);
            && Ends(r.published, if Vetoed(s) then Denied else Granted, p.planId, p.actions)
            && r.state.budgets == (if Vetoed(s) then s.budgets else s.budgets[budget.id := Charged(budget, p)])
            && |r.state.approvals| == |s.approvals| + 1
  {
    VetoIffEnforceable(env.text, s);
    hide AntiPatternWeighings, PlaybookWeighings, Project, Vetoed, By;
  }

  lemma AdviceShape(env: Env, s: GState, p: ExecutiveEvent, budget: Budget, tick: nat) returns (notices: seq<Payload>)
    requires p.PlanProposed?
    ensures var r := Advise(env, s, p, budget, tick);
            && Preambles(notices) && |notices| < |r.published| && r.published[..|notices|] == notices
            && Ends(r.published[|notices|..], if Vetoed(s) then Denied else Granted, p.planId, p.actions)
            && r.state.budgets == (if Vetoed(s) then s.budgets else s.budgets[budget.id := Charged(budget, p)])
  {
    var ws := AntiPatternWeighings(env.text, s) + PlaybookWeighings(env.text, s);
    var weighed := s.(applications := s.applications + Records(ws, p.planId, tick));
    notices := Notices(ws, p.planId, tick);
    assert Vetoed(weighed) == Vetoed(s);
    RuleShape(env, weighed, p, budget, tick);
    hide AntiPatternWeighings, PlaybookWeighings, Notices, Records, Rule, Vetoed, By, Ends;
    var ruled := Rule(env, weighed, p, budget, tick);
    assert (notices + ruled.published)[|notices|..] == ruled.published;
    assert ruled.published != [] by { EndsWithSomething(ruled.published, if Vetoed(s) then Denied else Granted, p.planId, p.actions); }
  }

  lemma EndsWithSomething(tail: seq<Payload>, ending: Ending, planId: Id, actions: seq<string>)
    requires Ends(tail, ending, planId, actions)
    ensures tail == [] <==> ending == Raised
  {
  }

  ghost function EndingOf(env: Env, s: GState, p: ExecutiveEvent): Ending
    requires p.PlanProposed?
  {
    if s.constitutions == [] || s.activeBudget.None? then Escalated
    else if PlanVerdict(env, s, p).Raises? then Raised
    else if !Passes(env, s, p) then Denied
    else if s.activeBudget.value !in s.budgets then Raised
    else if Covered(s, p) && !Vetoed(s) then Granted
    else Denied
  }

  lemma Prefixed(first: seq<Payload>, notices: seq<Payload>, rest: seq<Payload>)
    requires Preambles(first) && Preambles(notices) && |notices| <= |rest| && rest[..|notices|] == notices
    ensures Preambles(first + notices)
    ensures var all, n := first + rest, |first + notices|;
            && n <= |all| && all[..n] == first + notices && all[n..] == rest[|notices|..]
            && (first != [] ==> (first + notices)[0] == first[0])
            && (|first| == 1 && notices != [] ==> (first + notices)[1] == notices[0])
  {
    forall q | q in first + notices ensures q in first || q in notices {}
    var all, n := first + rest, |first + notices|;
    assert all[..n] == first + rest[..|notices|];
    assert all[n..] == rest[|notices|..];
  }

  lemma CheckShape(env: Env, s: GState, p: ExecutiveEvent, tick: nat) returns (preamble: seq<Payload>)
    requires p.PlanProposed? && s.activeBudget.Some? && s.activeBudget.value in s.budgets
    ensures var r := CheckBudget(env, s, p, tick);
            var budget := s.budgets[s.activeBudget.value];
            var granted := Covered(s, p) && !Vetoed(s);
            && Preambles(preamble) && 0 < |preamble| <= |r.published| && r.published[..|preamble|] == preamble
            && preamble[0] == Checked(budget, p)[0]
            && Ends(r.published[|preamble|..], if granted then Granted else Denied, p.planId, p.actions)
            && r.state.budgets == (if granted then s.budgets[budget.id := Charged(budget, p)] else s.budgets)
  {
    hide Advise, Vetoed, By;
    var budget := s.budgets[s.activeBudget.value];
    var checked := Checked(budget, p);
    if AttentionOk(budget, p) && CapitalOk(budget, p) {
      var notices := AdviceShape(env, s, p, budget, tick);
      Prefixed(checked, notices, Advise(env, s, p, budget, tick).published);
      preamble := checked + notices;
    } else {
      preamble := checked;
    }
  }

  /**
   The decision on a plan, in full. It is granted exactly when the constitution in force passes it, the
   active budget covers it, and no anti-pattern held has reached the threshold: learned knowledge
   narrows what policy and budget allow and never widens it. A grant comes right after a passed policy
   and a sufficient budget were announced for the plan, and only a grant charges the budget.
   */
  lemma PlanDecision(env: Env, s: GState, p: ExecutiveEvent, tick: nat) returns (preamble: seq<Payload>)
    requires p.PlanProposed?
    ensures var r, ending := OnPlanProposed(env, s, p, tick), EndingOf(env, s, p);
            && Preambles(preamble) && |preamble| <= |r.published| && r.published[..|preamble|] == preamble
            && Ends(r.published[|preamble|..], ending, p.planId, p.actions)
            && (ending == Granted <==> Passes(env, s, p) && Covered(s, p) && !Vetoed(s))
            && (ending == Granted ==>
                  && |preamble| >= 2
                  && preamble[0].g.PolicyEvaluated? && preamble[0].g.planId == p.planId && preamble[0].g.passed
                  && preamble[1].g.BudgetChecked? && preamble[1].g.planId == p.planId && preamble[1].g.sufficient
                  && s.activeBudget.Some? && s.activeBudget.value in s.budgets)
            && (preamble != [] ==> preamble[0].g.PolicyEvaluated? && (preamble[0].g.passed <==> Passes(env, s, p)))
            && (|preamble| >= 2 ==> preamble[1].g.BudgetChecked? && (preamble[1].g.sufficient <==> Covered(s, p)))
            && r.state.budgets == (if ending == Granted
                                   then var b := s.budgets[s.activeBudget.value]; s.budgets[b.id := Charged(b, p)]
                                   else s.budgets)
  {
    hide Policy, PlanFacts, PlanVerdict, Vetoed, By, CheckBudget, OnlyDecides;
    if s.constitutions != [] { PlanVerdictIs(env, s, p); }
    if s.constitutions == [] || s.activeBudget.None? || Policy(env, s, PlanFacts(p)).Raises? {
      preamble := [];
    } else {
      var v := Policy(env, s, PlanFacts(p));
      preamble := Evaluated(Current(s), p, v.passed, v.reason);
      if v.passed {
        preamble := PassedPlan(env, s, p, tick);
      }
    }
  }

  lemma PassedPlan(env: Env, s: GState, p: ExecutiveEvent, tick: nat) returns (preamble: seq<Payload>)
    requires p.PlanProposed? && s.constitutions != [] && s.activeBudget.Some? && Passes(env, s, p)
    ensures var r := After(Evaluated(Current(s), p, true, Policy(env, s, PlanFacts(p)).reason), CheckBudget(env, s, p, tick));
            var known := s.activeBudget.value in s.budgets;
            var ending := if !known then Raised else if Covered(s, p) && !Vetoed(s) then Granted else Denied;
            && Preambles(preamble) && 0 < |preamble| <= |r.published| && r.published[..|preamble|] == preamble
            && preamble[0] == Evaluated(Current(s), p, true, Policy(env, s, PlanFacts(p)).reason)[0]
            && (if known then |preamble| >= 2 && preamble[1] == Checked(s.budgets[s.activeBudget.value], p)[0] else |preamble| == 1)
            && Ends(r.published[|preamble|..], ending, p.planId, p.actions)
            && r.state.budgets == (if ending == Granted
                                   then var b := s.budgets[s.activeBudget.value]; s.budgets[b.id := Charged(b, p)]
                                   else s.budgets)
  {
    hide Vetoed, By, Policy, PlanFacts, PlanVerdict, Checked, Covered, OnlyDecides, Advise, Deny;
    PlanVerdictIs(env, s, p);
    var evaluated := Evaluated(Current(s), p, true, Policy(env, s, PlanFacts(p)).reason);
    if s.activeBudget.value !in s.budgets {
      preamble := evaluated;
      assert (evaluated + [])[|preamble|..] == [];
    } else {
      var checked := CheckShape(env, s, p, tick);
      Prefixed(evaluated, checked, CheckBudget(env, s, p, tick).published);
      preamble := evaluated + checked;
    }
  }

  // ---------------------------------------------------------------- budgets are conserved

  /** The stores after a list of events, the first of them delivery number `tick`. */
  ghost function Govern(env: Env, s: GState, events: seq<Event>, tick: nat): GState {
    if events == [] then s
    else var n := |events| - 1; Step(env, Govern(env, s, events[..n], tick), events[n], tick + n).state
  }

  /** The plan's costs if delivering the event grants it on the budget path, nothing otherwise. */
  ghost function Charge(env: Env, s: GState, e: Event, tick: nat): (real, real) {
    if e.body.OfExecutive? && e.body.x.PlanProposed? && (exists q <- Step(env, s, e, tick).published :: Grants(q))
    then (e.body.x.attention, e.body.x.capital) else (0.0, 0.0)
  }

  ghost function Charges(env: Env, s: GState, events: seq<Event>, tick: nat): (real, real) {
    if events == [] then (0.0, 0.0)
    else
      var n := |events| - 1;
      var before, last := Charges(env, s, events[..n], tick), Charge(env, Govern(env, s, events[..n], tick), events[n], tick + n);
      (before.0 + last.0, before.1 + last.1)
  }

  ghost predicate Funded(s: GState) {
    s.activeBudget.Some? && s.activeBudget.value in s.budgets && s.budgets[s.activeBudget.value].id == s.activeBudget.value
  }

  function Available(s: GState): (real, real)
    requires s.activeBudget.Some? && s.activeBudget.value in s.budgets
  {
    (s.budgets[s.activeBudget.value].attention, s.budgets[s.activeBudget.value].capital)
  }

  /** A plan's reaction holds a grant exactly when it ends in one. */
  lemma GrantsOnlyAtTheEnd(env: Env, s: GState, p: ExecutiveEvent, tick: nat)
    requires p.PlanProposed?
    ensures (exists q <- OnPlanProposed(env, s, p, tick).published :: Grants(q)) <==> EndingOf(env, s, p) == Granted
  {
    hide OnPlanProposed, EndingOf, Passes, Covered, Vetoed;
    var preamble := PlanDecision(env, s, p, tick);
    var ps := OnPlanProposed(env, s, p, tick).published;
    assert ps == preamble + ps[|preamble|..];
    if EndingOf(env, s, p) == Granted {
      assert ps[|preamble|..][0] in ps;
    }
  }

  lemma PlanCharges(env: Env, s: GState, p: ExecutiveEvent, tick: nat)
    requires p.PlanProposed? && Funded(s)
    ensures var s', granted := OnPlanProposed(env, s, p, tick).state, EndingOf(env, s, p) == Granted;
            && Funded(s') && s'.activeBudget == s.activeBudget
            && Available(s') == (if granted then (Available(s).0 - p.attention, Available(s).1 - p.capital) else Available(s))
            && (granted ==> p.attention <= Available(s).0 && p.capital <= Available(s).1)
  {
    hide OnPlanProposed, EndingOf, Passes, Vetoed, Ends, Preambles;
    var preamble := PlanDecision(env, s, p, tick);
  }

  lemma StepCharges(env: Env, s: GState, e: Event, tick: nat)
    requires Funded(s)
    ensures var s', c := Step(env, s, e, tick).state, Charge(env, s, e, tick);
            && Funded(s') && s'.activeBudget == s.activeBudget
            && Available(s') == (Available(s).0 - c.0, Available(s).1 - c.1)
            && (Available(s).0 >= 0.0 ==> Available(s').0 >= 0.0) && (Available(s).1 >= 0.0 ==> Available(s').1 >= 0.0)
  {
    hide OnPlanProposed, OnResearchSpendRequested, OnGovernance, OnRevisionCompleted, EndingOf;
    if e.body.OfExecutive? && e.body.x.PlanProposed? {
      PlanCharges(env, s, e.body.x, tick);
      GrantsOnlyAtTheEnd(env, s, e.body.x, tick);
    } else {
      OthersKeepBudgets(env, s, e, tick);
    }
  }

  lemma OthersKeepBudgets(env: Env, s: GState, e: Event, tick: nat)
    requires !(e.body.OfExecutive? && e.body.x.PlanProposed?)
    ensures var s' := Step(env, s, e, tick).state; s'.budgets == s.budgets && s'.activeBudget == s.activeBudget
  {
    hide OnPlanProposed, OnResearchSpendRequested, OnRevisionCompleted, OnGovernance, By;

  }

  /**
   From a funding on, whatever is delivered: what is available is what was funded less the costs of
   the plans granted on the budget path (escalated plans cost nothing), and it never goes negative.
   */
  lemma {:induction false} BudgetsAreConserved(env: Env, s: GState, events: seq<Event>, tick: nat)
    requires Funded(s)
    ensures var s', c := Govern(env, s, events, tick), Charges(env, s, events, tick);
            && Funded(s') && s'.activeBudget == s.activeBudget
            && Available(s') == (Available(s).0 - c.0, Available(s).1 - c.1)
            && (Available(s).0 >= 0.0 && Available(s).1 >= 0.0 ==> Available(s').0 >= 0.0 && Available(s').1 >= 0.0)
  {
    hide Step, Charge;
    if events != [] {
      var n := |events| - 1;
      BudgetsAreConserved(env, s, events[..n], tick);
      StepCharges(env, Govern(env, s, events[..n], tick), events[n], tick + n);
    }
  }

  // ---------------------------------------------------------------- the rolling research window

  /** The clock never runs backwards, though the record is stamped after the decision has read it. */
  ghost predicate Monotonic(env: Env) {
    forall t: nat :: env.now(t) <= env.stamp(t) <= env.now(t + 1)
  }

  /** The constitution in force caps research at `limit` per `window` seconds, judged by the default rules. */
  ghost predicate Metered(env: Env, s: GState, limit: real, window: real) {
    && env.library == DefaultRules(env.text)
    && s.constitutions != []
    && var args := FindRuleArgs(RulesInForce(s), RESEARCH_BUDGET);
       && args.Some? && args.value != [] && env.text.parseReal(args.value[0]) == Some(limit)
       && WindowSeconds(env.text, args.value) == Some(window)
  }

  /** Approved spending stamped in the window that ends at t. */
  function InWindow(research: seq<Spend>, t: real, window: real): seq<Spend> {
    Filter(research, (r: Spend) => r.approved && t - window <= r.time <= t)
  }

  /** Non-negative approved costs, none stamped after `latest`. */
  ghost predicate Sound(research: seq<Spend>, latest: real) {
    forall r <- research :: r.time <= latest && (r.approved ==> r.cost >= 0.0)
  }

  lemma {:induction false} SumOfFewer(research: seq<Spend>, p: Spend -> bool, q: Spend -> bool)
    requires forall r <- research :: p(r) ==> q(r)
    requires forall r <- research :: q(r) ==> r.cost >= 0.0
    ensures Sum(Filter(research, p), CostOf) <= Sum(Filter(research, q), CostOf)
  {
    if research != [] {
      SumOfFewer(research[1..], p, q);
      SumConcat(Kept(p, research[0]), Filter(research[1..], p), CostOf);
      SumConcat(Kept(q, research[0]), Filter(research[1..], q), CostOf);
      SumOfKept(p, research[0]);
      SumOfKept(q, research[0]);
    }
  }

  lemma SumOfKept(p: Spend -> bool, r: Spend)
    ensures Sum(Kept(p, r), CostOf) == if p(r) then r.cost else 0.0
  {
    assert [r][1..] == [];
  }

  /** An approval means the whole window ending now, this request included, is within the limit. */
  lemma ApprovalRespectsLimit(env: Env, s: GState, x: ExecutiveEvent, tick: nat, limit: real, window: real)
    requires Metered(env, s, limit, window) && x.ResearchSpendRequested?
    requires var v := Policy(env, s, ResearchFacts(s, x, env.now(tick) - window));
             v.Verdict? && v.passed
    ensures Sum(ApprovedSince(s.research, env.now(tick) - window), CostOf) + x.cost <= limit
  {
    hide DefaultRules, AtMostReal, ParseRule, ApprovedSince;
    var rules, f := Current(s).rules, ResearchFacts(s, x, env.now(tick) - window);
    PassesIffEveryRuleIsSatisfied(env.library, rules, f);
    var rule := FoundRuleIsDeclared(rules, RESEARCH_BUDGET);
    ResearchBudgetRule(env.text, f, ParseRule(rule).1);
    assert FindingFor(env.library, f, rule).Satisfied?;
    SatisfiedWithinLimit(env.text, f.spend.value, ParseRule(rule).1, limit);
  }

  lemma SatisfiedWithinLimit(n: Notation, spend: real, args: seq<string>, limit: real)
    requires args != [] && n.parseReal(args[0]) == Some(limit)
    requires AtMostReal(n, Some(spend), "research_spend_in_window", "research_budget", args).Satisfied?
    ensures spend <= limit
  {
  }

  /** A request adds at most one record, stamped when it was recorded; an approved one was within the limit. */
  lemma ResearchRecorded(env: Env, s: GState, x: ExecutiveEvent, tick: nat, limit: real, window: real)
    requires Metered(env, s, limit, window) && x.ResearchSpendRequested?
    ensures var research := OnResearchSpendRequested(env, s, x, tick).state.research;
            research == s.research
            || (|research| == |s.research| + 1 && research == s.research + [research[|s.research|]] &&
                var r := research[|s.research|];
                && r.time == env.stamp(tick) && r.cost == x.cost
                && (r.approved ==> Sum(ApprovedSince(s.research, env.now(tick) - window), CostOf) + x.cost <= limit))
  {
    hide ResearchFacts, ApprovedSince, DefaultRules, FindRuleArgs, WindowSeconds, Policy, By, OnlyRecordsResearch;
    var v := Policy(env, s, ResearchFacts(s, x, env.now(tick) - window));
    if v.Verdict? && v.passed { ApprovalRespectsLimit(env, s, x, tick, limit, window); }
    assert OnResearchSpendRequested(env, s, x, tick).state.research ==
      if v.Raises? then s.research
      else DecideResearch(s, x, v.passed, if v.passed then env.text.say(WithinResearchBudget) else v.reason, env.stamp(tick)).state.research;
  }

  lemma WindowGrows(env: Env, research: seq<Spend>, r: Spend, tick: nat, t: real, limit: real, window: real)
    requires Monotonic(env) && Sound(research, env.now(tick)) && r.time == env.stamp(tick) && (r.approved ==> r.cost >= 0.0)
    requires r.approved ==> Sum(ApprovedSince(research, env.now(tick) - window), CostOf) + r.cost <= limit
    requires InWindow(research, t, window) == [] || Sum(InWindow(research, t, window), CostOf) <= limit
    ensures Sound(research + [r], env.now(tick + 1))
    ensures InWindow(research + [r], t, window) == [] || Sum(InWindow(research + [r], t, window), CostOf) <= limit
  {
    var within, since := (r: Spend) => r.approved && t - window <= r.time <= t, (r: Spend) => r.approved && r.time >= env.now(tick) - window;
    FilterSnoc(research, r, within);
    SumConcat(InWindow(research, t, window), Kept(within, r), CostOf);
    SumOfKept(within, r);
    assert env.now(tick) <= env.stamp(tick) <= env.now(tick + 1);
    if within(r) {
      SumOfFewer(research, within, since);
    }
  }

  lemma OthersLeaveResearch(env: Env, s: GState, e: Event, tick: nat)
    requires !(e.body.OfExecutive? && e.body.x.ResearchSpendRequested?)
    ensures Step(env, s, e, tick).state.research == s.research
  {
    hide OnPlanProposed, OnResearchSpendRequested, OnRevisionCompleted, OnGovernance, By;

  }

  lemma WindowStep(env: Env, s: GState, e: Event, tick: nat, t: real, limit: real, window: real)
    requires Monotonic(env) && Metered(env, s, limit, window) && Sound(s.research, env.now(tick))
    requires InWindow(s.research, t, window) == [] || Sum(InWindow(s.research, t, window), CostOf) <= limit
    requires e.body.OfExecutive? && e.body.x.ResearchSpendRequested? ==> e.body.x.cost >= 0.0
    ensures var research := Step(env, s, e, tick).state.research;
            && Sound(research, env.now(tick + 1))
            && (InWindow(research, t, window) == [] || Sum(InWindow(research, t, window), CostOf) <= limit)
  {
    hide OnResearchSpendRequested, InWindow, ApprovedSince, OnPlanProposed, OnGovernance, OnRevisionCompleted, Metered;
    assert env.now(tick) <= env.stamp(tick) <= env.now(tick + 1);
    if e.body.OfExecutive? && e.body.x.ResearchSpendRequested? {
      ResearchRecorded(env, s, e.body.x, tick, limit, window);
      var research := OnResearchSpendRequested(env, s, e.body.x, tick).state.research;
      if research != s.research {
        var r := research[|s.research|];
        WindowGrows(env, s.research, r, tick, t, limit, window);
      }
    } else {
      OthersLeaveResearch(env, s, e, tick);
    }
  }

  /** No amendment is adopted, and every cost asked for is non-negative. */
  ghost predicate OneRegime(events: seq<Event>) {
    forall e <- events :: && !(e.body.OfGovernor? && e.body.g.ConstitutionAmended?)
                          && (e.body.OfExecutive? && e.body.x.ResearchSpendRequested? ==> e.body.x.cost >= 0.0)
  }

  lemma RegimeKept(env: Env, s: GState, e: Event, tick: nat)
    requires !(e.body.OfGovernor? && e.body.g.ConstitutionAmended?)
    ensures Step(env, s, e, tick).state.constitutions == s.constitutions
  {
    hide OnPlanProposed, OnResearchSpendRequested, OnRevisionCompleted, OnGovernance, By;

  }

  lemma {:induction false} RegimeLasts(env: Env, s: GState, events: seq<Event>, tick: nat)
    requires OneRegime(events)
    ensures Govern(env, s, events, tick).constitutions == s.constitutions
  {
    hide Step;
    if events != [] {
      var n := |events| - 1;
      assert events[n] in events && forall e <- events[..n] :: e in events;
      RegimeLasts(env, s, events[..n], tick);
      RegimeKept(env, Govern(env, s, events[..n], tick), events[n], tick + n);
    }
  }

  /** The approved spending stamped in the window before t is within the limit, unless there is none at all. */
  ghost predicate Bounded(research: seq<Spend>, t: real, limit: real, window: real) {
    InWindow(research, t, window) == [] || Sum(InWindow(research, t, window), CostOf) <= limit
  }

  /**
   Under one constitution with a research budget of `limit` per `window` seconds, and from any ledger that so far has
   kept it, at every instant the approved spending stamped in the window before it is within the limit.
   */
  lemma {:induction false} RollingWindowIsBounded(env: Env, s: GState, events: seq<Event>, tick: nat, t: real,
        limit: real, window: real)
    requires Monotonic(env) && Metered(env, s, limit, window) && OneRegime(events)
    requires Sound(s.research, env.now(tick)) && Bounded(s.research, t, limit, window)
    ensures var research := Govern(env, s, events, tick).research;
            Sound(research, env.now(tick + |events|)) && Bounded(research, t, limit, window)
  {
    hide Step, DefaultRules, FindRuleArgs, WindowSeconds;
    if events != [] {
      var n := |events| - 1;
      assert events[n] in events && forall e <- events[..n] :: e in events;
      RollingWindowIsBounded(env, s, events[..n], tick, t, limit, window);
      RegimeLasts(env, s, events[..n], tick);
      WindowStep(env, Govern(env, s, events[..n], tick), events[n], tick + n, t, limit, window);
    }
  }

  // ---------------------------------------------------------------- snapshots rebuild what is pending

  /** The maps a restore would rebuild from the logs are the maps held. */
  ghost predicate Rebuildable(s: GState) {
    s.pendingAmendments == RebuiltAmendments(s.amendments) && s.pendingEscalations == RebuiltEscalations(s.escalations)
  }

  lemma AmendmentAppended(records: seq<Amendment>, a: Amendment)
    ensures RebuiltAmendments(records + [a])
         == if a.status == IsProposed then RebuiltAmendments(records)[a.id := Candidate(a)] else RebuiltAmendments(records) - {a.id}
  {
    LatestSnoc(records, a, AmendmentId);
  }

  lemma EscalationAppended(records: seq<Escalation>, x: Escalation)
    ensures RebuiltEscalations(records + [x])
         == if x.pending then RebuiltEscalations(records)[x.id := x] else RebuiltEscalations(records) - {x.id}
  {
    LatestSnoc(records, x, EscalationId);
  }

  lemma {:induction false} FirstAmendmentFound(records: seq<Amendment>, id: Id)
    requires exists a <- records :: a.id == id
    ensures FirstAmendment(records, id).Some?
  {
    if records[0].id != id {
      var a :| a in records && a.id == id;
      assert a in records[1..];
      FirstAmendmentFound(records[1..], id);
    }
  }

  lemma PendingWasProposed(s: GState, id: Id)
    requires Rebuildable(s) && id in s.pendingAmendments
    ensures FirstAmendment(s.amendments, id).Some?
  {
    LatestMember(s.amendments, AmendmentId, id);
    FirstAmendmentFound(s.amendments, id);
  }

  lemma AmendmentsRebuildable(s: GState, g: GovernorEvent, time: real)
    requires Rebuildable(s)
    ensures g.AmendmentProposed? ==> Rebuildable(OnAmendmentProposed(s, g, time).state)
    ensures g.ConstitutionAmended? ==> Rebuildable(OnAmendmentApproved(s, g, time).state)
    ensures g.AmendmentRejected? ==> Rebuildable(OnAmendmentRejected(s, g, time).state)
  {
    if (g.ConstitutionAmended? || g.AmendmentRejected?) && g.amendmentId in s.pendingAmendments {
      PendingWasProposed(s, g.amendmentId);
    }
    var s' := if g.AmendmentProposed? then OnAmendmentProposed(s, g, time).state
              else if g.ConstitutionAmended? then OnAmendmentApproved(s, g, time).state
              else if g.AmendmentRejected? then OnAmendmentRejected(s, g, time).state else s;
    hide RebuiltAmendments, RebuiltEscalations;
    if s'.amendments != s.amendments {
      AmendmentAppended(s.amendments, s'.amendments[|s'.amendments| - 1]);
    }
  }

  lemma EscalationsRebuildable(env: Env, s: GState, g: GovernorEvent, time: real, tick: nat)
    requires Rebuildable(s)
    ensures g.EscalationCreated? ==> Rebuildable(OnEscalationCreated(s, g, time).state)
    ensures g.EscalationResolved? ==> Rebuildable(OnEscalationResolved(env, s, g, time, tick).state)
  {
    hide RebuiltAmendments, RebuiltEscalations, By;
    var s' := if g.EscalationCreated? then OnEscalationCreated(s, g, time).state
              else if g.EscalationResolved? then OnEscalationResolved(env, s, g, time, tick).state else s;
    if s'.escalations != s.escalations {
      EscalationAppended(s.escalations, s'.escalations[|s'.escalations| - 1]);
    }
  }

  /** Whatever is delivered, restoring the two logs rebuilds exactly the two pending maps. */
  lemma StepRebuildable(env: Env, s: GState, e: Event, tick: nat)
    requires Rebuildable(s)
    ensures Rebuildable(Step(env, s, e, tick).state)
  {
    hide OnPlanProposed, OnResearchSpendRequested, OnRevisionCompleted, OnGovernance, RebuiltAmendments,
         RebuiltEscalations, By;
    if e.body.OfGovernor? { GovernanceRebuildable(env, s, e.body.g, e.time, tick); }
  }

  lemma GovernanceRebuildable(env: Env, s: GState, g: GovernorEvent, time: real, tick: nat)
    requires Rebuildable(s)
    ensures Rebuildable(OnGovernance(env, s, g, time, tick).state)
  {
    hide Rebuildable, By, OnAmendmentProposed, OnAmendmentApproved, OnAmendmentRejected, OnEscalationCreated,
         OnEscalationResolved;
    AmendmentsRebuildable(s, g, time);
    EscalationsRebuildable(env, s, g, time, tick);
  }

  lemma {:induction false} AlwaysRebuildable(env: Env, events: seq<Event>, tick: nat)
    ensures Rebuildable(Govern(env, Initial(), events, tick))
  {
    hide Step;
    if events == [] {
      assert Rebuildable(Initial());
    } else {
      var n := |events| - 1;
      AlwaysRebuildable(env, events[..n], tick);
      StepRebuildable(env, Govern(env, Initial(), events[..n], tick), events[n], tick + n);
    }
  }
}
