/** Why a plan is decided as it is: reasons, numbers compared, knowledge weighed. */
module Explanations {
  import opened Prelude
  import opened Ordering
  import opened Events
  import opened Rules
  import opened GovernorModel
  import opened GovernorTheorems

  // ---------------------------------------------------------------- plans that learned knowledge has no say in

  predicate Refuses(p: Payload, planId: Id, reason: string) {
    p.OfGovernor? && p.g.ApprovalDenied? && p.g.planId == planId && p.g.reason == reason
  }

  predicate Judges(p: Payload, planId: Id, constitutionId: Id, passed: bool, reason: string) {
    p == OfGovernor(PolicyEvaluated(planId, constitutionId, passed, reason))
  }

  /** The plan's two costs beside the two balances they are compared with. */
  predicate Compares(p: Payload, x: ExecutiveEvent, budget: Budget, sufficient: bool)
    requires x.PlanProposed?
  {
    p == OfGovernor(BudgetChecked(x.planId, budget.id, x.attention, budget.attention, x.capital, budget.capital, sufficient))
  }

  predicate Escalates(ps: seq<Payload>, x: ExecutiveEvent, reason: string)
    requires x.PlanProposed?
  {
    && |ps| == 2 && ps[0] == OfGovernor(ApprovalRequired(x.planId, reason))
    && ps[1].OfGovernor? && ps[1].g.EscalationCreated? && ps[1].g.planId == x.planId && ps[1].g.reason == reason && ps[1].g.actions == x.actions
  }

  /** Without a constitution, or without a budget, the plan goes to the owner, with that as the reason. */
  lemma EscalationIsExplained(env: Env, s: GState, x: ExecutiveEvent, tick: nat)
    requires x.PlanProposed? && (s.constitutions == [] || s.activeBudget.None?)
    ensures Escalates(OnPlanProposed(env, s, x, tick).published, x, env.text.say(if s.constitutions == [] then NoConstitution else NoBudget))
  {
    hide By;
  }

  /** A plan against policy is refused with the rules' own reason, and no budget is looked at. */
  lemma PolicyRefusalIsExplained(env: Env, s: GState, x: ExecutiveEvent, tick: nat)
    requires x.PlanProposed? && s.constitutions != [] && s.activeBudget.Some? && PlanVerdict(env, s, x).Verdict? && !Passes(env, s, x)
    ensures var ps, reason := OnPlanProposed(env, s, x, tick).published, PlanVerdict(env, s, x).reason;
            |ps| == 2 && Judges(ps[0], x.planId, Current(s).id, false, reason) && Refuses(ps[1], x.planId, reason)
  {
    hide By, Evaluate, Policy, PlanFacts, CheckBudget, PlanVerdict;
    PlanVerdictIs(env, s, x);
  }

  /** A plan the budget does not cover is refused for the balance, or balances, that fall short. */
  lemma ShortfallIsExplained(env: Env, s: GState, x: ExecutiveEvent, tick: nat)
    requires x.PlanProposed? && Passes(env, s, x) && s.activeBudget.Some? && s.activeBudget.value in s.budgets && !Covered(s, x)
    ensures var ps, budget := OnPlanProposed(env, s, x, tick).published, s.budgets[s.activeBudget.value];
            && |ps| == 3 && Judges(ps[0], x.planId, Current(s).id, true, PlanVerdict(env, s, x).reason)
            && Compares(ps[1], x, budget, false)
            && Refuses(ps[2], x.planId, env.text.say(Shortfall(x.attention <= budget.attention, x.capital <= budget.capital)))
  {
    hide By, Evaluate, Policy, PlanFacts, Advise, PlanVerdict;
    PlanVerdictIs(env, s, x);
  }

  // ---------------------------------------------------------------- everything learned is weighed

  /** The piece of knowledge that is i-th by its id. */
  ghost function Nth(m: map<Id, Knowledge>, i: nat): Option<Knowledge> {
    var ids := SortedSet(m.Keys, IdLe);
    if i < |ids| then Lookup(m, ids[i]) else None
  }

  lemma NthIs(m: map<Id, Knowledge>)
    ensures |InOrder(m)| == |m| && forall i: nat :: i < |m| ==> Nth(m, i) == Some(InOrder(m)[i])
  {
    var ids := SortedSet(m.Keys, IdLe);
    SortedSetMembers(m.Keys, IdLe);
    ProjectTotal(ids, (id: Id) => Lookup(m, id));
    assert |m.Keys| == |m|;
  }

  /** Knowledge held with consensus of a half or more is applied, the rest ignored; either way it is said for which plan and why. */
  predicate Weighs(p: Payload, n: Notation, k: Knowledge, phrases: (Phrase, Phrase), planId: Id) {
    p.OfGovernor? &&
    if k.consensus >= 0.5
    then p.g.KnowledgeApplied? && p.g.knowledgeId == k.id && p.g.knowledgeType == k.kind && p.g.planId == planId
         && p.g.decision == (if k.kind == "anti_pattern" then "deny" else "support") && p.g.reason == n.say(phrases.0)
    else p.g.KnowledgeIgnored? && p.g.knowledgeId == k.id && p.g.knowledgeType == k.kind && p.g.planId == planId
         && p.g.reason == n.say(phrases.1)
  }

  predicate WarnsOf(p: Payload, n: Notation, k: Option<Knowledge>, planId: Id) {
    k.Some? && Weighs(p, n, k.value, (Enforced(k.value.id, k.value.summary), NotEnforced(k.value.id)), planId)
  }

  predicate Recommends(p: Payload, n: Notation, k: Option<Knowledge>, planId: Id) {
    k.Some? && Weighs(p, n, k.value, (Supported(k.value.id, k.value.summary), NotSupported(k.value.id)), planId)
  }

  /** The record of a weighing says what was said of it. */
  predicate Remembers(a: Application, p: Payload) {
    && p.OfGovernor?
    && match p.g
       case KnowledgeApplied(id, knowledgeId, kind, planId, _, reason) => a == Application(id, knowledgeId, kind, planId, true, reason)
       case KnowledgeIgnored(id, knowledgeId, kind, planId, reason) => a == Application(id, knowledgeId, kind, planId, false, reason)
       case _ => false
  }

  /** The weighings published from position `at` on: anti-patterns, then playbooks, each by id. */
  ghost predicate Weighed(ps: seq<Payload>, at: nat, n: Notation, s: GState, planId: Id) {
    var a, b := |s.antiPatterns|, |s.playbooks|;
    && at + a + b <= |ps|
    && (forall i: nat :: i < a ==> WarnsOf(ps[at + i], n, Nth(s.antiPatterns, i), planId))
    && (forall i: nat :: i < b ==> Recommends(ps[at + a + i], n, Nth(s.playbooks, i), planId))
  }

  ghost predicate Remembered(more: seq<Application>, ps: seq<Payload>, at: nat) {
    at + |more| <= |ps| && forall i: nat :: i < |more| ==> Remembers(more[i], ps[at + i])
  }

  lemma NoticeWeighs(n: Notation, k: Knowledge, planId: Id, tick: nat, i: nat)
    ensures WarnsOf(Notice(WeighAntiPattern(n, k), planId, tick, i), n, Some(k), planId)
    ensures Recommends(Notice(WeighPlaybook(n, k), planId, tick, i), n, Some(k), planId)
  {
  }

  lemma RecordRemembers(w: Weighing, planId: Id, tick: nat, i: nat)
    ensures Remembers(Record(w, planId, tick, i), Notice(w, planId, tick, i))
  {
  }

  lemma NoticesWeigh(n: Notation, s: GState, planId: Id, tick: nat)
    ensures var ws := AntiPatternWeighings(n, s) + PlaybookWeighings(n, s);
            && |ws| == |s.antiPatterns| + |s.playbooks|
            && Weighed(Notices(ws, planId, tick), 0, n, s, planId)
            && Remembered(Records(ws, planId, tick), Notices(ws, planId, tick), 0)
  {
    hide By, InOrder, Nth, Notice, Record, WeighAntiPattern, WeighPlaybook, WarnsOf, Recommends, Remembers;
    NthIs(s.antiPatterns);
    NthIs(s.playbooks);
    var a, ws := |s.antiPatterns|, AntiPatternWeighings(n, s) + PlaybookWeighings(n, s);
    var ps := Notices(ws, planId, tick);
    forall i: nat | i < a ensures WarnsOf(ps[0 + i], n, Nth(s.antiPatterns, i), planId) {
      NoticeWeighs(n, InOrder(s.antiPatterns)[i], planId, tick, i);
    }
    forall i: nat | i < |s.playbooks| ensures Recommends(ps[0 + a + i], n, Nth(s.playbooks, i), planId) {
      NoticeWeighs(n, InOrder(s.playbooks)[i], planId, tick, a + i);
    }
    forall i: nat | i < |ws| ensures Remembers(Records(ws, planId, tick)[i], ps[0 + i]) {
      RecordRemembers(ws[i], planId, tick, i);
    }
  }

  lemma WeighedBehind(first: seq<Payload>, notices: seq<Payload>, last: seq<Payload>, n: Notation, s: GState, planId: Id)
    requires Weighed(notices, 0, n, s, planId)
    ensures Weighed(first + notices + last, |first|, n, s, planId)
  {
    hide WarnsOf, Recommends, Nth;
    var ps, a, b := first + notices + last, |s.antiPatterns|, |s.playbooks|;
    forall i: nat | i < a ensures WarnsOf(ps[|first| + i], n, Nth(s.antiPatterns, i), planId) { assert ps[|first| + i] == notices[i]; }
    forall i: nat | i < b ensures Recommends(ps[|first| + a + i], n, Nth(s.playbooks, i), planId) { assert ps[|first| + a + i] == notices[a + i]; }
  }

  lemma RememberedBehind(more: seq<Application>, first: seq<Payload>, notices: seq<Payload>, last: seq<Payload>)
    requires Remembered(more, notices, 0)
    ensures Remembered(more, first + notices + last, |first|)
  {
    hide Remembers;
    forall i: nat | i < |more| ensures Remembers(more[i], (first + notices + last)[|first| + i]) {
      assert (first + notices + last)[|first| + i] == notices[i];
    }
  }

  /** A plan that policy and budget allow: what is announced is the policy, the budget, the weighing of all that is known, and the ruling. */
  lemma AllowedPlanIs(env: Env, s: GState, x: ExecutiveEvent, tick: nat)
    requires x.PlanProposed? && Passes(env, s, x) && Covered(s, x)
    ensures var budget, ws := s.budgets[s.activeBudget.value], AntiPatternWeighings(env.text, s) + PlaybookWeighings(env.text, s);
            var ruled := Rule(env, s.(applications := s.applications + Records(ws, x.planId, tick)), x, budget, tick);
            var r, policy := OnPlanProposed(env, s, x, tick), PlanVerdict(env, s, x);
            && r.published == Evaluated(Current(s), x, true, policy.reason) + Checked(budget, x) + Notices(ws, x.planId, tick) + ruled.published
            && r.state == ruled.state
  {
    hide By, Evaluate, Policy, PlanFacts, PlanVerdict, Rule, AntiPatternWeighings, PlaybookWeighings, Notices, Records, Evaluated, Checked, OnlyDecides;
    PlanVerdictIs(env, s, x);
    var budget, ws := s.budgets[s.activeBudget.value], AntiPatternWeighings(env.text, s) + PlaybookWeighings(env.text, s);
    var ruled := Rule(env, s.(applications := s.applications + Records(ws, x.planId, tick)), x, budget, tick);
    var policy, checked, notices := Evaluated(Current(s), x, true, PlanVerdict(env, s, x).reason), Checked(budget, x), Notices(ws, x.planId, tick);
    assert policy + (checked + (notices + ruled.published)) == policy + checked + notices + ruled.published;
  }

  /** The reasons the playbooks that apply lend, by id. */
  ghost function Support(n: Notation, playbooks: map<Id, Knowledge>): seq<string> {
    Project(InOrder(playbooks), (k: Knowledge) => if k.consensus >= 0.5 then Some(n.say(Supported(k.id, k.summary))) else None)
  }

  /** The i-th anti-pattern is the first that reaches the threshold. */
  ghost predicate FirstEnforced(s: GState, i: nat) {
    && Nth(s.antiPatterns, i).Some? && Nth(s.antiPatterns, i).value.consensus >= 0.5
    && forall j: nat :: j < i && Nth(s.antiPatterns, j).Some? ==> Nth(s.antiPatterns, j).value.consensus < 0.5
  }

  /** The ruling on a plan that policy and budget allow. */
  ghost predicate RulesOn(p: Payload, n: Notation, s: GState, x: ExecutiveEvent)
    requires x.PlanProposed?
  {
    if Vetoed(s)
    then exists i: nat :: FirstEnforced(s, i) && var k := Nth(s.antiPatterns, i).value; Refuses(p, x.planId, n.say(Enforced(k.id, k.summary)))
    else Grants(p) && p.g.planId == x.planId && p.g.actions == x.actions && p.g.reason == n.say(WithinPolicyAndBudget(Support(n, s.playbooks)))
  }

  lemma {:induction false} FirstOfProject<T, U>(xs: seq<T>, f: T -> Option<U>) returns (i: nat)
    requires Project(xs, f) != []
    ensures i < |xs| && f(xs[i]) == Some(Project(xs, f)[0]) && forall j :: 0 <= j < i ==> f(xs[j]) == None
  {
    if f(xs[0]).Some? {
      i := 0;
    } else {
      i := FirstOfProject(xs[1..], f);
      i := i + 1;
    }
  }

  lemma {:induction false} ProjectAlike<T, U, W>(xs: seq<T>, ys: seq<U>, f: T -> Option<W>, g: U -> Option<W>)
    requires |xs| == |ys| && forall i :: 0 <= i < |xs| ==> f(xs[i]) == g(ys[i])
    ensures Project(xs, f) == Project(ys, g)
  {
    if xs != [] {
      forall i | 0 <= i < |xs[1..]| ensures f(xs[1..][i]) == g(ys[1..][i]) { assert f(xs[i + 1]) == g(ys[i + 1]); }
      ProjectAlike(xs[1..], ys[1..], f, g);
    }
  }

  lemma SupportIs(n: Notation, s: GState)
    ensures Project(PlaybookWeighings(n, s), AppliedReason) == Support(n, s.playbooks)
  {
    hide InOrder, Project;
    ProjectAlike(PlaybookWeighings(n, s), InOrder(s.playbooks), AppliedReason,
                 (k: Knowledge) => if k.consensus >= 0.5 then Some(n.say(Supported(k.id, k.summary))) else None);
  }

  lemma VetoIsFirst(n: Notation, s: GState)
    requires Project(AntiPatternWeighings(n, s), AppliedReason) != []
    ensures exists i: nat :: FirstEnforced(s, i) && var k := Nth(s.antiPatterns, i).value;
            Project(AntiPatternWeighings(n, s), AppliedReason)[0] == n.say(Enforced(k.id, k.summary))
  {
    hide InOrder, Project, Nth;
    NthIs(s.antiPatterns);
    var i := FirstOfProject(AntiPatternWeighings(n, s), AppliedReason);
    assert Nth(s.antiPatterns, i) == Some(InOrder(s.antiPatterns)[i]);
    forall j: nat | j < i && Nth(s.antiPatterns, j).Some? ensures Nth(s.antiPatterns, j).value.consensus < 0.5 {
      assert AppliedReason(AntiPatternWeighings(n, s)[j]) == None;
    }
    assert FirstEnforced(s, i);
  }

  lemma RulingIs(env: Env, s: GState, x: ExecutiveEvent, budget: Budget, tick: nat)
    requires x.PlanProposed?
    ensures var r := Rule(env, s, x, budget, tick);
            |r.published| == 1 && RulesOn(r.published[0], env.text, s, x) && r.state.applications == s.applications
  {
    VetoIffEnforceable(env.text, s);
    SupportIs(env.text, s);
    hide AntiPatternWeighings, PlaybookWeighings, Project, Vetoed, By, FirstEnforced, Nth, Support;
    if Vetoed(s) { VetoIsFirst(env.text, s); }
  }

  lemma SameKnowledge(p: Payload, n: Notation, s: GState, s': GState, x: ExecutiveEvent)
    requires x.PlanProposed? && RulesOn(p, n, s', x) && s'.antiPatterns == s.antiPatterns && s'.playbooks == s.playbooks
    ensures RulesOn(p, n, s, x)
  {
    hide Nth, Support;
    assert Vetoed(s) == Vetoed(s');
    if Vetoed(s) {
      var i: nat :| FirstEnforced(s', i) && var k := Nth(s'.antiPatterns, i).value; Refuses(p, x.planId, n.say(Enforced(k.id, k.summary)));
      assert FirstEnforced(s, i);
    }
  }

  /**
   A plan that policy and budget allow is weighed against every piece of knowledge held, anti-patterns before playbooks and
   each by id: applied from a consensus of a half on, else ignored; each weighing is announced and recorded; and the ruling
   is a refusal naming the first anti-pattern applied, or a grant naming every playbook applied.
   */
  lemma AllowedPlanIsExplained(env: Env, s: GState, x: ExecutiveEvent, tick: nat)
    requires x.PlanProposed? && Passes(env, s, x) && Covered(s, x)
    ensures var r, n, budget := OnPlanProposed(env, s, x, tick), |s.antiPatterns| + |s.playbooks|, s.budgets[s.activeBudget.value];
            && |r.published| == n + 3
            && Judges(r.published[0], x.planId, Current(s).id, true, PlanVerdict(env, s, x).reason) && Compares(r.published[1], x, budget, true)
            && Weighed(r.published, 2, env.text, s, x.planId)
            && RulesOn(r.published[n + 2], env.text, s, x)
            && |r.state.applications| == |s.applications| + n && s.applications <= r.state.applications
            && Remembered(r.state.applications[|s.applications|..], r.published, 2)
  {
    hide By, PlanVerdict, Rule, AntiPatternWeighings, PlaybookWeighings, Notices, Records, OnlyDecides, RulesOn, Weighed, Remembered, OnPlanProposed;
    AllowedPlanIs(env, s, x, tick);
    NoticesWeigh(env.text, s, x.planId, tick);
    var budget, ws := s.budgets[s.activeBudget.value], AntiPatternWeighings(env.text, s) + PlaybookWeighings(env.text, s);
    var weighed := s.(applications := s.applications + Records(ws, x.planId, tick));
    var ruled := Rule(env, weighed, x, budget, tick);
    RulingIs(env, weighed, x, budget, tick);
    SameKnowledge(ruled.published[0], env.text, s, weighed, x);
    var first := Evaluated(Current(s), x, true, PlanVerdict(env, s, x).reason) + Checked(budget, x);
    WeighedBehind(first, Notices(ws, x.planId, tick), ruled.published, env.text, s, x.planId);
    RememberedBehind(Records(ws, x.planId, tick), first, Notices(ws, x.planId, tick), ruled.published);
    assert (s.applications + Records(ws, x.planId, tick))[|s.applications|..] == Records(ws, x.planId, tick);
  }

  // ---------------------------------------------------------------- what is held as learned

  /** The knowledge of one kind last told under an id. */
  function LastLearned(before: map<Id, Knowledge>, events: seq<Event>, id: Id, anti: bool): Option<Knowledge> {
    if events == [] then Lookup(before, id)
    else
      var rest, e := events[..|events| - 1], events[|events| - 1];
      match e.body
      case OfMemory(RevisionCompleted(_, considered, consensus, knowledgeId, kind, summary)) =>
        if knowledgeId == id && (kind == "anti_pattern") == anti then Some(Knowledge(id, kind, summary, consensus, considered, e.time))
        else LastLearned(before, rest, id, anti)
      case _ => LastLearned(before, rest, id, anti)
  }

  lemma LessonIsHeld(s: GState, m: MemoryEvent, time: real, id: Id)
    requires m.RevisionCompleted?
    ensures var s', k := OnRevisionCompleted(s, m, time).state, Knowledge(m.knowledgeId, m.knowledgeType, m.summary, m.consensus, m.considered, time);
            var anti := m.knowledgeType == "anti_pattern";
            && Lookup(s'.antiPatterns, id) == (if anti && m.knowledgeId == id then Some(k) else Lookup(s.antiPatterns, id))
            && Lookup(s'.playbooks, id) == (if !anti && m.knowledgeId == id then Some(k) else Lookup(s.playbooks, id))
  {
  }

  lemma StepTeaches(env: Env, s: GState, e: Event, tick: nat, id: Id)
    ensures var s' := Step(env, s, e, tick).state;
            && Lookup(s'.antiPatterns, id) == LastLearned(s.antiPatterns, [e], id, true)
            && Lookup(s'.playbooks, id) == LastLearned(s.playbooks, [e], id, false)
  {
    hide OnPlanProposed, OnResearchSpendRequested, OnGovernance, OnRevisionCompleted, By;
    assert [e][..|[e]| - 1] == [];
    if e.body.OfMemory? && e.body.m.RevisionCompleted? { LessonIsHeld(s, e.body.m, e.time, id); } else { OthersTeachNothing(env, s, e, tick); }
  }

  lemma OneMoreLesson(before: map<Id, Knowledge>, now: map<Id, Knowledge>, events: seq<Event>, e: Event, id: Id, anti: bool)
    requires Lookup(now, id) == LastLearned(before, events, id, anti)
    ensures LastLearned(now, [e], id, anti) == LastLearned(before, events + [e], id, anti)
  {
    assert (events + [e])[..|events + [e]| - 1] == events && [e][..|[e]| - 1] == [];
  }

  lemma OthersTeachNothing(env: Env, s: GState, e: Event, tick: nat)
    requires !(e.body.OfMemory? && e.body.m.RevisionCompleted?)
    ensures var s' := Step(env, s, e, tick).state; s'.antiPatterns == s.antiPatterns && s'.playbooks == s.playbooks
  {
    hide OnPlanProposed, OnResearchSpendRequested, OnGovernance, By;
  }

  /** Over any events: the anti-patterns and the playbooks held are those last told, as they were told. */
  lemma {:induction false} KnowledgeIsTold(env: Env, s: GState, events: seq<Event>, tick: nat, id: Id)
    ensures var s' := Govern(env, s, events, tick);
            && Lookup(s'.antiPatterns, id) == LastLearned(s.antiPatterns, events, id, true)
            && Lookup(s'.playbooks, id) == LastLearned(s.playbooks, events, id, false)
  {
    hide Step, LastLearned;
    if events == [] {
      assert LastLearned(s.antiPatterns, [], id, true) == Lookup(s.antiPatterns, id) by { NothingLearned(s.antiPatterns, id, true); }
      assert LastLearned(s.playbooks, [], id, false) == Lookup(s.playbooks, id) by { NothingLearned(s.playbooks, id, false); }
    } else {
      var k := |events| - 1;
      var before, e := Govern(env, s, events[..k], tick), events[k];
      KnowledgeIsTold(env, s, events[..k], tick, id);
      StepTeaches(env, before, e, tick + k, id);
      OneMoreLesson(s.antiPatterns, before.antiPatterns, events[..k], e, id, true);
      OneMoreLesson(s.playbooks, before.playbooks, events[..k], e, id, false);
      assert events[..k] + [e] == events;
    }
  }

  lemma NothingLearned(before: map<Id, Knowledge>, id: Id, anti: bool)
    ensures LastLearned(before, [], id, anti) == Lookup(before, id)
  {
  }
}
