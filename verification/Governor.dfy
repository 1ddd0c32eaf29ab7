/** The Governor object: its stores updated in place, each of its handlers held to a function of GovernorModel. */
module GovernorObject {
  import opened Prelude
  import opened Ordering
  import opened Events
  import opened Rules
  import opened GovernorModel

  lemma InOrderIs(m: map<Id, Knowledge>, ids: seq<Id>)
    requires ids == SortedSet(m.Keys, IdLe)
    ensures |InOrder(m)| == |ids| && forall i :: 0 <= i < |ids| ==> ids[i] in m && InOrder(m)[i] == m[ids[i]]
  {
    SortedSetMembers(m.Keys, IdLe);
    ProjectTotal(ids, id => Lookup(m, id));
  }

  lemma AntiPatternsWeighed(n: Notation, s: GState, ids: seq<Id>)
    requires ids == SortedSet(s.antiPatterns.Keys, IdLe)
    ensures var ws := AntiPatternWeighings(n, s);
            |ws| == |ids| && forall i :: 0 <= i < |ids| ==> ids[i] in s.antiPatterns && ws[i] == WeighAntiPattern(n, s.antiPatterns[ids[i]])
  {
    InOrderIs(s.antiPatterns, ids);
  }

  lemma PlaybooksWeighed(n: Notation, s: GState, ids: seq<Id>)
    requires ids == SortedSet(s.playbooks.Keys, IdLe)
    ensures var ws := PlaybookWeighings(n, s);
            |ws| == |ids| && forall i :: 0 <= i < |ids| ==> ids[i] in s.playbooks && ws[i] == WeighPlaybook(n, s.playbooks[ids[i]])
  {
    InOrderIs(s.playbooks, ids);
  }

  function FirstOf(reasons: seq<string>): Option<string> {
    if reasons == [] then None else Some(reasons[0])
  }

  function Applied(ws: seq<Weighing>): seq<string> {
    Project(ws, AppliedReason)
  }

  /** What the loops over learned knowledge have recorded and announced after the first n weighings. */
  ghost predicate Weighed(ws: seq<Weighing>, n: nat, planId: Id, tick: nat, applications: seq<Application>,
        published: seq<Payload>) {
    n <= |ws| && applications == Records(ws[..n], planId, tick) && published == Notices(ws[..n], planId, tick)
  }

  lemma WeighedNext(ws: seq<Weighing>, n: nat, planId: Id, tick: nat, applications: seq<Application>,
        published: seq<Payload>)
    requires n < |ws| && Weighed(ws, n, planId, tick, applications, published)
    ensures Weighed(ws, n + 1, planId, tick, applications + [Record(ws[n], planId, tick, n)], published + [Notice(ws[n], planId, tick, n)])
  {
    hide Record, Notice, By;
    assert ws[..n + 1] == ws[..n] + [ws[n]];
    assert Records(ws[..n + 1], planId, tick) == Records(ws[..n], planId, tick) + [Record(ws[n], planId, tick, n)];
    assert Notices(ws[..n + 1], planId, tick) == Notices(ws[..n], planId, tick) + [Notice(ws[n], planId, tick, n)];
  }

  lemma AppliedNext(ws: seq<Weighing>, n: nat)
    requires n < |ws|
    ensures Applied(ws[..n + 1]) == Applied(ws[..n]) + if ws[n].applied then [ws[n].reason] else []
    ensures FirstOf(Applied(ws[..n + 1]))
         == if ws[n].applied && FirstOf(Applied(ws[..n])).None? then Some(ws[n].reason) else FirstOf(Applied(ws[..n]))
  {
    assert ws[..n + 1] == ws[..n] + [ws[n]];
    ProjectSnoc(ws[..n], ws[n], AppliedReason);
  }

  lemma NothingWeighed(ws: seq<Weighing>, planId: Id, tick: nat)
    ensures Weighed(ws, 0, planId, tick, [], []) && Applied(ws[..0]) == []
    ensures ws[..|ws|] == ws
  {
    hide By;
  }

  class Governor {
    const env: Env
    const registry: RuleRegistry
    var constitutions: seq<Constitution>
    var budgets: map<string, Budget>
    var activeBudget: Option<string>
    var approvals: seq<Approval>
    var amendments: seq<Amendment>
    var pendingAmendments: map<Id, Constitution>
    var escalations: seq<Escalation>
    var pendingEscalations: map<Id, Escalation>
    var playbooks: map<Id, Knowledge>
    var antiPatterns: map<Id, Knowledge>
    var applications: seq<Application>
    var research: seq<Spend>

    ghost function State(): GState
      reads this
    {
      GState(constitutions, budgets, activeBudget, approvals, amendments, pendingAmendments, escalations, pendingEscalations,
             playbooks, antiPatterns, applications, research)
    }

    constructor (env: Env, registry: RuleRegistry)
      ensures this.env == env && this.registry == registry && State() == Initial()
    {
      this.env, this.registry := env, registry;
      constitutions, budgets, activeBudget, approvals := [], map[], None, [];
      amendments, pendingAmendments, escalations, pendingEscalations := [], map[], [], map[];
      playbooks, antiPatterns, applications, research := map[], map[], [], [];
    }

    method AdoptConstitution(constitution: Constitution)
      modifies this`constitutions
      ensures constitutions == old(constitutions) + [constitution]
    {
      constitutions := constitutions + [constitution];
    }

    method FundBudget(budget: Budget)
      modifies this`budgets, this`activeBudget
      ensures budgets == old(budgets)[budget.id := budget] && activeBudget == Some(budget.id)
    {
      budgets := budgets[budget.id := budget];
      activeBudget := Some(budget.id);
    }

    method Deny(planId: Id, reason: string, tick: nat) returns (published: seq<Payload>)
      modifies this`approvals
      ensures Reaction(State(), published) == GovernorModel.Deny(old(State()), planId, reason, tick)
    {
      hide By;
      var id := Minted(tick, Component.Governor, [0]);
      approvals := approvals + [Approval(id, planId, false, reason)];
      published := [OfGovernor(ApprovalDenied(id, planId, reason))];
    }

    method Approve(planId: Id, reason: string, actions: seq<string>, tick: nat) returns (published: seq<Payload>)
      modifies this`approvals
      ensures Reaction(State(), published) == GovernorModel.Approve(old(State()), planId, reason, actions, tick)
    {
      hide By;
      var id := Minted(tick, Component.Governor, [0]);
      approvals := approvals + [Approval(id, planId, true, reason)];
      published := [OfGovernor(ApprovalGranted(id, planId, reason, actions))];
    }

    method Grant(budget: Budget, p: ExecutiveEvent, support: seq<string>, tick: nat) returns (published: seq<Payload>)
      requires p.PlanProposed?
      modifies this`budgets, this`approvals
      ensures Reaction(State(), published) == GovernorModel.Grant(env, old(State()), budget, p, support, tick)
    {
      hide By, GovernorModel.Approve;
      budgets := budgets[budget.id := Budget(budget.id, budget.attention - p.attention, budget.capital - p.capital)];
      published := Approve(p.planId, env.text.say(WithinPolicyAndBudget(support)), p.actions, tick);
    }

    method RequireApproval(p: ExecutiveEvent, reason: string, tick: nat) returns (published: seq<Payload>)
      requires p.PlanProposed?
      ensures Reaction(State(), published) == GovernorModel.RequireApproval(State(), p, reason, tick)
    {
      hide By;
      published := [OfGovernor(ApprovalRequired(p.planId, reason))];
      published := published + [OfGovernor(EscalationCreated(Minted(tick, Component.Governor, [1]), p.planId, reason, p.actions))];
    }

    method RecordKnowledgeApplication(w: Weighing, planId: Id, tick: nat, i: nat) returns (published: Payload)
      modifies this`applications
      ensures applications == old(applications) + [Record(w, planId, tick, i)] && published == Notice(w, planId, tick, i)
    {
      applications := applications + [Record(w, planId, tick, i)];
      published := Notice(w, planId, tick, i);
    }

    /** The first loop of `_apply_knowledge`: the first applied anti-pattern, in id order, supplies the veto. */
    method ApplyAntiPatterns(planId: Id, tick: nat) returns (veto: Option<string>, published: seq<Payload>,
          weighed: nat)
      modifies this`applications
      ensures var ws := AntiPatternWeighings(env.text, old(State()));
              && weighed == |ws| && veto == FirstOf(Applied(ws))
              && applications == old(applications) + Records(ws, planId, tick) && published == Notices(ws, planId, tick)
    {
      hide By, Record, Notice, Records, Notices, AntiPatternWeighings, FirstOf, Applied, SortedSet, WeighAntiPattern;
      ghost var ws, before := AntiPatternWeighings(env.text, State()), applications;
      IdOrder();
      var ids := SortSet(antiPatterns.Keys, IdLe);
      AntiPatternsWeighed(env.text, State(), ids);
      NothingWeighed(ws, planId, tick);
      veto, published, weighed := None, [], 0;
      ghost var recorded: seq<Application> := [];
      assert FirstOf([]) == None by { NoneFirst(); }
      while weighed < |ids|
        invariant 0 <= weighed <= |ids| == |ws|
        invariant applications == before + recorded && Weighed(ws, weighed, planId, tick, recorded, published)
        invariant veto == FirstOf(Applied(ws[..weighed]))
      {
        WeighedNext(ws, weighed, planId, tick, recorded, published);
        AppliedNext(ws, weighed);
        var w := WeighAntiPattern(env.text, antiPatterns[ids[weighed]]);
        var announced := RecordKnowledgeApplication(w, planId, tick, weighed);
        recorded := recorded + [Record(w, planId, tick, weighed)];
        published := published + [announced];
        veto := if w.applied && veto.None? then Some(w.reason) else veto;
        weighed := weighed + 1;
      }
    }

    /** The second loop: applied playbooks lend their reasons. `weighed` and `published` continue the first loop's. */
    method ApplyPlaybooks(planId: Id, tick: nat, ghost against: seq<Weighing>, weighed: nat, announced: seq<Payload>)
      returns (support: seq<string>, published: seq<Payload>)
      requires weighed == |against| && announced == Notices(against, planId, tick)
      modifies this`applications
      ensures var ws := PlaybookWeighings(env.text, old(State()));
              && support == Applied(ws) && old(applications) <= applications
              && Records(against, planId, tick) + applications[|old(applications)|..] == Records(against + ws, planId, tick)
              && published == Notices(against + ws, planId, tick)
    {
      hide By, Record, Notice, Records, Notices, PlaybookWeighings, Applied, SortedSet, WeighPlaybook;
      ghost var ws, before := PlaybookWeighings(env.text, State()), applications;
      ghost var all := against + ws;
      IdOrder();
      var ids := SortSet(playbooks.Keys, IdLe);
      PlaybooksWeighed(env.text, State(), ids);
      NothingWeighed(ws, planId, tick);
      support, published := [], announced;
      ghost var recorded: seq<Application> := [];
      var i := 0;
      assert all[..weighed] == against;
      while i < |ids|
        invariant 0 <= i <= |ids| == |ws|
        invariant applications == before + recorded
        invariant Weighed(all, weighed + i, planId, tick, Records(against, planId, tick) + recorded, published)
        invariant support == Applied(ws[..i])
      {
        WeighedNext(all, weighed + i, planId, tick, Records(against, planId, tick) + recorded, published);
        AppliedNext(ws, i);
        var w := WeighPlaybook(env.text, playbooks[ids[i]]);
        var notice := RecordKnowledgeApplication(w, planId, tick, weighed + i);
        Associates(Records(against, planId, tick), recorded, [Record(w, planId, tick, weighed + i)]);
        recorded := recorded + [Record(w, planId, tick, weighed + i)];
        published := published + [notice];
        support := support + if w.applied then [w.reason] else [];
        i := i + 1;
      }
      assert all[..weighed + i] == all;
      assert applications[|before|..] == recorded;
    }

    /** `_apply_knowledge`: every piece of knowledge held is weighed, recorded and announced. */
    method ApplyKnowledge(planId: Id, tick: nat) returns (veto: Option<string>, support: seq<string>,
          published: seq<Payload>)
      modifies this`applications
      ensures var against, ws := AntiPatternWeighings(env.text, old(State())), PlaybookWeighings(env.text, old(State()));
              && applications == old(applications) + Records(against + ws, planId, tick) && published == Notices(against + ws, planId, tick)
              && veto == FirstOf(Applied(against)) && support == Applied(ws)
    {
      hide By, Records, Notices, AntiPatternWeighings, PlaybookWeighings, FirstOf, Applied, Record, Notice;
      ghost var before, against := applications, AntiPatternWeighings(env.text, State());
      var weighed: nat;
      veto, published, weighed := ApplyAntiPatterns(planId, tick);
      ghost var midway := applications;
      assert AntiPatternsApart(env.text, old(State()), State()) by { KnowledgeApart(env.text, old(State()), State()); }
      support, published := ApplyPlaybooks(planId, tick, against, weighed, published);
      assert applications == midway + applications[|midway|..];
      Associates(before, Records(against, planId, tick), applications[|midway|..]);
    }

    method CheckBudget(p: ExecutiveEvent, tick: nat) returns (published: seq<Payload>)
      requires p.PlanProposed? && activeBudget.Some?
      modifies this`budgets, this`approvals, this`applications
      ensures Reaction(State(), published) == GovernorModel.CheckBudget(env, old(State()), p, tick)
    {
      if activeBudget.value !in budgets {
        return [];  // KeyError
      }
      var budget := budgets[activeBudget.value];
      var rest: seq<Payload>;
      if AttentionOk(budget, p) && CapitalOk(budget, p) {
        rest := Advise(p, budget, tick);
      } else {
        rest := Deny(p.planId, env.text.say(Shortfall(AttentionOk(budget, p), CapitalOk(budget, p))), tick);
      }
      published := Checked(budget, p) + rest;
    }

    /** Learned knowledge is consulted last: it can veto what policy and budget allowed. */
    method Advise(p: ExecutiveEvent, budget: Budget, tick: nat) returns (published: seq<Payload>)
      requires p.PlanProposed?
      modifies this`budgets, this`approvals, this`applications
      ensures Reaction(State(), published) == GovernorModel.Advise(env, old(State()), p, budget, tick)
    {
      var veto, support, notices := ApplyKnowledge(p.planId, tick);
      var ruled: seq<Payload>;
      if veto.Some? {
        ruled := Deny(p.planId, veto.value, tick);
      } else {
        ruled := Grant(budget, p, support, tick);
      }
      published := notices + ruled;
    }

    method OnPlanProposed(p: ExecutiveEvent, tick: nat) returns (published: seq<Payload>)
      requires p.PlanProposed? && registry.rules == env.library
      modifies this`budgets, this`approvals, this`applications
      ensures Reaction(State(), published) == GovernorModel.OnPlanProposed(env, old(State()), p, tick)
    {
      hide By, GovernorModel.CheckBudget, GovernorModel.Deny, GovernorModel.RequireApproval, Evaluate, Evaluated,
           PlanFacts;
      if constitutions == [] {
        published := RequireApproval(p, env.text.say(NoConstitution), tick);
        return;
      }
      if activeBudget.None? {
        published := RequireApproval(p, env.text.say(NoBudget), tick);
        return;
      }
      var constitution := constitutions[|constitutions| - 1];
      var verdict := registry.Judge(constitution.rules, PlanFacts(p));
      if verdict.Raises? {
        return [];
      }
      var rest: seq<Payload>;
      if verdict.passed {
        rest := CheckBudget(p, tick);
      } else {
        rest := Deny(p.planId, verdict.reason, tick);
      }
      published := Evaluated(constitution, p, verdict.passed, verdict.reason) + rest;
    }

    method DecideResearch(x: ExecutiveEvent, approved: bool, reason: string,
          time: real) returns (published: seq<Payload>)
      requires x.ResearchSpendRequested?
      modifies this`research
      ensures Reaction(State(), published) == GovernorModel.DecideResearch(old(State()), x, approved, reason, time)
    {
      hide By;
      research := research + [Spend(x.requestId, x.deliberationId, x.category, x.cost, x.depth, approved, reason, time)];
      published := [OfGovernor(if approved then ResearchSpendApproved(x.requestId, x.deliberationId, x.category, x.cost, reason)
                               else ResearchSpendDenied(x.requestId, x.deliberationId, x.category, reason))];
    }

    method OnResearchSpendRequested(x: ExecutiveEvent, tick: nat) returns (published: seq<Payload>)
      requires x.ResearchSpendRequested? && registry.rules == env.library
      modifies this`research
      ensures Reaction(State(), published) == GovernorModel.OnResearchSpendRequested(env, old(State()), x, tick)
    {
      hide By, Evaluate, ResearchFacts, GovernorModel.DecideResearch, FindRuleArgs;
      if constitutions == [] {
        published := DecideResearch(x, false, env.text.say(NoConstitution), env.stamp(tick));
        return;
      }
      var rules := constitutions[|constitutions| - 1].rules;
      var args := FindRuleArgs(rules, RESEARCH_BUDGET);
      if args.None? {
        published := DecideResearch(x, false, env.text.say(NoResearchPolicy), env.stamp(tick));
        return;
      }
      var window := WindowSeconds(env.text, args.value);
      if window.None? {
        return [];
      }
      var facts := FactsNow(x, env.now(tick) - window.value);
      var verdict := registry.Judge(rules, facts);
      if verdict.Raises? {
        return [];
      }
      published := DecideResearch(x, verdict.passed, if verdict.passed then env.text.say(WithinResearchBudget) else verdict.reason, env.stamp(tick));
    }

    /** What the ledger says about a request: the comprehensions of `approved_within` and `for_deliberation`. */
    function FactsNow(x: ExecutiveEvent, cutoff: real): (f: Facts)
      requires x.ResearchSpendRequested?
      reads this
      ensures f == ResearchFacts(State(), x, cutoff)
    {
      Facts(None, None, Some(x.depth), Some(|ForDeliberation(research, x.deliberationId)| + 1),
            Some(Sum(ApprovedSince(research, cutoff), CostOf) + x.cost))
    }

    method OnAmendmentProposed(g: GovernorEvent, time: real)
      requires g.AmendmentProposed?
      modifies this`pendingAmendments, this`amendments
      ensures State() == GovernorModel.OnAmendmentProposed(old(State()), g, time).state
    {
      pendingAmendments := pendingAmendments[g.amendmentId := Constitution(g.constitutionId, g.version, g.rules, time)];
      amendments := amendments + [Amendment(g.amendmentId, g.constitutionId, g.previousId, g.version, g.rules, g.justification,
                                            IsProposed, time, None, None, None)];
    }

    method OnAmendmentApproved(g: GovernorEvent, time: real)
      requires g.ConstitutionAmended?
      modifies this`pendingAmendments, this`constitutions, this`amendments
      ensures State() == GovernorModel.OnAmendmentApproved(old(State()), g, time).state
    {
      if g.amendmentId !in pendingAmendments {
        return;
      }
      constitutions := constitutions + [pendingAmendments[g.amendmentId]];
      pendingAmendments := pendingAmendments - {g.amendmentId};
      var proposed := FirstAmendment(amendments, g.amendmentId);
      if proposed.Some? {
        amendments := amendments + [
          Amendment(g.amendmentId, g.constitutionId, proposed.value.previousId, g.version, proposed.value.rules,
                    proposed.value.justification, IsApproved, proposed.value.proposed, Some(time), Some(g.approvedBy), None)];
      }
    }

    method OnAmendmentRejected(g: GovernorEvent, time: real)
      requires g.AmendmentRejected?
      modifies this`pendingAmendments, this`amendments
      ensures State() == GovernorModel.OnAmendmentRejected(old(State()), g, time).state
    {
      if g.amendmentId !in pendingAmendments {
        return;
      }
      pendingAmendments := pendingAmendments - {g.amendmentId};
      var proposed := FirstAmendment(amendments, g.amendmentId);
      if proposed.Some? {
        amendments := amendments + [
          Amendment(g.amendmentId, g.constitutionId, proposed.value.previousId, proposed.value.version, proposed.value.rules,
                    proposed.value.justification, IsRejected, proposed.value.proposed, Some(time), None, Some(g.reason))];
      }
    }

    method OnEscalationCreated(g: GovernorEvent, time: real)
      requires g.EscalationCreated?
      modifies this`escalations, this`pendingEscalations
      ensures State() == GovernorModel.OnEscalationCreated(old(State()), g, time).state
    {
      var record := Escalation(g.escalationId, g.planId, g.reason, g.actions, true, time, None, None, None);
      escalations := escalations + [record];
      pendingEscalations := pendingEscalations[g.escalationId := record];
    }

    method OnEscalationResolved(g: GovernorEvent, time: real, tick: nat) returns (published: seq<Payload>)
      requires g.EscalationResolved?
      modifies this`escalations, this`pendingEscalations, this`approvals
      ensures Reaction(State(), published) == GovernorModel.OnEscalationResolved(env, old(State()), g, time, tick)
    {
      hide By, GovernorModel.Approve, GovernorModel.Deny;
      if g.escalationId !in pendingEscalations {
        return [];  // KeyError
      }
      var pending := pendingEscalations[g.escalationId];
      pendingEscalations := pendingEscalations - {g.escalationId};
      escalations := escalations + [Escalation(g.escalationId, pending.planId, pending.reason, pending.actions, false,
                                               pending.created, Some(g.decision), Some(time), Some(g.resolvedBy))];
      if g.decision == APPROVED {
        published := Approve(pending.planId, env.text.say(OwnerApproved), pending.actions, tick);
      } else {
        published := Deny(pending.planId, g.reason, tick);
      }
    }

    method OnRevisionCompleted(m: MemoryEvent, time: real)
      requires m.RevisionCompleted?
      modifies this`antiPatterns, this`playbooks
      ensures State() == GovernorModel.OnRevisionCompleted(old(State()), m, time).state
    {
      var k := Knowledge(m.knowledgeId, m.knowledgeType, m.summary, m.consensus, m.considered, time);
      if k.kind == ANTI_PATTERN {
        antiPatterns := antiPatterns[k.id := k];
      } else {
        playbooks := playbooks[k.id := k];
      }
    }

    /** `_restore_amendments`: one loop refills the log, one keeps the latest record of each amendment. */
    method RestoreAmendments(records: seq<Amendment>)
      modifies this`amendments, this`pendingAmendments
      ensures amendments == old(amendments) + records && pendingAmendments == RebuiltAmendments(records)
    {
      var latest: map<Id, Amendment> := map[];
      ghost var before := amendments;
      var i := 0;
      while i < |records|
        invariant 0 <= i <= |records|
        invariant amendments == before + records[..i] && latest == Latest(records[..i], AmendmentId)
      {
        assert records[..i + 1] == records[..i] + [records[i]];
        LatestSnoc(records[..i], records[i], AmendmentId);
        amendments := amendments + [records[i]];
        latest := latest[records[i].id := records[i]];
        i := i + 1;
      }
      assert records[..i] == records;
      pendingAmendments := map id | id in latest && latest[id].status == IsProposed :: Candidate(latest[id]);
    }

    method RestoreEscalations(records: seq<Escalation>)
      modifies this`escalations, this`pendingEscalations
      ensures escalations == old(escalations) + records && pendingEscalations == RebuiltEscalations(records)
    {
      var latest: map<Id, Escalation> := map[];
      ghost var before := escalations;
      var i := 0;
      while i < |records|
        invariant 0 <= i <= |records|
        invariant escalations == before + records[..i] && latest == Latest(records[..i], EscalationId)
      {
        assert records[..i + 1] == records[..i] + [records[i]];
        LatestSnoc(records[..i], records[i], EscalationId);
        escalations := escalations + [records[i]];
        latest := latest[records[i].id := records[i]];
        i := i + 1;
      }
      assert records[..i] == records;
      pendingEscalations := map id | id in latest && latest[id].pending :: latest[id];
    }
  }

  /** Recording that knowledge was weighed does not change what is known. */
  ghost predicate AntiPatternsApart(n: Notation, s: GState, s': GState) {
    AntiPatternWeighings(n, s) == AntiPatternWeighings(n, s') && PlaybookWeighings(n, s) == PlaybookWeighings(n, s')
  }

  lemma KnowledgeApart(n: Notation, s: GState, s': GState)
    requires s.antiPatterns == s'.antiPatterns && s.playbooks == s'.playbooks
    ensures AntiPatternsApart(n, s, s')
  {
  }

  lemma NoneFirst()
    ensures FirstOf([]) == None
  {
  }
}
