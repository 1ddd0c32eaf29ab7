/** The life of one plan seen through the queue: proposed, predicted, granted, acted on, resolved by its first outcome. */
module PlanLife {
  // An automaton over what is recorded about the plan and what is queued about it.

  import opened Prelude
  import opened Events

  /** Events about one plan. `Answering` is its owner's, on an escalation; `Fixing` is its prediction being resolved. */
  datatype Item =
    | Proposing | Granting(actions: nat) | Escalating | Answering
    | Noting(predictionId: Id) | Acted(actionId: Id) | Reported(outcomeId: Id, actionId: Id) | Fixing(predictionId: Id, outcomeId: Id)

  function ItemOf(plan: Id): Payload -> Option<Item> {
    (p: Payload) => ItemIn(p, plan)
  }

  function ItemIn(p: Payload, plan: Id): Option<Item> {
    match p
    case OfExecutive(x) => if x.PlanProposed? && x.planId == plan then Some(Proposing) else None
    case OfGovernor(g) =>
      if g.ApprovalGranted? && g.planId == plan then Some(Granting(|g.actions|))
      else if g.EscalationCreated? && g.planId == plan then Some(Escalating)
      else if g.EscalationResolved? && g.planId == plan then Some(Answering) else None
    case OfExecutor(t) => if (t.ActionSucceeded? || t.ActionFailed?) && t.planId == plan then Some(Acted(t.actionId)) else None
    case OfMemory(m) =>
      if m.PredictionRecorded? && m.planId == plan then Some(Noting(m.predictionId))
      else if m.OutcomeRecorded? && m.planId == plan then Some(Reported(m.outcomeId, m.actionId))
      else if m.PredictionResolved? && m.planId == plan then Some(Fixing(m.predictionId, m.outcomeId))
      else None
    case _ => None
  }

  /** One entry of a plan's prediction history. */
  datatype Entry = Entry(predictionId: Id, resolved: bool, outcomeId: Option<Id>)

  /**
   What is known of a plan: was it proposed, was it granted with something to do; its prediction history, the
   prediction pending for it, the outcomes recorded for it; and what is queued.
   */
  datatype View = View(proposed: bool, actionable: bool, history: seq<Entry>, pending: Option<Id>,
                       outcomes: seq<(Id, Id)>, queued: seq<Item>)

  // ---------------------------------------------------------------- the automaton's states

  predicate Calm(i: Item) { i.Granting? || i.Escalating? || i.Answering? }
  predicate Early(i: Item) { Calm(i) || i.Acted? }
  predicate Late(i: Item) { Early(i) || i.Reported? }

  ghost predicate All(q: seq<Item>, f: Item -> bool) {
    forall i <- q :: f(i)
  }

  /** Position k, what may stand before it, what may stand after it. */
  ghost predicate Split(q: seq<Item>, k: nat, before: Item -> bool, after: Item -> bool) {
    k < |q| && All(q[..k], before) && All(q[k + 1..], after)
  }

  function ReportOf(i: Item): Option<(Id, Id)> {
    if i.Reported? then Some((i.outcomeId, i.actionId)) else None
  }

  function ActOf(i: Item): Option<Id> {
    if i.Acted? then Some(i.actionId) else None
  }

  function ActionsOf(outcomes: seq<(Id, Id)>): (r: seq<Id>)
    ensures |r| == |outcomes|
  {
    seq(|outcomes|, i requires 0 <= i < |outcomes| => outcomes[i].1)
  }

  /** Not proposed yet, or its proposal is still queued. */
  predicate Unborn(v: View) {
    && !v.proposed && !v.actionable && v.history == [] && v.pending == None && v.outcomes == []
    && (v.queued == [] || v.queued == [Proposing])
  }

  /** Proposed, its prediction still queued: nothing done for the plan can come before it. */
  ghost predicate Predicting(v: View) {
    && v.proposed && v.history == [] && v.pending == None && v.outcomes == []
    && exists k: nat :: Split(v.queued, k, Calm, Early) && v.queued[k].Noting?
  }

  /** Its prediction is pending; every outcome recorded so far is still queued. */
  ghost predicate Waiting(v: View) {
    && v.proposed && |v.history| == 1 && v.pending == Some(v.history[0].predictionId) && v.history[0] == Entry(v.history[0].predictionId, false, None)
    && All(v.queued, Late) && Project(v.queued, ReportOf) == v.outcomes
  }

  /** Its first outcome has claimed the prediction; the resolution is queued, once. */
  ghost predicate Claimed(v: View) {
    && v.proposed && |v.history| == 1 && v.pending == None && v.history[0] == Entry(v.history[0].predictionId, false, None)
    && v.outcomes != []
    && exists k: nat :: Split(v.queued, k, Late, Late) && v.queued[k] == Fixing(v.history[0].predictionId, v.outcomes[0].0)
  }

  /** Resolved, by its first outcome. */
  ghost predicate Settled(v: View) {
    && v.proposed && |v.history| == 2 && v.pending == None && v.outcomes != []
    && v.history == [Entry(v.history[0].predictionId, false, None), Entry(v.history[0].predictionId, true, Some(v.outcomes[0].0))]
    && All(v.queued, Late)
  }

  /** Proposed, but its prediction was lost with the process that should have recorded it. */
  ghost predicate Unpredicted(v: View) {
    v.proposed && v.history == [] && v.pending == None && All(v.queued, Late)
  }

  /** Its first outcome has claimed the prediction, and the resolution was lost. */
  ghost predicate Missed(v: View) {
    && v.proposed && |v.history| == 1 && v.pending == None && v.history[0] == Entry(v.history[0].predictionId, false, None)
    && v.outcomes != [] && All(v.queued, Late)
  }

  /** The first ordered action of a plan gets the id minted first in the delivery that granted it. */
  predicate IsFirstAction(id: Id) {
    id.Minted? && id.minter == Executor && id.path == [0]
  }

  /** All the plan's actions, in the order they were carried out. */
  function Actions(v: View): seq<Id> {
    ActionsOf(v.outcomes) + Project(v.queued, ActOf)
  }

  /** The phases of a life, those only a loss leads to included. */
  ghost predicate InPhase(v: View, whole: bool) {
    || Unborn(v) || Predicting(v) || Waiting(v) || Claimed(v) || Settled(v)
    || (!whole && (Unpredicted(v) || Missed(v)))
  }

  /** What is done about the plan was granted, and starts with its first action; if nothing was lost, what was granted is done. */
  ghost predicate Good(v: View, whole: bool) {
    && InPhase(v, whole)
    && (Actions(v) != [] ==> v.actionable && IsFirstAction(Actions(v)[0]))
    && (whole && v.actionable ==> Actions(v) != [])
  }

  // ---------------------------------------------------------------- its moves

  /** Actions number 0 to n - 1 of the delivery `tick`. */
  function Acts(n: nat, tick: nat): (r: seq<Item>)
    ensures |r| == n && forall i :: 0 <= i < n ==> r[i] == Acted(Minted(tick, Executor, [i]))
  {
    seq(n, i requires 0 <= i < n => Acted(Minted(tick, Executor, [i])))
  }

  /** What a step not about the plan may do to it: propose it, or answer an escalation of it once it is proposed. */
  ghost predicate Bystands(v: View, v': View) {
    && v' == v.(queued := v'.queued)
    && (v'.queued == v.queued
        || (v'.queued == v.queued + [Proposing] && Unborn(v) && v.queued == [])
        || (v'.queued == v.queued + [Answering] && !Unborn(v)))
  }

  lemma AllParts(q: seq<Item>, r: seq<Item>, f: Item -> bool)
    ensures All(q + r, f) <==> All(q, f) && All(r, f)
  {
    if All(q + r, f) {
      forall i | i in q ensures f(i) { assert i in q + r; }
      forall i | i in r ensures f(i) { assert i in q + r; }
    }
  }

  lemma ProjectsAppend(q: seq<Item>, r: seq<Item>)
    ensures Project(q + r, ActOf) == Project(q, ActOf) + Project(r, ActOf)
    ensures Project(q + r, ReportOf) == Project(q, ReportOf) + Project(r, ReportOf)
  {
    ProjectConcat(q, r, ActOf);
    ProjectConcat(q, r, ReportOf);
  }

  lemma SplitJoins(q: seq<Item>, k: nat, before: Item -> bool, after: Item -> bool, r: seq<Item>)
    requires Split(q, k, before, after) && All(r, after)
    ensures Split(q + r, k, before, after) && (q + r)[k] == q[k]
  {
    assert (q + r)[..k] == q[..k] && (q + r)[k + 1..] == q[k + 1..] + r;
    AllParts(q[k + 1..], r, after);
  }

  lemma SplitTurns(q: seq<Item>, k: nat, before: Item -> bool, after: Item -> bool)
    requires Split(q, k, before, after) && k > 0
    ensures Split(q[1..], k - 1, before, after) && q[1..][k - 1] == q[k] && before(q[0])
  {
    assert q[..k] == [q[0]] + q[1..][..k - 1];
    AllParts([q[0]], q[1..][..k - 1], before);
    assert q[0] in [q[0]];
    assert q[1..][k..] == q[k + 1..];
  }

  lemma AllTail(q: seq<Item>, f: Item -> bool)
    requires All(q, f) && q != []
    ensures All(q[1..], f) && f(q[0])
  {
    assert q == [q[0]] + q[1..];
    AllParts([q[0]], q[1..], f);
    assert q[0] in [q[0]];
  }

  /** Joining items changes no phase as long as they are of a kind the phase admits. */
  lemma PhaseJoins(v: View, r: seq<Item>)
    requires All(r, Early)
    ensures Predicting(v) ==> Predicting(v.(queued := v.queued + r))
    ensures Waiting(v) ==> Waiting(v.(queued := v.queued + r))
    ensures Claimed(v) ==> Claimed(v.(queued := v.queued + r))
    ensures Settled(v) ==> Settled(v.(queued := v.queued + r))
    ensures Unpredicted(v) ==> Unpredicted(v.(queued := v.queued + r))
    ensures Missed(v) ==> Missed(v.(queued := v.queued + r))
  {
    EarlyIsLate(r);
    ProjectsAppend(v.queued, r);
    AllParts(v.queued, r, Late);
    if Predicting(v) {
      var k: nat :| Split(v.queued, k, Calm, Early) && v.queued[k].Noting?;
      SplitJoins(v.queued, k, Calm, Early, r);
    } else if Claimed(v) {
      var k: nat :| Split(v.queued, k, Late, Late) && v.queued[k] == Fixing(v.history[0].predictionId, v.outcomes[0].0);
      SplitJoins(v.queued, k, Late, Late, r);
    }
  }

  lemma EarlyIsLate(r: seq<Item>)
    requires All(r, Early)
    ensures All(r, Late) && Project(r, ReportOf) == []
  {
    forall i | i in r ensures ReportOf(i) == None { assert Early(i); }
    ProjectNothing(r, ReportOf);
  }

  lemma CalmActsNot(r: seq<Item>)
    requires All(r, Calm)
    ensures All(r, Early) && Project(r, ActOf) == []
  {
    forall i | i in r ensures ActOf(i) == None { assert Calm(i); }
    ProjectNothing(r, ActOf);
  }

  /** A step that is not about the plan leaves its life in order. */
  lemma BystandingKeeps(v: View, v': View, whole: bool)
    requires Good(v, whole) && Bystands(v, v')
    ensures Good(v', whole)
  {
    hide Predicting, Waiting, Claimed, Settled, Unpredicted, Missed, IsFirstAction;
    if v'.queued != v.queued {
      if v'.queued == v.queued + [Proposing] && Unborn(v) {
        assert v'.queued == [Proposing];
        assert Project([Proposing], ActOf) == [] by { ProjectOne(Proposing, ActOf); }
      } else {
        CalmActsNot([Answering]);
        PhaseJoins(v, [Answering]);
        ProjectsAppend(v.queued, [Answering]);
        assert Actions(v') == Actions(v);
      }
    }
  }

  // ---------------------------------------------------------------- deliveries about the plan

  /** The plan's own next event is delivered: what the components make of it. */
  ghost predicate Advances(v: View, v': View, tick: nat) {
    v.queued != [] &&
    var rest := v.queued[1..];
    match v.queued[0]
    case Proposing =>
      && v'.proposed && v'.actionable == v.actionable
      && v'.history == v.history && v'.pending == v.pending && v'.outcomes == v.outcomes
      && exists calm: seq<Item>, id :: All(calm, Calm) && v'.queued == rest + (calm + [Noting(id)])
    case Granting(n) =>
      v' == v.(actionable := v.actionable || n > 0, queued := rest + Acts(n, tick))
    case Escalating => v' == v.(queued := rest)
    case Answering => v' == v.(queued := rest) || exists n :: v' == v.(queued := rest + [Granting(n)])
    case Noting(id) => v' == v.(history := v.history + [Entry(id, false, None)], pending := Some(id), queued := rest)
    case Acted(action) =>
      exists outcome :: v' == v.(outcomes := v.outcomes + [(outcome, action)], queued := rest + [Reported(outcome, action)])
    case Reported(outcome, _) =>
      if v.pending.Some? then v' == v.(pending := None, queued := rest + [Fixing(v.pending.value, outcome)])
      else v' == v.(queued := rest)
    case Fixing(id, outcome) => v' == v.(history := v.history + [Entry(id, true, Some(outcome))], queued := rest)
  }

  lemma Heads(q: seq<Item>)
    requires q != []
    ensures Project(q, ActOf) == Image(ActOf, q[0]) + Project(q[1..], ActOf)
    ensures Project(q, ReportOf) == Image(ReportOf, q[0]) + Project(q[1..], ReportOf)
  {
  }

  lemma ProposingKeeps(v: View, v': View, tick: nat, whole: bool)
    requires Good(v, whole) && Advances(v, v', tick) && v.queued[0].Proposing?
    ensures Good(v', whole)
  {
    assert Unborn(v) by { ProposingIsUnborn(v, whole); }
    var calm: seq<Item>, id :| All(calm, Calm) && v'.queued == v.queued[1..] + (calm + [Noting(id)]);
    assert v'.queued == calm + [Noting(id)];
    var k := |calm|;
    assert v'.queued[..k] == calm && v'.queued[k + 1..] == [];
    assert Split(v'.queued, k, Calm, Early);
    CalmActsNot(calm);
    ProjectSnoc(calm, Noting(id), ActOf);
    assert Project(v.queued, ActOf) == [] by { Heads(v.queued); assert v.queued[1..] == []; }
    assert Actions(v') == [];
  }

  lemma ProposingIsUnborn(v: View, whole: bool)
    requires Good(v, whole) && v.queued != [] && v.queued[0].Proposing?
    ensures Unborn(v)
  {
    if Predicting(v) {
      var k: nat :| Split(v.queued, k, Calm, Early) && v.queued[k].Noting?;
      SplitTurns(v.queued, k, Calm, Early);
    } else if Claimed(v) {
      var k: nat :| Split(v.queued, k, Late, Late) && v.queued[k] == Fixing(v.history[0].predictionId, v.outcomes[0].0);
      SplitTurns(v.queued, k, Late, Late);
    } else if !Unborn(v) {
      AllTail(v.queued, Late);
    }
  }

  /** Taking a grant, an escalation, a result or a settled report off the front changes no phase. */
  lemma PhaseTurns(v: View, whole: bool)
    requires Good(v, whole) && v.queued != [] && (Early(v.queued[0]) || (v.queued[0].Reported? && v.pending.None?))
    ensures var v' := v.(queued := v.queued[1..]);
            && (Predicting(v) ==> Predicting(v')) && (Waiting(v) ==> Waiting(v'))
            && (Claimed(v) ==> Claimed(v')) && (Settled(v) ==> Settled(v'))
            && (Unpredicted(v) ==> Unpredicted(v')) && (Missed(v) ==> Missed(v'))
            && !Unborn(v)
  {
    hide Project, Actions, IsFirstAction;
    var v' := v.(queued := v.queued[1..]);
    if Predicting(v) {
      var k: nat :| Split(v.queued, k, Calm, Early) && v.queued[k].Noting?;
      SplitTurns(v.queued, k, Calm, Early);
      assert Split(v'.queued, k - 1, Calm, Early) && v'.queued[k - 1].Noting?;
    } else if Claimed(v) {
      var k: nat :| Split(v.queued, k, Late, Late) && v.queued[k] == Fixing(v.history[0].predictionId, v.outcomes[0].0);
      SplitTurns(v.queued, k, Late, Late);
      assert Split(v'.queued, k - 1, Late, Late) && v'.queued[k - 1] == v.queued[k];
    } else if !Unborn(v) {
      AllTail(v.queued, Late);
      Heads(v.queued);
      if Early(v.queued[0]) { NoReport(v.queued[0]); }
    }
  }

  lemma NoReport(i: Item)
    requires Early(i)
    ensures Image(ReportOf, i) == []
  {
  }

  lemma ActsAreEarly(n: nat, tick: nat)
    ensures All(Acts(n, tick), Early) && |Project(Acts(n, tick), ActOf)| == n
    ensures n > 0 ==> Project(Acts(n, tick), ActOf)[0] == Minted(tick, Executor, [0])
  {
    var acts := Acts(n, tick);
    forall i | i in acts ensures Early(i) && ActOf(i).Some? {
      var j :| 0 <= j < n && acts[j] == i;
    }
    ProjectTotal(acts, ActOf);
  }

  lemma CalmKeeps(v: View, v': View, tick: nat, whole: bool)
    requires Good(v, whole) && Advances(v, v', tick) && Calm(v.queued[0])
    ensures Good(v', whole)
  {
    hide Predicting, Waiting, Claimed, Settled, Unpredicted, Missed, Unborn, Project, IsFirstAction;
    PhaseTurns(v, whole);
    var acts := v'.queued[|v.queued| - 1..];
    assert v'.queued == v.queued[1..] + acts && All(acts, Early) && (v'.actionable <==> v.actionable || Project(acts, ActOf) != [])
           && (Project(acts, ActOf) != [] ==> Project(acts, ActOf)[0] == Minted(tick, Executor, [0])) by {
      WhatFollows(v, v', tick);
    }
    PhaseJoins(v.(queued := v.queued[1..]), acts);
    PhaseIgnores(v.(queued := v.queued[1..]).(queued := v.queued[1..] + acts), v');
    ActionsGrow(v, v', acts);
    FirstActionMinted(tick);
  }

  /** A grant is followed by its actions, an answer by a grant or nothing, an escalation by nothing. */
  lemma WhatFollows(v: View, v': View, tick: nat)
    requires Advances(v, v', tick) && Calm(v.queued[0])
    ensures |v'.queued| >= |v.queued| - 1
    ensures var acts := v'.queued[|v.queued| - 1..];
            && v'.queued == v.queued[1..] + acts && All(acts, Early) && (v'.actionable <==> v.actionable || Project(acts, ActOf) != [])
            && (Project(acts, ActOf) != [] ==> Project(acts, ActOf)[0] == Minted(tick, Executor, [0]))
            && v' == v.(actionable := v'.actionable, queued := v'.queued)
  {
    hide Project;
    var acts := v'.queued[|v.queued| - 1..];
    NothingIsEarly();
    if v.queued[0].Granting? {
      ActsAreEarly(v.queued[0].actions, tick);
      assert acts == Acts(v.queued[0].actions, tick);
    } else if acts != [] {
      var n :| v' == v.(queued := v.queued[1..] + [Granting(n)]);
      assert acts == [Granting(n)];
      CalmActsNot(acts);
    }
  }

  lemma FirstActionMinted(tick: nat)
    ensures IsFirstAction(Minted(tick, Executor, [0]))
  {
  }

  lemma NothingIsEarly()
    ensures All([], Early) && Project([], ActOf) == []
  {
  }

  lemma ActionsGrow(v: View, v': View, acts: seq<Item>)
    requires v.queued != [] && Calm(v.queued[0]) && v'.queued == v.queued[1..] + acts && v'.outcomes == v.outcomes
    ensures Actions(v') == Actions(v) + Project(acts, ActOf)
  {
    Heads(v.queued);
    ProjectsAppend(v.queued[1..], acts);
    Associates(ActionsOf(v.outcomes), Project(v.queued[1..], ActOf), Project(acts, ActOf));
  }

  /** The phases past birth do not depend on this. */
  lemma PhaseIgnores(v: View, v': View)
    requires v' == v.(actionable := v'.actionable)
    ensures Predicting(v) ==> Predicting(v')
    ensures Waiting(v) ==> Waiting(v')
    ensures Claimed(v) ==> Claimed(v')
    ensures Settled(v) ==> Settled(v')
    ensures Unpredicted(v) ==> Unpredicted(v')
    ensures Missed(v) ==> Missed(v')
  {
  }

  lemma NotingKeeps(v: View, v': View, tick: nat, whole: bool)
    requires Good(v, whole) && Advances(v, v', tick) && v.queued[0].Noting?
    ensures Good(v', whole)
  {
    Heads(v.queued);
    assert Predicting(v) by { NotingIsPredicting(v, whole); }
    var k: nat :| Split(v.queued, k, Calm, Early) && v.queued[k].Noting?;
    if k > 0 { SplitTurns(v.queued, k, Calm, Early); }
    EarlyIsLate(v.queued[1..]);
    assert Actions(v') == Actions(v);
  }

  lemma NotingIsPredicting(v: View, whole: bool)
    requires Good(v, whole) && v.queued != [] && (v.queued[0].Noting?)
    ensures Predicting(v)
  {
    if Claimed(v) {
      var k: nat :| Split(v.queued, k, Late, Late) && v.queued[k] == Fixing(v.history[0].predictionId, v.outcomes[0].0);
      if k > 0 { SplitTurns(v.queued, k, Late, Late); }
    } else if !Unborn(v) && !Predicting(v) {
      AllTail(v.queued, Late);
    }
  }

  lemma ActedMovesOn(v: View, v': View, outcome: Id, action: Id)
    requires v.queued != [] && v.queued[0] == Acted(action)
    requires v' == v.(outcomes := v.outcomes + [(outcome, action)], queued := v.queued[1..] + [Reported(outcome, action)])
    ensures Actions(v') == Actions(v)
    ensures Project(v.queued, ReportOf) == v.outcomes ==> Project(v'.queued, ReportOf) == v'.outcomes
  {
    Heads(v.queued);
    ProjectSnoc(v.queued[1..], Reported(outcome, action), ActOf);
    ProjectSnoc(v.queued[1..], Reported(outcome, action), ReportOf);
    assert ActionsOf(v'.outcomes) == ActionsOf(v.outcomes) + [action];
    Associates(ActionsOf(v.outcomes), [action], Project(v.queued[1..], ActOf));
  }

  /** What is carried out is reported: the plan's sequence of actions does not change. */
  lemma ActedKeeps(v: View, v': View, tick: nat, whole: bool)
    requires Good(v, whole) && Advances(v, v', tick) && v.queued[0].Acted?
    ensures Good(v', whole)
  {
    hide Project, IsFirstAction, Actions;
    var action := v.queued[0].actionId;
    var outcome :| v' == v.(outcomes := v.outcomes + [(outcome, action)], queued := v.queued[1..] + [Reported(outcome, action)]);
    var r := Reported(outcome, action);
    ActedMovesOn(v, v', outcome, action);
    AllParts(v.queued[1..], [r], Late);
    if Predicting(v) {
      var k: nat :| Split(v.queued, k, Calm, Early) && v.queued[k].Noting?;
      SplitTurns(v.queued, k, Calm, Early);
    } else if Claimed(v) {
      var k: nat :| Split(v.queued, k, Late, Late) && v.queued[k] == Fixing(v.history[0].predictionId, v.outcomes[0].0);
      SplitTurns(v.queued, k, Late, Late);
      SplitJoins(v.queued[1..], k - 1, Late, Late, [r]);
    } else {
      AllTail(v.queued, Late);
    }
  }

  lemma FirstReportClaims(v: View, v': View)
    requires Waiting(v) && v.queued != [] && v.queued[0].Reported?
    requires v' == v.(pending := None, queued := v.queued[1..] + [Fixing(v.pending.value, v.queued[0].outcomeId)])
    ensures Claimed(v') && Actions(v') == Actions(v)
  {
    var fix := Fixing(v.pending.value, v.queued[0].outcomeId);
    Heads(v.queued);
    AllTail(v.queued, Late);
    ProjectSnoc(v.queued[1..], fix, ActOf);
    assert v.outcomes[0] == (v.queued[0].outcomeId, v.queued[0].actionId);
    var k := |v.queued[1..]|;
    assert v'.queued[..k] == v.queued[1..] && v'.queued[k + 1..] == [];
    assert Split(v'.queued, k, Late, Late) && v'.queued[k] == fix;
  }

  /** The first report claims the pending prediction; any later one finds nothing pending. */
  lemma ReportedKeeps(v: View, v': View, tick: nat, whole: bool)
    requires Good(v, whole) && Advances(v, v', tick) && v.queued[0].Reported?
    ensures Good(v', whole)
  {
    hide Project, IsFirstAction, Split;
    if v.pending.None? {
      Heads(v.queued);
      PhaseTurns(v, whole);
      assert Actions(v') == Actions(v) by { NoAct(v.queued[0]); }
    } else {
      FirstReportClaims(v, v');
    }
  }

  lemma NoAct(i: Item)
    requires i.Reported?
    ensures Image(ActOf, i) == []
  {
  }

  lemma FixingKeeps(v: View, v': View, tick: nat, whole: bool)
    requires Good(v, whole) && Advances(v, v', tick) && v.queued[0].Fixing?
    ensures Good(v', whole)
  {
    Heads(v.queued);
    if Predicting(v) {
      var k: nat :| Split(v.queued, k, Calm, Early) && v.queued[k].Noting?;
      SplitTurns(v.queued, k, Calm, Early);
    } else if Claimed(v) {
      var k: nat :| Split(v.queued, k, Late, Late) && v.queued[k] == Fixing(v.history[0].predictionId, v.outcomes[0].0);
      if k > 0 { SplitTurns(v.queued, k, Late, Late); }
      assert Actions(v') == Actions(v);
      assert Settled(v');
    } else {
      AllTail(v.queued, Late);
    }
  }

  lemma AdvancingKeeps(v: View, v': View, tick: nat, whole: bool)
    requires Good(v, whole) && Advances(v, v', tick)
    ensures Good(v', whole)
  {
    hide Good, Advances;
    assert v.queued != [] by { SomethingAdvances(v, v', tick); }
    match v.queued[0]
    case Proposing => ProposingKeeps(v, v', tick, whole);
    case Granting(_) => CalmKeeps(v, v', tick, whole);
    case Escalating => CalmKeeps(v, v', tick, whole);
    case Answering => CalmKeeps(v, v', tick, whole);
    case Noting(_) => NotingKeeps(v, v', tick, whole);
    case Acted(_) => ActedKeeps(v, v', tick, whole);
    case Reported(_, _) => ReportedKeeps(v, v', tick, whole);
    case Fixing(_, _) => FixingKeeps(v, v', tick, whole);
  }

  lemma SomethingAdvances(v: View, v': View, tick: nat)
    requires Advances(v, v', tick)
    ensures v.queued != []
  {
  }

  // ---------------------------------------------------------------- deliveries cut short

  /** The plan's next event was being delivered when the process died: only `cut`, the first of what it sends, is in the log. */
  ghost predicate CutShort(v: View, v': View, cut: seq<Item>, v1: View) {
    && v.queued != [] && v.queued[1..] + cut <= v'.queued
    && v1 == v'.(queued := v.queued[1..] + cut, outcomes := v.outcomes + Project(cut, ReportOf))
  }

  /** What is left of a life when a process dies: a phase, and outcomes of what was granted. */
  ghost predicate Left(v: View) {
    InPhase(v, false) && (v.outcomes != [] ==> v.actionable && IsFirstAction(v.outcomes[0].1))
  }

  lemma GoodIsLeft(v: View, whole: bool)
    requires Good(v, whole)
    ensures Left(v)
  {
    hide Predicting, Waiting, Claimed, Settled, Unpredicted, Missed, Unborn, IsFirstAction, Project;
    if v.outcomes != [] { assert Actions(v)[0] == ActionsOf(v.outcomes)[0] == v.outcomes[0].1; }
  }

  /** An event taken off the front, some early ones joining behind. */
  lemma TurningLeaves(v: View, r: seq<Item>, actionable: bool)
    requires Good(v, false) && v.queued != [] && Early(v.queued[0]) && All(r, Early) && (v.actionable ==> actionable)
    ensures Left(v.(queued := v.queued[1..] + r, actionable := actionable))
  {
    hide Predicting, Waiting, Claimed, Settled, Unpredicted, Missed, Unborn, IsFirstAction, Project;
    GoodIsLeft(v, false);
    PhaseTurns(v, false);
    PhaseJoins(v.(queued := v.queued[1..]), r);
    var w := v.(queued := v.queued[1..] + r);
    assert w == v.(queued := v.queued[1..]).(queued := v.queued[1..] + r);
    PhaseIgnores(w, w.(actionable := actionable));
  }

  lemma TakenEarly(sent: seq<Item>, cut: seq<Item>, f: Item -> bool)
    requires All(sent, f) && cut <= sent
    ensures All(cut, f)
  {
    assert sent == cut + sent[|cut|..];
    AllParts(cut, sent[|cut|..], f);
  }

  lemma CutProposal(v: View, v': View, tick: nat, cut: seq<Item>, v1: View)
    requires Good(v, false) && Advances(v, v', tick) && CutShort(v, v', cut, v1) && v.queued[0].Proposing?
    requires v.queued[1..] + cut != v'.queued
    ensures Left(v1)
  {
    ProposingIsUnborn(v, false);
    var calm: seq<Item>, id :| All(calm, Calm) && v'.queued == v.queued[1..] + (calm + [Noting(id)]);
    assert v'.queued == calm + [Noting(id)] && v.queued[1..] + cut == cut;
    assert cut <= calm;
    TakenEarly(calm, cut, Calm);
    CalmActsNot(cut);
    EarlyIsLate(cut);
  }

  lemma CutCalm(v: View, v': View, tick: nat, cut: seq<Item>, v1: View)
    requires Good(v, false) && Advances(v, v', tick) && CutShort(v, v', cut, v1) && Calm(v.queued[0])
    ensures Left(v1)
  {
    hide Project, InPhase, Left, IsFirstAction;
    WhatFollows(v, v', tick);
    var acts := v'.queued[|v.queued| - 1..];
    assert cut <= acts by {
      assert forall i :: 0 <= i < |cut| ==> cut[i] == (v.queued[1..] + cut)[|v.queued| - 1 + i] == v'.queued[|v.queued| - 1 + i] == acts[i];
    }
    TakenEarly(acts, cut, Early);
    EarlyIsLate(cut);
    TurningLeaves(v, cut, v'.actionable);
    assert v.outcomes + [] == v.outcomes;
    assert v1 == v.(queued := v.queued[1..] + cut, actionable := v'.actionable);
  }

  /** The outcome of a result was lost. */
  lemma CutResult(v: View, v': View, tick: nat, v1: View)
    requires Good(v, false) && Advances(v, v', tick) && CutShort(v, v', [], v1) && v.queued[0].Acted?
    ensures Left(v1)
  {
    hide Project, InPhase, Left, IsFirstAction;
    NothingIsEarly();
    EarlyIsLate([]);
    TurningLeaves(v, [], v.actionable);
    assert v.outcomes + [] == v.outcomes;
    assert v1 == v.(queued := v.queued[1..] + [], actionable := v.actionable);
  }

  /** The resolution the first report calls for was lost. */
  lemma CutReport(v: View, v': View, tick: nat, v1: View)
    requires Good(v, false) && Advances(v, v', tick) && CutShort(v, v', [], v1) && v.queued[0].Reported? && v.pending.Some?
    ensures Left(v1)
  {
    GoodIsLeft(v, false);
    Heads(v.queued);
    AllTail(v.queued, Late);
    assert Project([], ReportOf) == [];
    assert v.outcomes + [] == v.outcomes && v.queued[1..] + [] == v.queued[1..];
    assert Missed(v1);
  }

  lemma CuttingLeaves(v: View, v': View, tick: nat, cut: seq<Item>, v1: View)
    requires Good(v, false) && Advances(v, v', tick) && CutShort(v, v', cut, v1)
    requires v'.outcomes == v.outcomes + Project(v'.queued[|v.queued| - 1..], ReportOf)
    ensures Left(v1)
  {
    hide Good, Left, Project;
    AdvancingKeeps(v, v', tick, false);
    GoodIsLeft(v', false);
    if v.queued[1..] + cut == v'.queued {
      assert v'.queued[|v.queued| - 1..] == cut;
    } else {
      match v.queued[0]
      case Proposing => CutProposal(v, v', tick, cut, v1);
      case Acted(_) => NoneOfOne(v, v', cut); CutResult(v, v', tick, v1);
      case Reported(_, _) => NoneOfOne(v, v', cut); CutReport(v, v', tick, v1);
      case Granting(_) => CutCalm(v, v', tick, cut, v1);
      case Escalating => CutCalm(v, v', tick, cut, v1);
      case Answering => CutCalm(v, v', tick, cut, v1);
      case _ => NoneOfNone(v, v', cut);
    }
  }

  lemma NoneOfOne(v: View, v': View, cut: seq<Item>)
    requires v.queued != [] && v.queued[1..] + cut <= v'.queued && v.queued[1..] + cut != v'.queued && |v'.queued| <= |v.queued|
    ensures cut == []
  {
  }

  lemma NoneOfNone(v: View, v': View, cut: seq<Item>)
    requires v.queued != [] && v.queued[1..] + cut <= v'.queued && |v'.queued| < |v.queued|
    ensures v.queued[1..] + cut == v'.queued
  {
  }

  /**
   Once nothing is queued: a plan that was granted with something to do has been resolved, exactly once,
   by the outcome of its first action; any other plan proposed still has its prediction pending.
   */
  lemma DrainedLife(v: View)
    requires Good(v, true) && v.proposed && v.queued == []
    ensures v.actionable ==> Settled(v) && IsFirstAction(v.outcomes[0].1)
    ensures !v.actionable ==> Waiting(v) && v.outcomes == []
  {
    if v.outcomes != [] { assert ActionsOf(v.outcomes)[0] == v.outcomes[0].1; }
  }
}
