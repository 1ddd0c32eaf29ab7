/** Every sandbox execution is recorded started once and completed once, later, through the queue. */
module Sandboxes {
  import opened Prelude
  import opened Events
  import opened Rules
  import opened KernelModel
  import opened Organism
  import opened Runs
  import T = ExecutorModel
  import TT = ExecutorTheorems
  import P = PerceptionModel
  import W = WorldModelModel
  import X = ExecutiveModel
  import G = GovernorModel
  import M = MemoryModel

  function OfExecution(id: Id): T.SandboxRecord -> Option<bool> {
    (r: T.SandboxRecord) => if r.id == id then Some(r.completed.Some?) else None
  }

  function ExecutionEvent(id: Id): Payload -> Option<bool> {
    (p: Payload) =>
      if p.OfExecutor? && p.t.SandboxStarted? && p.t.executionId == id then Some(false)
      else if p.OfExecutor? && p.t.SandboxCompleted? && p.t.executionId == id then Some(true) else None
  }

  /**
   The two transitions of an execution are published together, in one delivery; if a delivery was cut short, the first
   may have been logged without the second.
   */
  predicate Both(logged: seq<bool>, id: Id, ticks: nat, whole: bool) {
    logged == [] || ((logged == [false, true] || (!whole && logged == [false])) && id.Minted? && id.tick < ticks)
  }

  ghost predicate LoggedTogether(log: seq<Payload>, ticks: nat, whole: bool) {
    forall id :: Both(Project(log, ExecutionEvent(id)), id, ticks, whole)
  }

  /** The Executor's log holds what the events dispatched so far say; an execution is pending while only its start is there. */
  ghost predicate Tracked(s: T.TState, past: seq<Payload>) {
    forall id :: && Project(s.sandbox, OfExecution(id)) == Project(past, ExecutionEvent(id))
                 && (id in s.pendingSandbox <==> Project(past, ExecutionEvent(id)) == [false])
  }

  /** No execution is pending, and every one on record was started once and then completed once. */
  ghost predicate Settled(s: T.TState) {
    && s.pendingSandbox == map[]
    && (forall r <- s.sandbox :: Project(s.sandbox, OfExecution(r.id)) == [false, true])
  }

  // ---------------------------------------------------------------- what a grant publishes

  /** The id of attempt k of ordered action i. */
  predicate IsExecution(id: Id, tick: nat, i: nat, k: nat) {
    id == Minted(tick, Executor, [i, k])
  }

  /** Nothing about the execution, or both its transitions, for an action from i on. */
  ghost predicate Whole(sent: seq<bool>, id: Id, tick: nat, i: nat) {
    sent == [] || (sent == [false, true] && exists j: nat, k: nat :: i <= j && IsExecution(id, tick, j, k))
  }

  ghost predicate WholeAttempt(sent: seq<bool>, id: Id, tick: nat, i: nat, j: nat) {
    sent == [] || (sent == [false, true] && exists k: nat :: j <= k && IsExecution(id, tick, i, k))
  }

  lemma SandboxedExecution(a: T.Action, tick: nat, i: nat, j: nat, outcome: T.ToolOutcome, id: Id)
    requires a.id == Minted(tick, Executor, [i])
    ensures Project(T.Sandboxed(a, j, outcome), ExecutionEvent(id)) == if IsExecution(id, tick, i, j) then [false, true] else []
  {
    hide By;
    var ps := T.Sandboxed(a, j, outcome);
    assert [i] + [j] == [i, j];
    assert ps == [ps[0]] + [ps[1]];
    ProjectSnoc([ps[0]], ps[1], ExecutionEvent(id));
    ProjectOne(ps[0], ExecutionEvent(id));
  }

  lemma RestIsSilent(a: T.Action, j: nat, outcome: T.ToolOutcome, id: Id)
    ensures Project(T.Conclude(a, j, outcome), ExecutionEvent(id)) == []
    ensures outcome.Fails? ==> Project(T.Retry(a, j, outcome.error), ExecutionEvent(id)) == []
    ensures Project(T.Announce(a), ExecutionEvent(id)) == []
  {
    hide By;
    ProjectNothing(T.Conclude(a, j, outcome), ExecutionEvent(id));
    if outcome.Fails? { ProjectNothing(T.Retry(a, j, outcome.error), ExecutionEvent(id)); }
    ProjectNothing(T.Announce(a), ExecutionEvent(id));
  }

  lemma {:induction false} AttemptsExecution(a: T.Action, run: nat -> T.ToolOutcome, tick: nat, i: nat, j: nat, id: Id)
    requires a.id == Minted(tick, Executor, [i])
    ensures WholeAttempt(Project(T.Attempts(a, run, j), ExecutionEvent(id)), id, tick, i, j)
    decreases a.maxAttempts - j
  {
    hide By, Project, T.Sandboxed, T.Retry, T.Conclude;
    var outcome, f := run(j), ExecutionEvent(id);
    SandboxedExecution(a, tick, i, j, outcome, id);
    RestIsSilent(a, j, outcome, id);
    if T.TryAgain(a, j, outcome) {
      AttemptsExecution(a, run, tick, i, j + 1, id);
      ProjectConcat(T.Sandboxed(a, j, outcome) + T.Retry(a, j, outcome.error), T.Attempts(a, run, j + 1), f);
      ProjectConcat(T.Sandboxed(a, j, outcome), T.Retry(a, j, outcome.error), f);
    } else {
      ProjectConcat(T.Sandboxed(a, j, outcome), T.Conclude(a, j, outcome), f);
    }
  }

  lemma ActionExecution(n: Notation, b: T.Behaviour, e: T.Equipment, planId: Id, orderedAction: string, i: nat,
        tick: nat, id: Id)
    ensures WholeAttempt(Project(T.ExecuteAction(n, b, e, planId, orderedAction, i, tick).1, ExecutionEvent(id)), id, tick, i, 1)
  {
    hide By, Project, T.Announce, T.Attempts, T.Conclude, T.Obstacle, T.ActionType, T.MaxAttempts, T.LastAttempt,
         T.Logged;
    var a, f := T.ActionOf(e, planId, orderedAction, i, tick), ExecutionEvent(id);
    var obstacle := T.Obstacle(e, a.kind);
    if obstacle.Some? {
      var failure := T.Fails(n.say(obstacle.value), false);
      RestIsSilent(a, 1, failure, id);
      ProjectConcat(T.Announce(a), T.Conclude(a, 1, failure), f);
    } else {
      var run := (k: nat) => b(tick, i, k);
      RestIsSilent(a, 1, run(1), id);
      AttemptsExecution(a, run, tick, i, 1, id);
      ProjectConcat(T.Announce(a), T.Attempts(a, run, 1), f);
    }
  }

  lemma {:induction false} GrantExecution(n: Notation, b: T.Behaviour, e: T.Equipment, planId: Id,
        actions: seq<string>, i: nat, tick: nat, id: Id)
    requires i <= |actions|
    ensures Whole(Project(T.ExecuteFrom(n, b, e, planId, actions, i, tick).1, ExecutionEvent(id)), id, tick, i)
    decreases |actions| - i
  {
    hide By, Project, T.ExecuteAction, IsExecution;
    if i == |actions| {
      ProjectNothing([], ExecutionEvent(id));
    } else {
      var one, rest := T.ExecuteAction(n, b, e, planId, actions[i], i, tick).1, T.ExecuteFrom(n, b, e, planId, actions, i + 1, tick).1;
      ActionExecution(n, b, e, planId, actions[i], i, tick, id);
      GrantExecution(n, b, e, planId, actions, i + 1, tick, id);
      ProjectConcat(one, rest, ExecutionEvent(id));
      OneActionOnly(Project(one, ExecutionEvent(id)), Project(rest, ExecutionEvent(id)), id, tick, i);
    }
  }

  lemma OneActionOnly(one: seq<bool>, rest: seq<bool>, id: Id, tick: nat, i: nat)
    requires WholeAttempt(one, id, tick, i, 1) && Whole(rest, id, tick, i + 1)
    ensures Whole(one + rest, id, tick, i)
  {
    hide IsExecution;
    if one != [] && rest != [] {
      var k: nat :| IsExecution(id, tick, i, k);
      forall j: nat, l: nat | IsExecution(id, tick, j, l) ensures j == i {
        OneActionEach(id, tick, i, k, j, l);
      }
    }
  }

  lemma OneActionEach(id: Id, tick: nat, i: nat, k: nat, j: nat, l: nat)
    requires IsExecution(id, tick, i, k) && IsExecution(id, tick, j, l)
    ensures j == i
  {
    assert [i, k][0] == [j, l][0];
  }

  /** What the Executor sends about an execution: nothing, or a fresh execution's two transitions. */
  lemma ExecutorSends(n: Notation, b: T.Behaviour, s: T.TState, e: Event, tick: nat, id: Id)
    ensures var sent := Project(T.Step(n, b, s, e, tick).published, ExecutionEvent(id));
            sent == [] || (sent == [false, true] && id.Minted? && id.tick == tick && ExecutionEvent(id)(e.body) == None)
  {
    hide By, Project, T.ExecuteFrom, T.OnOwn;
    if e.body.OfGovernor? && e.body.g.ApprovalGranted? {
      GrantExecution(n, b, s.equipment, e.body.g.planId, e.body.g.actions, 0, tick, id);
    } else {
      ProjectNothing([], ExecutionEvent(id));
    }
  }

  // ---------------------------------------------------------------- one delivery

  /** Cutting an execution's two transitions anywhere. */
  lemma Cut(past: seq<bool>, heard: seq<bool>, rest: seq<bool>)
    requires past + heard + rest == [] || past + heard + rest == [false] || past + heard + rest == [false, true]
    requires heard == [] || heard == [false] || heard == [true]
    ensures heard == [false] ==> past == []
    ensures heard == [true] ==> past == [false]
    ensures past == [] || past == [false] || past == [false, true]
    ensures heard == [] ==> past + heard == past
  {
    var all := past + heard + rest;
    assert |past| <= |all|;
    assert forall i :: 0 <= i < |past| ==> past[i] == all[i];
    if heard != [] { assert all[|past|] == heard[0]; }
  }

  /** The log moves only for the execution named. */
  lemma ExecutorRecords(n: Notation, b: T.Behaviour, s: T.TState, e: Event, tick: nat, id: Id, past: seq<bool>, rest: seq<bool>)
    requires Project(s.sandbox, OfExecution(id)) == past && (id in s.pendingSandbox <==> past == [false])
    requires var all := past + Image(ExecutionEvent(id), e.body) + rest; all == [] || all == [false] || all == [false, true]
    requires e.body.OfExecutor? && e.body.t.SandboxCompleted? ==> e.body.t.executionId in s.pendingSandbox
    ensures var s' := T.Step(n, b, s, e, tick).state;
            && Project(s'.sandbox, OfExecution(id)) == past + Image(ExecutionEvent(id), e.body)
            && (id in s'.pendingSandbox <==> past + Image(ExecutionEvent(id), e.body) == [false])
  {
    hide By, Project, T.OnApprovalGranted, T.OnCredential, T.OnRetry;
    var s' := T.Step(n, b, s, e, tick).state;
    var f := OfExecution(id);
    Cut(past, Image(ExecutionEvent(id), e.body), rest);
    if e.body.OfGovernor? && e.body.g.ApprovalGranted? { TT.GrantsLeaveLogs(n, b, s, e.body.g, tick); }
    if e.body.OfExecutor? && (e.body.t.SandboxStarted? || e.body.t.SandboxCompleted?) {
      var r := s'.sandbox[|s.sandbox|];
      assert s'.sandbox == s.sandbox + [r];
      ProjectSnoc(s.sandbox, r, f);
      assert Image(f, r) == Image(ExecutionEvent(id), e.body);
    } else {
      if e.body.OfExecutor? && (e.body.t.RetryScheduled? || e.body.t.RetryStarted? || e.body.t.RetryExhausted?) { RetriesLeaveSandbox(s, e); }
    }
  }

  lemma RetriesLeaveSandbox(s: T.TState, e: Event)
    requires e.body.OfExecutor? && (e.body.t.RetryScheduled? || e.body.t.RetryStarted? || e.body.t.RetryExhausted?)
    ensures var s' := T.OnRetry(s, e.body.t, e.time); s'.sandbox == s.sandbox && s'.pendingSandbox == s.pendingSandbox
  {
  }

  lemma LogProjects(p: Point, id: Id)
    requires p.queue != []
    ensures var f := ExecutionEvent(id);
            && Project(Log(p), f) == Project(p.past, f) + Image(f, p.queue[0]) + Project(p.queue[1..], f)
            && Project(p.past + [p.queue[0]], f) == Project(p.past, f) + Image(f, p.queue[0])
  {
    hide Project;
    var f := ExecutionEvent(id);
    LogTurns(p);
    ProjectSnoc(p.past, p.queue[0], f);
    ProjectConcat(p.past + [p.queue[0]], p.queue[1..], f);
  }

  /** A completion is only dispatched while its execution is pending, so the handler never raises. */
  lemma CompletionFindsPending(p: Point)
    requires LoggedTogether(Log(p), p.ticks, false) && Tracked(p.o.executor, p.past)
    requires p.queue != [] && p.queue[0].OfExecutor? && p.queue[0].t.SandboxCompleted?
    ensures p.queue[0].t.executionId in p.o.executor.pendingSandbox
  {
    hide Project;
    var id := p.queue[0].t.executionId;
    LogProjects(p, id);
    assert Both(Project(Log(p), ExecutionEvent(id)), id, p.ticks, false);
    Cut(Project(p.past, ExecutionEvent(id)), [true], Project(p.queue[1..], ExecutionEvent(id)));
  }

  lemma HeadTracked(v: Setting, p: Point, e: Event)
    requires LoggedTogether(Log(p), p.ticks, false) && Tracked(p.o.executor, p.past) && p.queue != [] && HeadIs(p, e)
    ensures Tracked(Successor(v, p.o, e, p.ticks).executor, p.past + [e.body])
  {
    hide T.Step, Project, P.Step, W.Step, X.Step, G.Step, M.Step;
    var s := p.o.executor;
    var s' := T.Step(Text(v), v.behaviour, s, e, p.ticks).state;
    if e.body.OfExecutor? && e.body.t.SandboxCompleted? { CompletionFindsPending(p); }
    forall id ensures Project(s'.sandbox, OfExecution(id)) == Project(p.past + [e.body], ExecutionEvent(id))
                      && (id in s'.pendingSandbox <==> Project(p.past + [e.body], ExecutionEvent(id)) == [false]) {
      LogProjects(p, id);
      assert Both(Project(Log(p), ExecutionEvent(id)), id, p.ticks, false);
      ExecutorRecords(Text(v), v.behaviour, s, e, p.ticks, id, Project(p.past, ExecutionEvent(id)), Project(p.queue[1..], ExecutionEvent(id)));
    }
  }

  lemma OnlyTheExecutors(before: seq<Payload>, own: seq<Payload>, after: seq<Payload>, f: Payload -> Option<bool>,
        id: Id)
    requires (forall p <- before + after :: !p.OfExecutor?) && f == ExecutionEvent(id)
    ensures Project(before + own + after, f) == Project(own, f)
  {
    assert (forall p <- before :: p in before + after) && (forall p <- after :: p in before + after);
    ProjectNothing(before, f);
    ProjectNothing(after, f);
    ProjectConcat(before + own, after, f);
    ProjectConcat(before, own, f);
  }

  lemma PublishedTogether(v: Setting, log: seq<Payload>, o: OState, e: Event, tick: nat, whole: bool, n: nat)
    requires LoggedTogether(log, tick, whole)
    ensures LoggedTogether(log + Publications(v, o, e, tick), tick + 1, whole)
    ensures !whole ==> LoggedTogether(log + Taken(Publications(v, o, e, tick), n), tick + 1, whole)
  {
    hide P.Step, W.Step, X.Step, G.Step, T.Step, M.Step, Publications, Project;
    var pubs := Publications(v, o, e, tick);
    var before, after := ExecutorsPart(v, o, e, tick);
    var own := T.Step(Text(v), v.behaviour, o.executor, e, tick).published;
    forall id ensures Both(Project(log + pubs, ExecutionEvent(id)), id, tick + 1, whole)
                      && (!whole ==> Both(Project(log + Taken(pubs, n), ExecutionEvent(id)), id, tick + 1, whole)) {
      assert Both(Project(log, ExecutionEvent(id)), id, tick, whole);
      ProjectConcat(log, pubs, ExecutionEvent(id));
      ProjectConcat(log, Taken(pubs, n), ExecutionEvent(id));
      OnlyTheExecutors(before, own, after, ExecutionEvent(id), id);
      ExecutorSends(Text(v), v.behaviour, o.executor, e, tick, id);
      assert [] + Project(own, ExecutionEvent(id)) == Project(own, ExecutionEvent(id));
      TakenSays(pubs, n, id);
    }
  }

  /** What was logged of two transitions published together. */
  lemma TakenSays(pubs: seq<Payload>, n: nat, id: Id)
    ensures Project(pubs, ExecutionEvent(id)) == [] ==> Project(Taken(pubs, n), ExecutionEvent(id)) == []
    ensures Project(pubs, ExecutionEvent(id)) == [false, true] ==>
              Project(Taken(pubs, n), ExecutionEvent(id)) in [[], [false], [false, true]]
  {
    hide Project;
    var f, taken := ExecutionEvent(id), Taken(pubs, n);
    assert pubs == taken + pubs[|taken|..];
    ProjectConcat(taken, pubs[|taken|..], f);
    var all, part, rest := Project(pubs, f), Project(taken, f), Project(pubs[|taken|..], f);
    assert all == part + rest;
    if all == [false, true] {
      assert forall i :: 0 <= i < |part| ==> part[i] == all[i];
      assert part == all[..|part|] && |part| <= 2;
      assert all[..1] == [false] && all[..2] == all;
    }
  }

  lemma EnteredTogether(log: seq<Payload>, o: OState, body: Payload, ticks: nat, whole: bool)
    requires LoggedTogether(log, ticks, whole) && Outside(o, body)
    ensures LoggedTogether(log + [body], ticks, whole)
  {
    hide Project;
    forall id ensures Both(Project(log + [body], ExecutionEvent(id)), id, ticks, whole) {
      assert Both(Project(log, ExecutionEvent(id)), id, ticks, whole);
      ProjectSnoc(log, body, ExecutionEvent(id));
      assert Image(ExecutionEvent(id), body) == [];
    }
  }

  lemma AgedTogether(log: seq<Payload>, ticks: nat, whole: bool)
    requires LoggedTogether(log, ticks, whole)
    ensures LoggedTogether(log, ticks + 1, whole)
  {
    hide Project;
    forall id ensures Both(Project(log, ExecutionEvent(id)), id, ticks + 1, whole) { assert Both(Project(log, ExecutionEvent(id)), id, ticks, whole); }
  }

  // ---------------------------------------------------------------- over whole runs

  /** In whole dispatches, or in any. */
  ghost predicate Paired(p: Point, whole: bool) {
    LoggedTogether(Log(p), p.ticks, whole)
  }

  ghost predicate Executing(p: Point) {
    Paired(p, false) && Tracked(p.o.executor, p.past)
  }

  /** Only a process that dies in the middle of a dispatch leaves half an execution on the log. */
  lemma StepStaysPaired(v: Setting, p: Point, move: Move, e: Event, whole: bool)
    requires Paired(p, whole) && Possible(p, move) && (whole ==> !move.Tear?) && HeadIs(p, e)
    ensures Paired(Stepped(v, p, move, e), whole)
  {
    hide LoggedTogether, Publications, Successor, Outside, Reconfigures;
    if p.queue != [] { LogTurns(p); }
    match move
    case Enter(body, _) => EnteredTogether(Log(p), p.o, body, p.ticks, whole); assert Log(Entered(p, body)) == Log(p) + [body];
    case Next => PublishedTogether(v, Log(p), p.o, e, p.ticks, whole, 0); assert Log(Moved(v, p, e)) == Log(p) + Publications(v, p.o, e, p.ticks);
    case Drop => assert Log(Dropped(p)) == Log(p);
    case Reboot => assert Log(Rebooted(p)) == Log(p);
    case Tear(n) => TearingStaysPaired(v, p, e, n);
    case Hear => AgedTogether(Log(p), p.ticks, whole); assert Log(Heard(v, p, e)) == Log(p);
    case Configure(o) =>
  }

  lemma TearingStaysPaired(v: Setting, p: Point, e: Event, n: nat)
    requires p.queue != []
    ensures Paired(p, false) ==> Paired(Torn(v, p, e, n), false)
  {
    hide LoggedTogether, Publications, Successor;
    if Paired(p, false) { PublishedTogether(v, Log(p), p.o, e, p.ticks, false, n); }
    assert Log(Torn(v, p, e, n)) == Log(p) + Taken(Publications(v, p.o, e, p.ticks), n);
  }

  lemma ConfiguringTracks(p: Point, o: OState)
    requires Tracked(p.o.executor, p.past) && Reconfigures(p.o, o)
    ensures Tracked(o.executor, p.past)
  {
    hide Project, BeliefsInRange;
  }

  lemma NothingTracked()
    ensures Tracked(Organism.Initial().executor, [])
  {
  }

  lemma StepStaysExecuting(v: Setting, p: Point, move: Move, e: Event)
    requires Executing(p) && Possible(p, move) && Affords(NoDrops, p, move) && HeadIs(p, e)
    ensures Executing(Stepped(v, p, move, e))
  {
    hide LoggedTogether, Tracked, Publications, Successor, Outside, Reconfigures;
    StepStaysPaired(v, p, move, e, false);
    NothingTracked();
    match move
    case Next => HeadTracked(v, p, e);
    case Hear => HeadTracked(v, p, e);
    case Configure(o) => ConfiguringTracks(p, o);
    case _ =>
  }

  lemma BornExecuting(whole: bool)
    ensures Executing(Birth()) && Paired(Birth(), whole)
  {
  }

  lemma RunsStayExecuting(v: Setting, moves: seq<Move>)
    requires Legal(v, moves) && Loses(v, moves, NoDrops)
    ensures Executing(Here(v, moves))
  {
    hide Reached, Legal, Loses, Executing, Paired, Possible, Affords, Stepped;
    var inv := (p: Point) => Executing(p);
    BornExecuting(false);
    forall p, move, e: Event | inv(p) && Possible(p, move) && Affords(NoDrops, p, move) && HeadIs(p, e)
      ensures inv(Stepped(v, p, move, e)) {
      StepStaysExecuting(v, p, move, e);
    }
    RunsKeep(v, moves, NoDrops, inv);
  }

  lemma RunsStayWhole(v: Setting, moves: seq<Move>)
    requires Legal(v, moves) && Loses(v, moves, NoTears)
    ensures Paired(Here(v, moves), true)
  {
    hide Reached, Legal, Loses, Executing, Paired, Possible, Stepped;
    var inv := (p: Point) => Paired(p, true);
    BornExecuting(true);
    forall p, move, e: Event | inv(p) && Possible(p, move) && Affords(NoTears, p, move) && HeadIs(p, e)
      ensures inv(Stepped(v, p, move, e)) {
      StepStaysPaired(v, p, move, e, true);
    }
    RunsKeep(v, moves, NoTears, inv);
  }

  lemma {:induction false} TearsAreNoDrops(v: Setting, moves: seq<Move>)
    requires Loses(v, moves, NoTears)
    ensures Loses(v, moves, NoDrops)
  {
    hide Here;
    if moves != [] { TearsAreNoDrops(v, moves[..|moves| - 1]); }
  }

  /** No execution on the log was started and not completed. */
  ghost predicate NoneOpen(log: seq<Payload>) {
    forall id :: Project(log, ExecutionEvent(id)) != [false]
  }

  /** What is on record is settled exactly when no execution is open in what was dispatched. */
  lemma SettledIffNoneOpen(p: Point)
    requires Executing(p)
    ensures Settled(p.o.executor) <==> NoneOpen(p.past)
  {
    hide Project;
    var s := p.o.executor;
    if NoneOpen(p.past) {
      forall id ensures id !in s.pendingSandbox { assert Project(p.past, ExecutionEvent(id)) != [false]; }
      forall r | r in s.sandbox ensures Project(s.sandbox, OfExecution(r.id)) == [false, true] {
        var i :| 0 <= i < |s.sandbox| && s.sandbox[i] == r;
        ProjectMember(s.sandbox, OfExecution(r.id), i);
        PastIs(p, r.id);
        assert Project(p.past, ExecutionEvent(r.id)) != [false];
      }
    } else {
      var id :| Project(p.past, ExecutionEvent(id)) == [false];
      assert id in s.pendingSandbox;
    }
  }

  lemma PastIs(p: Point, id: Id)
    requires Paired(p, false)
    ensures Project(p.past, ExecutionEvent(id)) in [[], [false], [false, true]]
  {
    hide Project;
    var past, queue := Project(p.past, ExecutionEvent(id)), Project(p.queue, ExecutionEvent(id));
    ProjectConcat(p.past, p.queue, ExecutionEvent(id));
    assert Both(past + queue, id, p.ticks, false);
    assert past + [] + queue == past + queue;
    Cut(past, [], queue);
  }

  /**
   As long as shutdown drops nothing, whenever the queue has drained: no execution is pending, and every one on record was
   started once and then completed once, exactly when no execution was left open on the log by a process that died in the
   middle of a dispatch.
   */
  lemma SandboxesAreSettledIff(v: Setting, moves: seq<Move>)
    requires Legal(v, moves) && Loses(v, moves, NoDrops) && Here(v, moves).queue == []
    ensures Settled(Here(v, moves).o.executor) <==> NoneOpen(Log(Here(v, moves)))
  {
    hide Here, Legal, Loses, Project, Executing, Settled, NoneOpen;
    RunsStayExecuting(v, moves);
    SettledIffNoneOpen(Here(v, moves));
    assert Log(Here(v, moves)) == Here(v, moves).past;
  }

  /** So they are settled however often the process died between dispatches. */
  lemma SandboxesAreSettled(v: Setting, moves: seq<Move>)
    requires Legal(v, moves) && Loses(v, moves, NoTears) && Here(v, moves).queue == []
    ensures Settled(Here(v, moves).o.executor)
  {
    hide Here, Legal, Loses, Project, Settled;
    TearsAreNoDrops(v, moves);
    SandboxesAreSettledIff(v, moves);
    RunsStayWhole(v, moves);
    WholeLeavesNoneOpen(Here(v, moves));
  }

  lemma WholeLeavesNoneOpen(p: Point)
    requires Paired(p, true)
    ensures NoneOpen(Log(p))
  {
    hide Project;
    forall id ensures Project(Log(p), ExecutionEvent(id)) != [false] { assert Both(Project(Log(p), ExecutionEvent(id)), id, p.ticks, true); }
  }

  /** In whole dispatches, an execution is open in what was dispatched exactly when its completion alone is queued. */
  lemma CutBetween(p: Point)
    requires Paired(p, true)
    ensures NoneOpen(p.past) <==> forall id :: Project(p.queue, ExecutionEvent(id)) != [true]
  {
    hide Project;
    forall id ensures Project(p.past, ExecutionEvent(id)) == [false] <==> Project(p.queue, ExecutionEvent(id)) == [true] {
      Halves(p, id);
    }
  }

  lemma Halves(p: Point, id: Id)
    requires Paired(p, true)
    ensures Project(p.past, ExecutionEvent(id)) == [false] <==> Project(p.queue, ExecutionEvent(id)) == [true]
  {
    hide Project;
    var past, queue := Project(p.past, ExecutionEvent(id)), Project(p.queue, ExecutionEvent(id));
    ProjectConcat(p.past, p.queue, ExecutionEvent(id));
    assert Both(past + queue, id, p.ticks, true);
    assert past + [] + queue == past + queue;
    Cut(past, [], queue);
    if past == [false] { assert queue == (past + queue)[1..]; }
    if past == [] { assert past + queue == queue; }
    if past == [false, true] { assert queue == (past + queue)[2..]; }
  }

  /**
   A stop. A process that dropped nothing before, after others that died between dispatches, is shut down with events still
   queued: its executions are settled exactly when no completion was queued whose start had been dispatched.
   */
  lemma HaltKeepsSandboxesSettledIff(v: Setting, moves: seq<Move>)
    requires Legal(v, moves) && Loses(v, moves, NoTears) && !Here(v, moves).replaying
    requires forall p <- Here(v, moves).queue :: !Lifecycle(p)
    ensures Settled(Here(v, Halt(v, moves)).o.executor) <==> forall id :: Project(Here(v, moves).queue, ExecutionEvent(id)) != [true]
  {
    hide Here, Legal, Loses, Project, Halt, Settled, LoggedTogether, Tracked, NoneOpen;
    TearsAreNoDrops(v, moves);
    RunsStayExecuting(v, moves);
    RunsStayWhole(v, moves);
    HaltIs(v, moves);
    SettledIffNoneOpen(Here(v, moves));
    CutBetween(Here(v, moves));
  }
}
