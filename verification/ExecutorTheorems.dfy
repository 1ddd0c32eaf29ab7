/** What the Executor runs, for any tools and credentials, and what its logs hold. */
module ExecutorTheorems {
  import opened Prelude
  import opened Events
  import opened Rules
  import opened ExecutorModel

  // ---------------------------------------------------------------- the trace of the retry loop

  predicate EntersSandbox(p: Payload) { p.OfExecutor? && (p.t.SandboxStarted? || p.t.SandboxCompleted?) }

  /** One failed attempt and the retry it leads to: five events. */
  function Round(a: Action, run: nat -> ToolOutcome, k: nat): (r: seq<Payload>)
    requires run(k).Fails?
    ensures |r| == 5
  {
    var error := run(k).error;
    [OfExecutor(SandboxStarted(ExecutionId(a, k), a.id, a.kind)),
     OfExecutor(SandboxCompleted(ExecutionId(a, k), a.id, a.kind, "failed", None, Some(error))),
     OfExecutor(RetryScheduled(a.id, a.planId, a.kind, k, k + 1, error)),
     OfExecutor(RetryStarted(a.id, a.planId, a.kind, k + 1)),
     OfExecutor(ActionAttempted(a.id, a.kind, k + 1))]
  }

  lemma RoundIs(a: Action, run: nat -> ToolOutcome, k: nat)
    requires run(k).Fails?
    ensures Round(a, run, k) == Sandboxed(a, k, run(k)) + Retry(a, k, run(k).error)
  {
    hide By, ExecutionId;
  }

  lemma {:induction false} LastAttemptBound(a: Action, run: nat -> ToolOutcome, j: nat)
    ensures LastAttempt(a, run, j) <= if a.maxAttempts > j then a.maxAttempts else j
    decreases a.maxAttempts - j
  {
    if TryAgain(a, j, run(j)) { LastAttemptBound(a, run, j + 1); }
  }

  lemma {:induction false} LoopShape(a: Action, run: nat -> ToolOutcome, j: nat)
    ensures var n, trace := LastAttempt(a, run, j), Attempts(a, run, j);
            && |trace| == 5 * (n - j) + 2 + |Conclude(a, n, run(n))|
            && (forall k :: j <= k < n ==> trace[5 * (k - j)..5 * (k - j) + 5] == Round(a, run, k))
            && trace[5 * (n - j)..] == Sandboxed(a, n, run(n)) + Conclude(a, n, run(n))
    decreases a.maxAttempts - j
  {
    hide By, Sandboxed, Retry, Conclude;
    var n, trace := LastAttempt(a, run, j), Attempts(a, run, j);
    SandboxedLength(a, j, run(j));
    if TryAgain(a, j, run(j)) {
      RoundIs(a, run, j);
      LoopShape(a, run, j + 1);
      var rest := Attempts(a, run, j + 1);
      assert trace == Round(a, run, j) + rest;
      forall k | j <= k < n ensures trace[5 * (k - j)..5 * (k - j) + 5] == Round(a, run, k) {
        if k > j { ShiftSlice(Round(a, run, j), rest, 5 * (k - j - 1), 5); }
      }
      assert trace[5 * (n - j)..] == rest[5 * (n - j - 1)..];
    }
  }

  lemma SandboxedLength(a: Action, k: nat, outcome: ToolOutcome)
    ensures |Sandboxed(a, k, outcome)| == 2
  {
    hide By;
  }

  lemma ShiftSlice(first: seq<Payload>, rest: seq<Payload>, at: nat, len: nat)
    requires at + len <= |rest|
    ensures (first + rest)[|first| + at..|first| + at + len] == rest[at..at + len]
  {
  }

  /**
   For every behaviour of the tool: n sandbox runs, 1 <= n <= max(1, max_attempts). The first n - 1 each
   failed retryably and are each followed by scheduled, started and attempted events for the next attempt.
   */
  lemma RetryRounds(a: Action, run: nat -> ToolOutcome)
    ensures var n, trace := LastAttempt(a, run, 1), Attempts(a, run, 1);
            && 1 <= n <= (if a.maxAttempts > 1 then a.maxAttempts else 1)
            && 5 * (n - 1) + 2 <= |trace|
            && (forall k :: 1 <= k < n ==> run(k).Fails? && run(k).retryable && trace[5 * (k - 1)..5 * (k - 1) + 5] == Round(a, run, k))
  {
    hide By, Sandboxed, Attempts, Round, Retry, Conclude;
    LastAttemptBound(a, run, 1);
    LoopShape(a, run, 1);
  }

  /**
   The last run is followed by the action's one result, and by an exhaustion, of exactly max_attempts
   attempts, just when it failed retryably with more than one attempt allowed.
   */
  lemma RetryEnd(a: Action, run: nat -> ToolOutcome)
    ensures var n, trace := LastAttempt(a, run, 1), Attempts(a, run, 1);
            var at, last := 5 * (n - 1), run(n);
            && at + 2 < |trace|
            && trace[at] == OfExecutor(SandboxStarted(ExecutionId(a, n), a.id, a.kind))
            && trace[at + 1] == OfExecutor(match last
                                           case Succeeds(output) => SandboxCompleted(ExecutionId(a, n), a.id, a.kind, "succeeded", Some(output), None)
                                           case Fails(error, _) => SandboxCompleted(ExecutionId(a, n), a.id, a.kind, "failed", None, Some(error)))
            && trace[at + 2] == OfExecutor(match last
                                           case Succeeds(output) => ActionSucceeded(a.id, a.planId, output)
                                           case Fails(error, _) => ActionFailed(a.id, a.planId, error))
            && trace[at + 3..] == (if last.Fails? && last.retryable && a.maxAttempts > 1
                                   then [OfExecutor(RetryExhausted(a.id, a.planId, a.kind, n, n, last.error))] else [])
  {
    hide By, Sandboxed, Attempts, Round, Retry, Conclude;
    var n := LastAttempt(a, run, 1);
    LastAttemptBound(a, run, 1);
    LoopShape(a, run, 1);
    LastSandboxed(a, n, run(n));
    Concluded(a, n, run(n));
    TailParts(Attempts(a, run, 1), 5 * (n - 1), Sandboxed(a, n, run(n)), Conclude(a, n, run(n)));
  }

  lemma LastSandboxed(a: Action, n: nat, outcome: ToolOutcome)
    ensures Sandboxed(a, n, outcome) ==
            [OfExecutor(SandboxStarted(ExecutionId(a, n), a.id, a.kind)),
             OfExecutor(match outcome
                        case Succeeds(output) => SandboxCompleted(ExecutionId(a, n), a.id, a.kind, "succeeded", Some(output), None)
                        case Fails(error, _) => SandboxCompleted(ExecutionId(a, n), a.id, a.kind, "failed", None, Some(error)))]
  {
    hide By;
  }

  lemma Concluded(a: Action, n: nat, outcome: ToolOutcome)
    requires !TryAgain(a, n, outcome) && n <= (if a.maxAttempts > 1 then a.maxAttempts else 1)
    ensures var c := Conclude(a, n, outcome);
            && c != [] && c[0] == OfExecutor(match outcome
                                             case Succeeds(output) => ActionSucceeded(a.id, a.planId, output)
                                             case Fails(error, _) => ActionFailed(a.id, a.planId, error))
            && c[1..] == (if outcome.Fails? && outcome.retryable && a.maxAttempts > 1
                          then [OfExecutor(RetryExhausted(a.id, a.planId, a.kind, n, n, outcome.error))] else [])
  {
    hide By;
  }

  lemma TailParts(trace: seq<Payload>, at: nat, two: seq<Payload>, rest: seq<Payload>)
    requires at <= |trace| && trace[at..] == two + rest && |two| == 2 && rest != []
    ensures trace[at] == two[0] && trace[at + 1] == two[1] && trace[at + 2] == rest[0] && trace[at + 3..] == rest[1..]
  {
    assert trace[at..][0] == two[0] && trace[at..][1] == two[1] && trace[at..][2..] == rest;
  }

  // ---------------------------------------------------------------- what an action needs before it runs

  /** What is ordered names its type before the first colon. */
  lemma TypeReads(kind: string, details: string)
    requires Without(kind, ':')
    ensures ActionType(kind) == kind && ActionType(kind + ":" + details) == kind
  {
    IndexInFront(kind, ':', details);
    assert kind + ":" + details == kind + [':'] + details;
    assert kind[..|kind|] == kind && (kind + ":" + details)[..|kind|] == kind;
  }

  /** A tool of the type is registered, and its credential is active if one is required or held. */
  predicate Equipped(e: Equipment, k: string) {
    k in e.tools && (k in e.required || k in e.credentials ==> k in e.credentials && e.credentials[k].status.Active?)
  }

  /** What is wrong otherwise. */
  function Lack(e: Equipment, k: string): Phrase {
    if k !in e.tools then NoTool(k) else if k !in e.credentials then NoCredential(k) else Revoked(k)
  }

  lemma ObstacleIs(e: Equipment, k: string)
    ensures Obstacle(e, k) == if Equipped(e, k) then None else Some(Lack(e, k))
  {
  }

  /** Ordered action number i of a plan, allowed the attempts its type's policy sets, or one. */
  function OrderedAction(e: Equipment, planId: Id, k: string, i: nat, tick: nat): Action {
    Action(Minted(tick, Executor, [i]), planId, k, if k in e.policies then e.policies[k] else 1)
  }

  predicate Begins(ps: seq<Payload>, a: Action) {
    |ps| >= 2 && ps[0] == OfExecutor(ActionApproved(a.id, a.planId, a.kind)) && ps[1] == OfExecutor(ActionAttempted(a.id, a.kind, 1))
  }

  /**
   An ordered action is approved and attempted first. Equipped, it goes through the retry loop, and its log entry is how the
   last attempt ended; otherwise it fails at once, for what it lacks.
   */
  lemma ActionIsExecuted(n: Notation, behaviour: Behaviour, e: Equipment, planId: Id, orderedAction: string, i: nat, tick: nat)
    ensures var k := ActionType(orderedAction);
            var a, r, run := OrderedAction(e, planId, k, i, tick), ExecuteAction(n, behaviour, e, planId, orderedAction, i, tick), (j: nat) => behaviour(tick, i, j);
            && Begins(r.1, a)
            && if Equipped(e, k)
               then r.1[2..] == Attempts(a, run, 1)
                    && r.0 == (match run(LastAttempt(a, run, 1)) case Succeeds(output) => ActionRecord(a.id, true, output) case Fails(error, _) => ActionRecord(a.id, false, error))
               else r.1[2..] == [OfExecutor(ActionFailed(a.id, planId, n.say(Lack(e, k))))] && r.0 == ActionRecord(a.id, false, n.say(Lack(e, k)))
  {
    hide By, Attempts, ActionType, LastAttempt, Equipped, Lack, Obstacle;
    ObstacleIs(e, ActionType(orderedAction));
  }

  /** An ordered action enters the sandbox exactly when its tool and any credential it needs are in place. */
  lemma SandboxedIffEquipped(n: Notation, behaviour: Behaviour, e: Equipment, planId: Id, orderedAction: string,
        i: nat, tick: nat)
    ensures (exists p <- ExecuteAction(n, behaviour, e, planId, orderedAction, i, tick).1 :: EntersSandbox(p))
            <==> Equipped(e, ActionType(orderedAction))
  {
    hide By, Attempts, ActionType, LastAttempt, Equipped, Lack, ExecuteAction;
    ActionIsExecuted(n, behaviour, e, planId, orderedAction, i, tick);
    var ps, a := ExecuteAction(n, behaviour, e, planId, orderedAction, i, tick).1, OrderedAction(e, planId, ActionType(orderedAction), i, tick);
    assert ps == [ps[0], ps[1]] + ps[2..];
    if Equipped(e, a.kind) {
      var run := (j: nat) => behaviour(tick, i, j);
      AttemptsEnter(a, run);
      var p :| p in Attempts(a, run, 1) && EntersSandbox(p);
      assert p in ps;
    }
  }

  lemma AttemptsEnter(a: Action, run: nat -> ToolOutcome)
    ensures exists p <- Attempts(a, run, 1) :: EntersSandbox(p)
  {
    hide By, Conclude, Retry, ExecutionId;
    var trace := Attempts(a, run, 1);
    assert trace[0] == Sandboxed(a, 1, run(1))[0];
    assert EntersSandbox(trace[0]) && trace[0] in trace;
  }

  // ---------------------------------------------------------------- every ordered action, once, in order

  /** What an approval says: the action's id, its plan, its type. */
  datatype Start = Start(actionId: Id, planId: Id, kind: string)

  function StartIn(p: Payload): Option<Start> {
    match p
    case OfExecutor(ActionApproved(action, plan, kind)) => Some(Start(action, plan, kind))
    case _ => None
  }

  function ResultIn(p: Payload): Option<ActionRecord> {
    match p
    case OfExecutor(ActionSucceeded(action, _, text)) => Some(ActionRecord(action, true, text))
    case OfExecutor(ActionFailed(action, _, text)) => Some(ActionRecord(action, false, text))
    case _ => None
  }

  predicate Tells(ps: seq<Payload>, starts: seq<Start>, results: seq<ActionRecord>) {
    Project(ps, StartIn) == starts && Project(ps, ResultIn) == results
  }

  lemma TellsBoth(a: seq<Payload>, b: seq<Payload>, starts: seq<Start>, more: seq<Start>, results: seq<ActionRecord>, others: seq<ActionRecord>)
    requires Tells(a, starts, results) && Tells(b, more, others)
    ensures Tells(a + b, starts + more, results + others)
  {
    ProjectConcat(a, b, StartIn);
    ProjectConcat(a, b, ResultIn);
  }

  lemma TellsNothing(ps: seq<Payload>)
    requires forall p <- ps :: StartIn(p) == None && ResultIn(p) == None
    ensures Tells(ps, [], [])
  {
    ProjectNothing(ps, StartIn);
    ProjectNothing(ps, ResultIn);
  }

  lemma ConclusionTells(a: Action, k: nat, outcome: ToolOutcome)
    ensures Tells(Conclude(a, k, outcome), [], [match outcome case Succeeds(output) => ActionRecord(a.id, true, output) case Fails(error, _) => ActionRecord(a.id, false, error)])
    ensures Tells(Sandboxed(a, k, outcome), [], [])
    ensures outcome.Fails? ==> Tells(Retry(a, k, outcome.error), [], [])
  {
    hide By, ExecutionId, Project;
    var c := Conclude(a, k, outcome);
    assert c == [c[0]] + c[1..];
    ProjectOne(c[0], StartIn);
    ProjectOne(c[0], ResultIn);
    TellsNothing(c[1..]);
    ProjectConcat([c[0]], c[1..], StartIn);
    ProjectConcat([c[0]], c[1..], ResultIn);
    TellsNothing(Sandboxed(a, k, outcome));
    if outcome.Fails? { TellsNothing(Retry(a, k, outcome.error)); }
  }

  lemma {:induction false} AttemptsTell(a: Action, run: nat -> ToolOutcome, j: nat)
    ensures Tells(Attempts(a, run, j), [], [Logged(a, run(LastAttempt(a, run, j)))])
    decreases a.maxAttempts - j
  {
    hide Sandboxed, Retry, Conclude, By, Tells;
    var outcome := run(j);
    ConclusionTells(a, j, outcome);
    if TryAgain(a, j, outcome) {
      AttemptsTell(a, run, j + 1);
      TellsBoth(Sandboxed(a, j, outcome), Retry(a, j, outcome.error), [], [], [], []);
      TellsBoth(Sandboxed(a, j, outcome) + Retry(a, j, outcome.error), Attempts(a, run, j + 1), [], [], [], [Logged(a, run(LastAttempt(a, run, j)))]);
    } else {
      TellsBoth(Sandboxed(a, j, outcome), Conclude(a, j, outcome), [], [], [], [Logged(a, outcome)]);
    }
    assert [] + [Logged(a, run(LastAttempt(a, run, j)))] == [Logged(a, run(LastAttempt(a, run, j)))];
  }

  lemma AnnouncementTells(a: Action)
    ensures Tells(Announce(a), [Start(a.id, a.planId, a.kind)], [])
  {
    hide By, Project;
    var ps := Announce(a);
    assert ps == [ps[0]] + [ps[1]];
    ProjectOne(ps[0], StartIn);
    ProjectOne(ps[0], ResultIn);
    ProjectSnoc([ps[0]], ps[1], StartIn);
    ProjectSnoc([ps[0]], ps[1], ResultIn);
  }

  lemma ActionTells(n: Notation, b: Behaviour, e: Equipment, planId: Id, orderedAction: string, i: nat, tick: nat)
    ensures var r := ExecuteAction(n, b, e, planId, orderedAction, i, tick);
            Tells(r.1, [Start(Minted(tick, Executor, [i]), planId, ActionType(orderedAction))], [r.0])
  {
    hide By, Attempts, Announce, Conclude, LastAttempt, ActionType, MaxAttempts, Obstacle, Tells;
    var a := ActionOf(e, planId, orderedAction, i, tick);
    AnnouncementTells(a);
    assert [Start(a.id, planId, a.kind)] + [] == [Start(a.id, planId, a.kind)];
    match Obstacle(e, a.kind)
    case Some(phrase) =>
      var failure := Fails(n.say(phrase), false);
      var record := Logged(a, failure);
      ConclusionTells(a, 1, failure);
      assert Tells(Conclude(a, 1, failure), [], [record]);
      TellsBoth(Announce(a), Conclude(a, 1, failure), [Start(a.id, planId, a.kind)], [], [], [record]);
      assert [] + [record] == [record];
    case None =>
      var run := (k: nat) => b(tick, i, k);
      var last := Logged(a, run(LastAttempt(a, run, 1)));
      AttemptsTell(a, run, 1);
      TellsBoth(Announce(a), Attempts(a, run, 1), [Start(a.id, planId, a.kind)], [], [], [last]);
      assert [] + [last] == [last];
  }

  /** Approval of each action from number i on, under the number it has in its plan. */
  function Starts(planId: Id, actions: seq<string>, i: nat, tick: nat): seq<Start>
    requires i <= |actions|
    decreases |actions| - i
  {
    if i == |actions| then []
    else [Start(Minted(tick, Executor, [i]), planId, ActionType(actions[i]))] + Starts(planId, actions, i + 1, tick)
  }

  lemma {:induction false} PlanTells(n: Notation, b: Behaviour, e: Equipment, planId: Id, actions: seq<string>, i: nat, tick: nat)
    requires i <= |actions|
    ensures var r := ExecuteFrom(n, b, e, planId, actions, i, tick); Tells(r.1, Starts(planId, actions, i, tick), r.0)
    decreases |actions| - i
  {
    hide ExecuteAction, ActionType, By, Tells;
    if i == |actions| {
      TellsNothing([]);
    } else {
      var one, rest := ExecuteAction(n, b, e, planId, actions[i], i, tick), ExecuteFrom(n, b, e, planId, actions, i + 1, tick);
      ActionTells(n, b, e, planId, actions[i], i, tick);
      PlanTells(n, b, e, planId, actions, i + 1, tick);
      TellsBoth(one.1, rest.1, [Start(Minted(tick, Executor, [i]), planId, ActionType(actions[i]))], Starts(planId, actions, i + 1, tick), [one.0], rest.0);
    }
  }

  /**
   A grant has every action of its plan approved once, in the order given and under its number; each is concluded once, in that
   order; and the log of actions holds exactly what was announced of them. Nothing else starts or ends an action.
   */
  lemma GrantIsCarriedOut(n: Notation, b: Behaviour, s: TState, e: Event, tick: nat)
    ensures var r := Step(n, b, s, e, tick);
            && r.state.actions == s.actions + Project(r.published, ResultIn)
            && (if e.body.OfGovernor? && e.body.g.ApprovalGranted?
                then Project(r.published, StartIn) == Starts(e.body.g.planId, e.body.g.actions, 0, tick) && |Project(r.published, ResultIn)| == |e.body.g.actions|
                else r.published == [])
  {
    hide ExecuteFrom, OnSandboxStarted, OnSandboxCompleted, OnRetry, OnCredential, ActionType, By, Project, Starts;
    assert s.actions + [] == s.actions;
    ProjectNothing([], ResultIn);
    if e.body.OfGovernor? && e.body.g.ApprovalGranted? {
      PlanTells(n, b, s.equipment, e.body.g.planId, e.body.g.actions, 0, tick);
      AsMany(n, b, s.equipment, e.body.g.planId, e.body.g.actions, 0, tick);
    } else if e.body.OfExecutor? {
      OwnLeavesActions(s, e.body.t, e.time);
    }
  }

  lemma OwnLeavesActions(s: TState, t: ExecutorEvent, time: real)
    ensures OnOwn(s, t, time).actions == s.actions
  {
    hide OnCredential;
  }

  lemma {:induction false} AsMany(n: Notation, b: Behaviour, e: Equipment, planId: Id, actions: seq<string>, i: nat, tick: nat)
    requires i <= |actions|
    ensures |ExecuteFrom(n, b, e, planId, actions, i, tick).0| == |actions| - i
    decreases |actions| - i
  {
    hide ExecuteAction, By;
    if i < |actions| { AsMany(n, b, e, planId, actions, i + 1, tick); }
  }

  // ---------------------------------------------------------------- credentials, told from the events

  /** The stores after a list of events, the first of them delivery number `tick`. */
  function Execute(n: Notation, b: Behaviour, s: TState, events: seq<Event>, tick: nat): TState {
    if events == [] then s
    else var k := |events| - 1; Step(n, b, Execute(n, b, s, events[..k], tick), events[k], tick + k).state
  }

  datatype Badge = Badge(secret: string, active: bool)

  predicate Issues(p: Payload, kind: string) {
    p.OfExecutor? && (p.t.CredentialRegistered? || p.t.CredentialUpdated?) && p.t.actionType == kind
  }

  predicate Revokes(p: Payload, kind: string) {
    p.OfExecutor? && p.t.CredentialRevoked? && p.t.actionType == kind
  }

  function BadgeIn(e: Equipment, kind: string): Option<Badge> {
    match Lookup(e.credentials, kind)
    case None => None
    case Some(c) => Some(Badge(c.secret, c.status.Active?))
  }

  function BadgeAfter(before: Option<Badge>, p: Payload, kind: string): Option<Badge> {
    if Issues(p, kind) then Some(Badge(p.t.secret, true))
    else if Revokes(p, kind) && before.Some? then Some(Badge(before.value.secret, false))
    else before
  }

  /** The credential the events leave for a type: issued active, made inactive by a revocation, issued again active. */
  function Standing(s: TState, events: seq<Event>, kind: string): Option<Badge> {
    if events == [] then BadgeIn(s.equipment, kind)
    else BadgeAfter(Standing(s, events[..|events| - 1], kind), events[|events| - 1].body, kind)
  }

  predicate SameBut(e: Equipment, e': Equipment) {
    e'.tools == e.tools && e'.required == e.required && e'.policies == e.policies
  }

  lemma CredentialChanges(e: Equipment, t: ExecutorEvent, time: real, kind: string)
    requires t.CredentialRegistered? || t.CredentialUpdated? || t.CredentialRevoked?
    ensures SameBut(e, OnCredential(e, t, time)) && BadgeIn(OnCredential(e, t, time), kind) == BadgeAfter(BadgeIn(e, kind), OfExecutor(t), kind)
  {
  }

  lemma CredentialStep(n: Notation, b: Behaviour, s: TState, e: Event, tick: nat, kind: string)
    ensures var e' := Step(n, b, s, e, tick).state.equipment;
            SameBut(s.equipment, e') && BadgeIn(e', kind) == BadgeAfter(BadgeIn(s.equipment, kind), e.body, kind)
  {
    hide ExecuteFrom, By, OnCredential, OnSandboxStarted, OnSandboxCompleted, OnRetry, BadgeIn;
    if e.body.OfExecutor? {
      var t := e.body.t;
      if t.CredentialRegistered? || t.CredentialUpdated? || t.CredentialRevoked? { CredentialChanges(s.equipment, t, e.time, kind); }
      OthersKeepEquipment(s, t, e.time);
    }
  }

  lemma OthersKeepEquipment(s: TState, t: ExecutorEvent, time: real)
    ensures !t.CredentialRegistered? && !t.CredentialUpdated? && !t.CredentialRevoked? ==> OnOwn(s, t, time).equipment == s.equipment
  {
    hide OnCredential;
  }

  lemma {:induction false} CredentialsStand(n: Notation, b: Behaviour, s: TState, events: seq<Event>, tick: nat, kind: string)
    ensures var e := Execute(n, b, s, events, tick).equipment;
            SameBut(s.equipment, e) && BadgeIn(e, kind) == Standing(s, events, kind)
  {
    hide Step;
    if events != [] {
      var k := |events| - 1;
      CredentialsStand(n, b, s, events[..k], tick, kind);
      CredentialStep(n, b, Execute(n, b, s, events[..k], tick), events[k], tick + k, kind);
    }
  }

  predicate Enters(p: Payload, kind: string) {
    EntersSandbox(p) && p.t.actionType == kind
  }

  ghost predicate Runs(ps: seq<Payload>, kind: string) {
    exists p <- ps :: Enters(p, kind)
  }

  lemma RunsEither(a: seq<Payload>, b: seq<Payload>, kind: string)
    ensures Runs(a + b, kind) <==> Runs(a, kind) || Runs(b, kind)
  {
    hide Enters;
    if Runs(a, kind) { var p :| p in a && Enters(p, kind); assert p in a + b; }
    if Runs(b, kind) { var p :| p in b && Enters(p, kind); assert p in a + b; }
  }

  ghost predicate OnlyOf(ps: seq<Payload>, kind: string) {
    forall p <- ps :: EntersSandbox(p) ==> p.t.actionType == kind
  }

  lemma OnlyOfBoth(a: seq<Payload>, b: seq<Payload>, kind: string)
    requires OnlyOf(a, kind) && OnlyOf(b, kind)
    ensures OnlyOf(a + b, kind)
  {
  }

  lemma PartsAreOf(a: Action, k: nat, outcome: ToolOutcome)
    ensures OnlyOf(Sandboxed(a, k, outcome), a.kind) && OnlyOf(Conclude(a, k, outcome), a.kind)
    ensures outcome.Fails? ==> OnlyOf(Retry(a, k, outcome.error), a.kind)
  {
    hide By, ExecutionId;
  }

  lemma {:induction false} AttemptsAreOf(a: Action, run: nat -> ToolOutcome, j: nat)
    ensures OnlyOf(Attempts(a, run, j), a.kind)
    decreases a.maxAttempts - j
  {
    hide Sandboxed, Retry, Conclude, By, OnlyOf;
    var outcome := run(j);
    PartsAreOf(a, j, outcome);
    if TryAgain(a, j, outcome) {
      AttemptsAreOf(a, run, j + 1);
      OnlyOfBoth(Sandboxed(a, j, outcome), Retry(a, j, outcome.error), a.kind);
      OnlyOfBoth(Sandboxed(a, j, outcome) + Retry(a, j, outcome.error), Attempts(a, run, j + 1), a.kind);
    } else {
      OnlyOfBoth(Sandboxed(a, j, outcome), Conclude(a, j, outcome), a.kind);
    }
  }

  lemma ActionRuns(n: Notation, b: Behaviour, e: Equipment, planId: Id, orderedAction: string, i: nat, tick: nat, kind: string)
    ensures Runs(ExecuteAction(n, b, e, planId, orderedAction, i, tick).1, kind) <==> ActionType(orderedAction) == kind && Equipped(e, kind)
  {
    hide By, Attempts, ActionType, LastAttempt, Equipped, Lack, ExecuteAction;
    ActionIsExecuted(n, b, e, planId, orderedAction, i, tick);
    SandboxedIffEquipped(n, b, e, planId, orderedAction, i, tick);
    var ps, a := ExecuteAction(n, b, e, planId, orderedAction, i, tick).1, OrderedAction(e, planId, ActionType(orderedAction), i, tick);
    AttemptsAreOf(a, (j: nat) => b(tick, i, j), 1);
    OnlyOfBoth([ps[0], ps[1]], ps[2..], a.kind);
    assert ps == [ps[0], ps[1]] + ps[2..];
  }

  ghost predicate Ordered(actions: seq<string>, i: nat, kind: string) {
    exists k :: i <= k < |actions| && ActionType(actions[k]) == kind
  }

  lemma {:induction false} PlanRuns(n: Notation, b: Behaviour, e: Equipment, planId: Id, actions: seq<string>, i: nat, tick: nat, kind: string)
    requires i <= |actions|
    ensures Runs(ExecuteFrom(n, b, e, planId, actions, i, tick).1, kind) <==> Ordered(actions, i, kind) && Equipped(e, kind)
    decreases |actions| - i
  {
    hide ExecuteAction, Equipped, By, ActionType, Enters;
    if i < |actions| {
      ActionRuns(n, b, e, planId, actions[i], i, tick, kind);
      PlanRuns(n, b, e, planId, actions, i + 1, tick, kind);
      RunsEither(ExecuteAction(n, b, e, planId, actions[i], i, tick).1, ExecuteFrom(n, b, e, planId, actions, i + 1, tick).1, kind);
      assert Ordered(actions, i, kind) <==> ActionType(actions[i]) == kind || Ordered(actions, i + 1, kind);
    }
  }

  predicate GrantOrders(p: Payload, kind: string) {
    p.OfGovernor? && p.g.ApprovalGranted? && exists k :: 0 <= k < |p.g.actions| && ActionType(p.g.actions[k]) == kind
  }

  /**
   After any events, delivering one more runs a tool of a type exactly when it is a grant that orders an action of the type,
   the tool is registered, and the credential the events leave is active, or there is none and none is required.
   */
  lemma RunsIffCredentialed(n: Notation, b: Behaviour, s: TState, events: seq<Event>, tick: nat, e: Event, kind: string)
    ensures Runs(Step(n, b, Execute(n, b, s, events, tick), e, tick + |events|).published, kind)
            <==> && GrantOrders(e.body, kind) && kind in s.equipment.tools
                 && match Standing(s, events, kind) case Some(badge) => badge.active case None => kind !in s.equipment.required
  {
    hide Execute, ExecuteFrom, OnOwn, By, ActionType, Standing;
    CredentialsStand(n, b, s, events, tick, kind);
    var before := Execute(n, b, s, events, tick);
    if e.body.OfGovernor? && e.body.g.ApprovalGranted? {
      PlanRuns(n, b, before.equipment, e.body.g.planId, e.body.g.actions, 0, tick + |events|, kind);
    }
  }

  lemma {:induction false} RevokedStands(s: TState, before: seq<Event>, revocation: Event, after: seq<Event>, kind: string)
    requires Revokes(revocation.body, kind) && forall e <- after :: !Issues(e.body, kind)
    ensures var badge := Standing(s, before + [revocation] + after, kind);
            if Standing(s, before, kind).Some? then badge.Some? && !badge.value.active else badge.None?
  {
    var all := before + [revocation] + after;
    if after == [] {
      assert all[..|all| - 1] == before;
    } else {
      var k := |after| - 1;
      assert all[..|all| - 1] == before + [revocation] + after[..k] && all[|all| - 1] == after[k] && after[k] in after;
      assert forall e <- after[..k] :: e in after;
      RevokedStands(s, before, revocation, after[..k], kind);
    }
  }

  /** So after a credential is revoked no tool of its type is run, whatever is delivered, until one is issued for the type again. */
  lemma RevokedNeverRuns(n: Notation, b: Behaviour, s: TState, before: seq<Event>, revocation: Event, after: seq<Event>,
        tick: nat, e: Event, kind: string)
    requires Revokes(revocation.body, kind) && forall x <- after :: !Issues(x.body, kind)
    requires Standing(s, before, kind).Some? || kind in s.equipment.required
    ensures var events := before + [revocation] + after;
            !Runs(Step(n, b, Execute(n, b, s, events, tick), e, tick + |events|).published, kind)
  {
    hide Execute, Step, Runs, Standing;
    RevokedStands(s, before, revocation, after, kind);
    RunsIffCredentialed(n, b, s, before + [revocation] + after, tick, e, kind);
  }

  // ---------------------------------------------------------------- the logs of retries and executions, told from the events

  function RetryIn(e: Event): Option<RetryRecord> {
    match e.body
    case OfExecutor(RetryScheduled(action, _, kind, _, next, error)) => Some(RetryRecord(action, kind, next, IsScheduled, e.time, Some(error)))
    case OfExecutor(RetryStarted(action, _, kind, attempt)) => Some(RetryRecord(action, kind, attempt, IsStarted, e.time, None))
    case OfExecutor(RetryExhausted(action, _, kind, made, _, error)) => Some(RetryRecord(action, kind, made, IsExhausted, e.time, Some(error)))
    case _ => None
  }

  predicate AboutExecution(p: Payload, id: Id) {
    EntersSandbox(p) && p.t.executionId == id
  }

  /** When an execution that is still open was entered. */
  function Entered(s: TState, events: seq<Event>, id: Id): Option<real> {
    if events == [] then (if id in s.pendingSandbox then Some(s.pendingSandbox[id].started) else None)
    else
      var e := events[|events| - 1];
      if AboutExecution(e.body, id) then (if e.body.t.SandboxStarted? then Some(e.time) else None)
      else Entered(s, events[..|events| - 1], id)
  }

  /** Entries, and exits of executions that are open, with when each was entered and how it came out. */
  function Executions(s: TState, events: seq<Event>): seq<SandboxRecord> {
    if events == [] then []
    else
      var before, e := events[..|events| - 1], events[|events| - 1];
      Executions(s, before) + match e.body
                              case OfExecutor(SandboxStarted(id, action, kind)) => [SandboxRecord(id, action, kind, "started", e.time, None, None, None)]
                              case OfExecutor(SandboxCompleted(id, action, kind, status, output, failure)) =>
                                (match Entered(s, before, id)
                                 case None => []
                                 case Some(entered) => [SandboxRecord(id, action, kind, status, entered, Some(e.time), output, failure)])
                              case _ => []
  }

  function OpenSince(s: TState, id: Id): Option<real> {
    if id in s.pendingSandbox then Some(s.pendingSandbox[id].started) else None
  }

  lemma ExecutionStep(n: Notation, b: Behaviour, s: TState, e: Event, tick: nat, id: Id)
    ensures var s' := Step(n, b, s, e, tick).state;
            && OpenSince(s', id) == (if AboutExecution(e.body, id) then (if e.body.t.SandboxStarted? then Some(e.time) else None) else OpenSince(s, id))
            && s'.retries == s.retries + Image(RetryIn, e)
            && s'.sandbox == s.sandbox + match e.body
                                         case OfExecutor(SandboxStarted(started, action, kind)) => [SandboxRecord(started, action, kind, "started", e.time, None, None, None)]
                                         case OfExecutor(SandboxCompleted(done, action, kind, status, output, failure)) =>
                                           (match OpenSince(s, done)
                                            case None => []
                                            case Some(entered) => [SandboxRecord(done, action, kind, status, entered, Some(e.time), output, failure)])
                                         case _ => []
  {
    hide ExecuteFrom, OnCredential, By;
    assert s.retries + [] == s.retries && s.sandbox + [] == s.sandbox;
  }

  /** Over any events: what is open, and what the two logs hold, is what the events tell. */
  lemma {:induction false} LogsAreTold(n: Notation, b: Behaviour, s: TState, events: seq<Event>, tick: nat, id: Id)
    ensures var s' := Execute(n, b, s, events, tick);
            && OpenSince(s', id) == Entered(s, events, id)
            && s'.sandbox == s.sandbox + Executions(s, events)
            && s'.retries == s.retries + Project(events, RetryIn)
  {
    hide Step, Project;
    if events == [] {
      ProjectNothing([], RetryIn);
      assert s.retries + [] == s.retries && s.sandbox + [] == s.sandbox;
    } else {
      var k := |events| - 1;
      var before, e := Execute(n, b, s, events[..k], tick), events[k];
      LogsAreTold(n, b, s, events[..k], tick, id);
      ExecutionStep(n, b, before, e, tick + k, id);
      if e.body.OfExecutor? && e.body.t.SandboxCompleted? { LogsAreTold(n, b, s, events[..k], tick, e.body.t.executionId); }
      assert events == events[..k] + [e];
      ProjectSnoc(events[..k], e, RetryIn);
      Associates(s.retries, Project(events[..k], RetryIn), Image(RetryIn, e));
    }
  }

  // ---------------------------------------------------------------- snapshots rebuild what is pending

  /** A completion never reports the status that means started. */
  predicate Honest(p: Payload) {
    p.OfExecutor? && p.t.SandboxCompleted? ==> p.t.status != STARTED
  }

  ghost predicate Rebuildable(s: TState) {
    s.pendingSandbox == RebuiltSandbox(s.sandbox) && s.attempts == RebuiltAttempts(s.retries)
  }

  lemma SandboxAppended(records: seq<SandboxRecord>, r: SandboxRecord)
    ensures RebuiltSandbox(records + [r])
         == if r.status == STARTED then RebuiltSandbox(records)[r.id := r] else RebuiltSandbox(records) - {r.id}
  {
    LatestSnoc(records, r, ExecutionOf);
  }

  lemma RetryAppended(records: seq<RetryRecord>, r: RetryRecord)
    ensures RebuiltAttempts(records + [r])
         == if r.status == IsStarted then RebuiltAttempts(records)[r.actionId := r.attempt] else RebuiltAttempts(records)
  {
    assert (records + [r])[..|records|] == records;
  }

  /** Restoring the sandbox and retry logs rebuilds exactly the executions pending and the attempts made. */
  lemma StepRebuildable(n: Notation, behaviour: Behaviour, s: TState, e: Event, tick: nat)
    requires Rebuildable(s) && Honest(e.body)
    ensures Rebuildable(Step(n, behaviour, s, e, tick).state)
  {
    hide OnApprovalGranted, RebuiltSandbox, RebuiltAttempts, By, OnCredential;
    var s' := Step(n, behaviour, s, e, tick).state;
    if e.body.OfGovernor? && e.body.g.ApprovalGranted? {
      GrantsLeaveLogs(n, behaviour, s, e.body.g, tick);
    } else if s'.sandbox != s.sandbox {
      SandboxAppended(s.sandbox, s'.sandbox[|s.sandbox|]);
    } else if s'.retries != s.retries {
      RetryAppended(s.retries, s'.retries[|s.retries|]);
    }
  }

  lemma GrantsLeaveLogs(n: Notation, behaviour: Behaviour, s: TState, g: GovernorEvent, tick: nat)
    requires g.ApprovalGranted?
    ensures var s' := OnApprovalGranted(n, behaviour, s, g, tick).state;
            s'.sandbox == s.sandbox && s'.pendingSandbox == s.pendingSandbox && s'.retries == s.retries && s'.attempts == s.attempts
  {
    hide ExecuteFrom, By;
  }
}
