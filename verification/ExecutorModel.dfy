/** The Executor's handlers as functions: actions, retries, credentials. */
module ExecutorModel {
  import opened Prelude
  import opened Events
  import opened Rules

  datatype ToolOutcome = Succeeds(output: string) | Fails(error: string, retryable: bool)

  datatype CredentialStatus = Active | Inactive

  datatype Credential = Credential(id: Id, actionType: string, secret: string, status: CredentialStatus, updated: real)

  datatype ActionRecord = ActionRecord(actionId: Id, succeeded: bool, text: string)

  datatype SandboxRecord = SandboxRecord(id: Id, actionId: Id, actionType: string, status: string, started: real,
                                         completed: Option<real>, output: Option<string>, failure: Option<string>)

  datatype RetryStatus = IsScheduled | IsStarted | IsExhausted

  datatype RetryRecord = RetryRecord(actionId: Id, actionType: string, attempt: nat, status: RetryStatus, time: real,
      error: Option<string>)

  /** What is registered at boot, and the credentials events have put in place. */
  datatype Equipment = Equipment(tools: set<string>, policies: map<string, int>, required: set<string>,
      credentials: map<string, Credential>)

  datatype TState = TState(
    equipment: Equipment, actions: seq<ActionRecord>, sandbox: seq<SandboxRecord>, pendingSandbox: map<Id, SandboxRecord>,
    retries: seq<RetryRecord>, attempts: map<Id, nat>
  )

  /** Sandbox, tool and credentialed value together: the outcome of attempt k of ordered action i in delivery t. */
  type Behaviour = (nat, nat, nat) -> ToolOutcome

  const STARTED := "started"

  function Initial(): TState {
    TState(Equipment({}, map[], {}, map[]), [], [], map[], [], map[])
  }

  // ---------------------------------------------------------------- executing an action

  /** `_parse_ordered_action`'s action type: what precedes the first colon. */
  function ActionType(orderedAction: string): string {
    orderedAction[..IndexOf(orderedAction, ':')]
  }

  /** `RetryManager.get_policy(...).max_attempts` */
  function MaxAttempts(e: Equipment, actionType: string): int {
    Lookup(e.policies, actionType).GetOr(1)
  }

  /** The reasons an action fails before any sandbox is entered. */
  function Obstacle(e: Equipment, actionType: string): Option<Phrase> {
    if actionType !in e.tools then Some(NoTool(actionType))
    else if actionType in e.required || actionType in e.credentials then
      match Lookup(e.credentials, actionType)
      case None => Some(NoCredential(actionType))
      case Some(credential) => if credential.status.Active? then None else Some(Revoked(actionType))
    else None
  }

  datatype Action = Action(id: Id, planId: Id, kind: string, maxAttempts: int)

  function ExecutionId(a: Action, attempt: nat): Id {
    match a.id
    case Minted(tick, minter, path) => Minted(tick, minter, path + [attempt])
    case Given(name) => a.id
  }

  function Announce(a: Action): (r: seq<Payload>)
    ensures By(Executor, r, 8)
  {
    [OfExecutor(ActionApproved(a.id, a.planId, a.kind)), OfExecutor(ActionAttempted(a.id, a.kind, 1))]
  }

  /** `_run_in_sandbox` */
  function Sandboxed(a: Action, attempt: nat, outcome: ToolOutcome): (r: seq<Payload>)
    ensures By(Executor, r, 8)
  {
    var id := ExecutionId(a, attempt);
    [OfExecutor(SandboxStarted(id, a.id, a.kind)),
     OfExecutor(match outcome
                case Succeeds(output) => SandboxCompleted(id, a.id, a.kind, "succeeded", Some(output), None)
                case Fails(error, _) => SandboxCompleted(id, a.id, a.kind, "failed", None, Some(error)))]
  }

  function Retry(a: Action, attempt: nat, error: string): (r: seq<Payload>)
    ensures By(Executor, r, 8)
  {
    [OfExecutor(RetryScheduled(a.id, a.planId, a.kind, attempt, attempt + 1, error)),
     OfExecutor(RetryStarted(a.id, a.planId, a.kind, attempt + 1)),
     OfExecutor(ActionAttempted(a.id, a.kind, attempt + 1))]
  }

  function Conclude(a: Action, attempt: nat, outcome: ToolOutcome): (r: seq<Payload>)
    ensures By(Executor, r, 8)
  {
    match outcome
    case Succeeds(output) => [OfExecutor(ActionSucceeded(a.id, a.planId, output))]
    case Fails(error, retryable) =>
      [OfExecutor(ActionFailed(a.id, a.planId, error))]
      + if retryable && a.maxAttempts > 1
        then [OfExecutor(RetryExhausted(a.id, a.planId, a.kind, attempt, a.maxAttempts, error))] else []
  }

  predicate TryAgain(a: Action, attempt: nat, outcome: ToolOutcome) {
    outcome.Fails? && outcome.retryable && attempt < a.maxAttempts
  }

  /** The attempt that is not followed by another. */
  function LastAttempt(a: Action, run: nat -> ToolOutcome, attempt: nat): (last: nat)
    ensures attempt <= last && !TryAgain(a, last, run(last))
    ensures forall k :: attempt <= k < last ==> TryAgain(a, k, run(k))
    decreases a.maxAttempts - attempt
  {
    if TryAgain(a, attempt, run(attempt)) then LastAttempt(a, run, attempt + 1) else attempt
  }

  /** What the retry loop publishes from attempt number `attempt` on. */
  function Attempts(a: Action, run: nat -> ToolOutcome, attempt: nat): (r: seq<Payload>)
    ensures By(Executor, r, 8)
    decreases a.maxAttempts - attempt
  {
    hide Sandboxed, Retry, Conclude;
    var outcome := run(attempt);
    if TryAgain(a, attempt, outcome)
    then Sandboxed(a, attempt, outcome) + Retry(a, attempt, outcome.error) + Attempts(a, run, attempt + 1)
    else Sandboxed(a, attempt, outcome) + Conclude(a, attempt, outcome)
  }

  function Logged(a: Action, outcome: ToolOutcome): ActionRecord {
    match outcome
    case Succeeds(output) => ActionRecord(a.id, true, output)
    case Fails(error, _) => ActionRecord(a.id, false, error)
  }

  function ActionOf(e: Equipment, planId: Id, orderedAction: string, i: nat, tick: nat): Action {
    Action(Minted(tick, Executor, [i]), planId, ActionType(orderedAction), MaxAttempts(e, ActionType(orderedAction)))
  }

  /** `_execute_action` for ordered action number i of a plan. */
  function ExecuteAction(n: Notation, behaviour: Behaviour, e: Equipment, planId: Id, orderedAction: string, i: nat,
        tick: nat): (r: (ActionRecord, seq<Payload>))
    ensures By(Executor, r.1, 8)
  {
    hide Announce, Attempts, Conclude, ActionType, Obstacle;
    var a := ActionOf(e, planId, orderedAction, i, tick);
    match Obstacle(e, a.kind)
    case Some(phrase) => (Logged(a, Fails(n.say(phrase), false)), Announce(a) + Conclude(a, 1, Fails(n.say(phrase), false)))
    case None =>
      var run := (k: nat) => behaviour(tick, i, k);
      (Logged(a, run(LastAttempt(a, run, 1))), Announce(a) + Attempts(a, run, 1))
  }

  /** The actions from number i on. */
  function ExecuteFrom(n: Notation, behaviour: Behaviour, e: Equipment, planId: Id, actions: seq<string>, i: nat,
        tick: nat): (r: (seq<ActionRecord>, seq<Payload>))
    requires i <= |actions|
    ensures By(Executor, r.1, 8)
    decreases |actions| - i
  {
    hide ExecuteAction;
    if i == |actions| then ([], [])
    else
      var one := ExecuteAction(n, behaviour, e, planId, actions[i], i, tick);
      var rest := ExecuteFrom(n, behaviour, e, planId, actions, i + 1, tick);
      ([one.0] + rest.0, one.1 + rest.1)
  }

  function OnApprovalGranted(n: Notation, behaviour: Behaviour, s: TState, g: GovernorEvent,
        tick: nat): (r: Reaction<TState>)
    requires g.ApprovalGranted?
    ensures By(Executor, r.published, 8)
  {
    hide ExecuteFrom;
    var (records, published) := ExecuteFrom(n, behaviour, s.equipment, g.planId, g.actions, 0, tick);
    Reaction(s.(actions := s.actions + records), published)
  }

  // ---------------------------------------------------------------- lifecycles

  function OnSandboxStarted(s: TState, t: ExecutorEvent, time: real): TState
    requires t.SandboxStarted?
  {
    var record := SandboxRecord(t.executionId, t.actionId, t.actionType, STARTED, time, None, None, None);
    s.(sandbox := s.sandbox + [record], pendingSandbox := s.pendingSandbox[t.executionId := record])
  }

  function OnSandboxCompleted(s: TState, t: ExecutorEvent, time: real): TState
    requires t.SandboxCompleted?
  {
    if t.executionId !in s.pendingSandbox then s  // KeyError
    else
      var pending := s.pendingSandbox[t.executionId];
      s.(pendingSandbox := s.pendingSandbox - {t.executionId},
         sandbox := s.sandbox + [SandboxRecord(t.executionId, t.actionId, t.actionType, t.status, pending.started, Some(time), t.output, t.failure)])
  }

  function OnRetry(s: TState, t: ExecutorEvent, time: real): TState
    requires t.RetryScheduled? || t.RetryStarted? || t.RetryExhausted?
  {
    match t
    case RetryScheduled(actionId, _, actionType, _, nextAttempt, error) =>
      s.(retries := s.retries + [RetryRecord(actionId, actionType, nextAttempt, IsScheduled, time, Some(error))])
    case RetryStarted(actionId, _, actionType, attempt) =>
      s.(retries := s.retries + [RetryRecord(actionId, actionType, attempt, IsStarted, time, None)],
         attempts := s.attempts[actionId := attempt])
    case RetryExhausted(actionId, _, actionType, attemptsMade, _, error) =>
      s.(retries := s.retries + [RetryRecord(actionId, actionType, attemptsMade, IsExhausted, time, Some(error))])
  }

  function Put(e: Equipment, c: Credential): Equipment {
    e.(credentials := e.credentials[c.actionType := c])
  }

  function OnCredential(e: Equipment, t: ExecutorEvent, time: real): Equipment
    requires t.CredentialRegistered? || t.CredentialUpdated? || t.CredentialRevoked?
  {
    match t
    case CredentialRegistered(id, actionType, secret) => Put(e, Credential(id, actionType, secret, Active, time))
    case CredentialUpdated(id, actionType, secret) => Put(e, Credential(id, actionType, secret, Active, time))
    case CredentialRevoked(id, actionType) =>
      if actionType !in e.credentials then e  // KeyError
      else Put(e, Credential(id, actionType, e.credentials[actionType].secret, Inactive, time))
  }

  function OnOwn(s: TState, t: ExecutorEvent, time: real): TState {
    if t.SandboxStarted? then OnSandboxStarted(s, t, time)
    else if t.SandboxCompleted? then OnSandboxCompleted(s, t, time)
    else if t.RetryScheduled? || t.RetryStarted? || t.RetryExhausted? then OnRetry(s, t, time)
    else if t.CredentialRegistered? || t.CredentialUpdated? || t.CredentialRevoked? then s.(equipment := OnCredential(s.equipment, t, time))
    else s
  }

  function Step(n: Notation, behaviour: Behaviour, s: TState, e: Event, tick: nat): Reaction<TState> {
    match e.body
    case OfGovernor(g) => if g.ApprovalGranted? then OnApprovalGranted(n, behaviour, s, g, tick) else Reaction(s, [])
    case OfExecutor(t) => Reaction(OnOwn(s, t, e.time), [])
    case _ => Reaction(s, [])
  }

  // ---------------------------------------------------------------- what snapshots rebuild

  function ExecutionOf(r: SandboxRecord): Id { r.id }

  /** `_restore_sandbox_executions`: executions whose latest transition is the start. */
  function RebuiltSandbox(records: seq<SandboxRecord>): map<Id, SandboxRecord> {
    var latest := Latest(records, ExecutionOf);
    map id | id in latest && latest[id].status == STARTED :: latest[id]
  }

  /** `RetryManager.restore`: the latest started attempt of each action. */
  function RebuiltAttempts(records: seq<RetryRecord>): map<Id, nat> {
    if records == [] then map[]
    else
      var n := |records| - 1;
      var before := RebuiltAttempts(records[..n]);
      if records[n].status == IsStarted then before[records[n].actionId := records[n].attempt] else before
  }
}
