/** The Executor object: its logs, pending executions and retry attempts updated in place, held to ExecutorModel. */
module ExecutorObject {
  import opened Prelude
  import opened Events
  import opened Rules
  import opened ExecutorModel

  lemma LoopTurns(a: Action, run: nat -> ToolOutcome, attempt: nat, published: seq<Payload>)
    requires TryAgain(a, attempt, run(attempt))
    ensures LastAttempt(a, run, attempt) == LastAttempt(a, run, attempt + 1)
    ensures published + Attempts(a, run, attempt)
         == published + Sandboxed(a, attempt, run(attempt)) + Retry(a, attempt, run(attempt).error) + Attempts(a, run, attempt + 1)
  {
    hide Sandboxed, Retry, Conclude, By;
  }

  lemma LoopEnds(a: Action, run: nat -> ToolOutcome, attempt: nat, published: seq<Payload>)
    requires !TryAgain(a, attempt, run(attempt))
    ensures LastAttempt(a, run, attempt) == attempt
    ensures published + Attempts(a, run, attempt)
         == published + Sandboxed(a, attempt, run(attempt)) + Conclude(a, attempt, run(attempt))
  {
    hide Sandboxed, Retry, Conclude, By;
  }

  lemma ActionsTurn(n: Notation, behaviour: Behaviour, e: Equipment, planId: Id, actions: seq<string>, i: nat,
        tick: nat)
    requires i < |actions|
    ensures var one, rest := ExecuteAction(n, behaviour, e, planId, actions[i], i, tick), ExecuteFrom(n, behaviour, e, planId, actions, i + 1, tick);
            ExecuteFrom(n, behaviour, e, planId, actions, i, tick) == ([one.0] + rest.0, one.1 + rest.1)
  {
    hide ExecuteAction, By;
  }

  class Executor {
    const text: Notation
    const behaviour: Behaviour
    var tools: set<string>
    var policies: map<string, int>
    var required: set<string>
    var credentials: map<string, Credential>
    var actions: seq<ActionRecord>
    var sandbox: seq<SandboxRecord>
    var pendingSandbox: map<Id, SandboxRecord>
    var retries: seq<RetryRecord>
    var attempts: map<Id, nat>

    ghost function Gear(): Equipment
      reads this
    {
      Equipment(tools, policies, required, credentials)
    }

    ghost function State(): TState
      reads this
    {
      TState(Gear(), actions, sandbox, pendingSandbox, retries, attempts)
    }

    constructor (text: Notation, behaviour: Behaviour)
      ensures this.text == text && this.behaviour == behaviour && State() == Initial()
    {
      this.text, this.behaviour := text, behaviour;
      tools, policies, required, credentials := {}, map[], {}, map[];
      actions, sandbox, pendingSandbox, retries, attempts := [], [], map[], [], map[];
    }

    method RecordResult(a: Action, attempt: nat, outcome: ToolOutcome) returns (published: seq<Payload>)
      modifies this`actions
      ensures actions == old(actions) + [Logged(a, outcome)]
      ensures published == Conclude(a, attempt, outcome)
    {
      hide By;
      match outcome {
        case Succeeds(output) =>
          actions := actions + [ActionRecord(a.id, true, output)];
          published := [OfExecutor(ActionSucceeded(a.id, a.planId, output))];
        case Fails(error, retryable) =>
          actions := actions + [ActionRecord(a.id, false, error)];
          published := [OfExecutor(ActionFailed(a.id, a.planId, error))];
          published := published + if retryable && a.maxAttempts > 1
                                   then [OfExecutor(RetryExhausted(a.id, a.planId, a.kind, attempt, a.maxAttempts, error))] else [];
      }
    }

    /** `_run_in_sandbox`: one attempt, with the events that open and close its execution. */
    method RunInSandbox(a: Action, attempt: nat, outcome: ToolOutcome) returns (published: seq<Payload>)
      ensures published == Sandboxed(a, attempt, outcome)
    {
      hide By;
      var id := ExecutionId(a, attempt);
      published := [OfExecutor(SandboxStarted(id, a.id, a.kind))];
      match outcome {
        case Succeeds(output) =>
          published := published + [OfExecutor(SandboxCompleted(id, a.id, a.kind, "succeeded", Some(output), None))];
        case Fails(error, _) =>
          published := published + [OfExecutor(SandboxCompleted(id, a.id, a.kind, "failed", None, Some(error)))];
      }
    }

    /** The retry loop: runs the action until it succeeds, fails for good, or runs out of attempts. */
    method RunAttempts(a: Action, i: nat, tick: nat, announced: seq<Payload>) returns (published: seq<Payload>)
      modifies this`actions
      ensures var run := (k: nat) => behaviour(tick, i, k);
              && published == announced + Attempts(a, run, 1)
              && actions == old(actions) + [Logged(a, run(LastAttempt(a, run, 1)))]
    {
      hide By, Attempts, LastAttempt, Sandboxed, Retry, Conclude, Logged;
      var b := behaviour;
      var run := (k: nat) => b(tick, i, k);
      var attempt: nat := 1;
      published := announced;
      while true
        invariant published + Attempts(a, run, attempt) == announced + Attempts(a, run, 1)
        invariant LastAttempt(a, run, attempt) == LastAttempt(a, run, 1)
        invariant actions == old(actions)
        decreases a.maxAttempts - attempt
      {
        var outcome := run(attempt);
        var ran := RunInSandbox(a, attempt, outcome);
        if TryAgain(a, attempt, outcome) {
          LoopTurns(a, run, attempt, published);
          published := published + ran + Retry(a, attempt, outcome.error);
          attempt := attempt + 1;
        } else {
          LoopEnds(a, run, attempt, published);
          var concluded := RecordResult(a, attempt, outcome);
          published := published + ran + concluded;
          return;
        }
      }
    }

    method FindObstacle(actionType: string) returns (obstacle: Option<string>)
      ensures obstacle == (match Obstacle(Gear(), actionType) case None => None case Some(phrase) => Some(text.say(phrase)))
    {
      if actionType !in tools {
        return Some(text.say(NoTool(actionType)));
      }
      if actionType !in required && actionType !in credentials {
        return None;
      }
      if actionType !in credentials {
        return Some(text.say(NoCredential(actionType)));
      }
      obstacle := if credentials[actionType].status.Active? then None else Some(text.say(Revoked(actionType)));
    }

    method ExecuteAction(planId: Id, orderedAction: string, i: nat, tick: nat) returns (published: seq<Payload>)
      modifies this`actions
      ensures var (record, events) := ExecutorModel.ExecuteAction(text, behaviour, Gear(), planId, orderedAction, i, tick);
              published == events && actions == old(actions) + [record]
    {
      hide By, Attempts, LastAttempt, Conclude, Logged, Obstacle, ActionType, Announce;
      var kind := ActionType(orderedAction);
      var a := Action(Minted(tick, Component.Executor, [i]), planId, kind, Lookup(policies, kind).GetOr(1));
      var announced := Announce(a);
      var obstacle := FindObstacle(kind);
      if obstacle.Some? {
        var failed := RecordResult(a, 1, Fails(obstacle.value, false));
        published := announced + failed;
      } else {
        published := RunAttempts(a, i, tick, announced);
      }
    }

    method OnApprovalGranted(g: GovernorEvent, tick: nat) returns (published: seq<Payload>)
      requires g.ApprovalGranted?
      modifies this`actions
      ensures Reaction(State(), published) == ExecutorModel.OnApprovalGranted(text, behaviour, old(State()), g, tick)
    {
      hide By, ExecuteFrom, ExecutorModel.ExecuteAction;
      ghost var gear := Gear();
      ghost var whole := ExecuteFrom(text, behaviour, gear, g.planId, g.actions, 0, tick);
      published := [];
      var i := 0;
      while i < |g.actions|
        invariant 0 <= i <= |g.actions| && Gear() == gear
        invariant actions + ExecuteFrom(text, behaviour, gear, g.planId, g.actions, i, tick).0 == old(actions) + whole.0
        invariant published + ExecuteFrom(text, behaviour, gear, g.planId, g.actions, i, tick).1 == whole.1
      {
        ActionsTurn(text, behaviour, gear, g.planId, g.actions, i, tick);
        ghost var one := ExecutorModel.ExecuteAction(text, behaviour, gear, g.planId, g.actions[i], i, tick);
        ghost var rest := ExecuteFrom(text, behaviour, gear, g.planId, g.actions, i + 1, tick);
        Associates(actions, [one.0], rest.0);
        Associates(published, one.1, rest.1);
        var events := ExecuteAction(g.planId, g.actions[i], i, tick);
        published := published + events;
        i := i + 1;
      }
      assert ExecuteFrom(text, behaviour, gear, g.planId, g.actions, i, tick) == ([], []) by { NothingLeft(g.planId, g.actions, tick); }
      assert actions + [] == actions && published + [] == published;
    }

    lemma NothingLeft(planId: Id, ordered: seq<string>, tick: nat)
      ensures ExecuteFrom(text, behaviour, Gear(), planId, ordered, |ordered|, tick) == ([], [])
    {
    }

    method OnSandboxStarted(t: ExecutorEvent, time: real)
      requires t.SandboxStarted?
      modifies this`sandbox, this`pendingSandbox
      ensures State() == ExecutorModel.OnSandboxStarted(old(State()), t, time)
    {
      var record := SandboxRecord(t.executionId, t.actionId, t.actionType, STARTED, time, None, None, None);
      sandbox := sandbox + [record];
      pendingSandbox := pendingSandbox[t.executionId := record];
    }

    method OnSandboxCompleted(t: ExecutorEvent, time: real)
      requires t.SandboxCompleted?
      modifies this`sandbox, this`pendingSandbox
      ensures State() == ExecutorModel.OnSandboxCompleted(old(State()), t, time)
    {
      if t.executionId !in pendingSandbox {
        return;  // KeyError
      }
      var pending := pendingSandbox[t.executionId];
      pendingSandbox := pendingSandbox - {t.executionId};
      sandbox := sandbox + [SandboxRecord(t.executionId, t.actionId, t.actionType, t.status, pending.started, Some(time), t.output, t.failure)];
    }

    /** The three retry handlers: every transition is logged, and a start also counts as the attempt made. */
    method OnRetry(t: ExecutorEvent, time: real)
      requires t.RetryScheduled? || t.RetryStarted? || t.RetryExhausted?
      modifies this`retries, this`attempts
      ensures State() == ExecutorModel.OnRetry(old(State()), t, time)
    {
      match t {
        case RetryScheduled(actionId, _, actionType, _, nextAttempt, error) =>
          retries := retries + [RetryRecord(actionId, actionType, nextAttempt, IsScheduled, time, Some(error))];
        case RetryStarted(actionId, _, actionType, attempt) =>
          retries := retries + [RetryRecord(actionId, actionType, attempt, IsStarted, time, None)];
          attempts := attempts[actionId := attempt];
        case RetryExhausted(actionId, _, actionType, attemptsMade, _, error) =>
          retries := retries + [RetryRecord(actionId, actionType, attemptsMade, IsExhausted, time, Some(error))];
      }
    }

    method OnCredential(t: ExecutorEvent, time: real)
      requires t.CredentialRegistered? || t.CredentialUpdated? || t.CredentialRevoked?
      modifies this`credentials
      ensures Gear() == ExecutorModel.OnCredential(old(Gear()), t, time)
    {
      if t.CredentialRevoked? {
        if t.actionType !in credentials {
          return;  // KeyError
        }
        var current := credentials[t.actionType];
        credentials := credentials[t.actionType := Credential(t.credentialId, t.actionType, current.secret, Inactive, time)];
      } else {
        credentials := credentials[t.actionType := Credential(t.credentialId, t.actionType, t.secret, Active, time)];
      }
    }

    /** `_restore_sandbox_executions`: the log is refilled, and what started last and never completed is pending. */
    method RestoreSandboxExecutions(records: seq<SandboxRecord>)
      modifies this`sandbox, this`pendingSandbox
      ensures sandbox == old(sandbox) + records && pendingSandbox == RebuiltSandbox(records)
    {
      var latest: map<Id, SandboxRecord> := map[];
      var i := 0;
      while i < |records|
        invariant 0 <= i <= |records|
        invariant sandbox == old(sandbox) + records[..i] && latest == Latest(records[..i], ExecutionOf)
      {
        assert records[..i + 1] == records[..i] + [records[i]];
        LatestSnoc(records[..i], records[i], ExecutionOf);
        sandbox := sandbox + [records[i]];
        latest := latest[records[i].id := records[i]];
        i := i + 1;
      }
      assert records[..i] == records;
      pendingSandbox := map id | id in latest && latest[id].status == STARTED :: latest[id];
    }

    /** `RetryManager.restore` */
    method RestoreRetries(records: seq<RetryRecord>)
      modifies this`retries, this`attempts
      ensures retries == old(retries) + records && attempts == RebuiltAttempts(records)
    {
      retries := retries + records;
      attempts := map[];
      var i := 0;
      while i < |records|
        invariant 0 <= i <= |records| && retries == old(retries) + records
        invariant attempts == RebuiltAttempts(records[..i])
      {
        assert records[..i + 1][..i] == records[..i];
        attempts := if records[i].status == IsStarted then attempts[records[i].actionId := records[i].attempt] else attempts;
        i := i + 1;
      }
      assert records[..i] == records;
    }
  }
}
