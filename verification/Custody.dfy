/** Whatever is recorded of an action traces back to an ordered action with authority. */
module Custody {
  import opened Prelude
  import opened Events
  import opened Organism
  import opened Runs
  import opened Causality
  import A = Authority

  /** Before entry i, the action was approved as number k of those ordered by an authorised grant of its plan. */
  ghost predicate Ordered(log: seq<Payload>, i: int, action: Id, plan: Id) {
    exists g: nat, a: nat :: g < a < i <= |log| && A.Holds(log, g, plan) && A.Authorised(log, g, plan)
                             && Approves(log[a], action, plan) && Orders(log[g], log[a])
  }

  /** The action is the first of those a grant of the plan orders, and that grant has authority. */
  ghost predicate FirstOrdered(log: seq<Payload>, action: Id, plan: Id) {
    Ordered(log, |log|, action, plan) && Numbered(action, 0)
  }

  ghost predicate Accounted(log: seq<Payload>, i: nat, action: Id, plan: Id) {
    i < |log| && (Approves(log[i], action, plan) || Concludes(log[i], action, plan) || Records(log[i], action, plan)) ==> Ordered(log, i + 1, action, plan)
  }

  /**
   In every run, across shutdowns and restarts: whatever the log says of an action, its approval, its result or its outcome,
   it was approved before for its plan, as the ordered action whose number its id holds, by a grant of that plan; and that
   grant comes after the plan passed the constitution and then found sufficient budget, or after its owner approved its
   escalation.
   */
  lemma ActionsAreAuthorised(v: Setting, moves: seq<Move>, i: nat, action: Id, plan: Id)
    requires Legal(v, moves)
    ensures Accounted(Log(Here(v, moves)), i, action, plan)
  {
    hide Here, Legal, A.Authorised, Orders, Ordered;
    var log := Log(Here(v, moves));
    RunsStayJustified(v, moves);
    if i < |log| {
      if Approves(log[i], action, plan) {
        ApprovalIsOrdered(v, moves, i, action, plan);
      } else if Concludes(log[i], action, plan) {
        var a := ResultIsApproved(log, i, action, plan);
        ApprovalIsOrdered(v, moves, a, action, plan);
        OrderedStill(log, a + 1, i + 1, action, plan);
      } else if Records(log[i], action, plan) {
        var c := OutcomeIsOfResult(log, i, action, plan);
        var a := ResultIsApproved(log, c, action, plan);
        ApprovalIsOrdered(v, moves, a, action, plan);
        OrderedStill(log, a + 1, i + 1, action, plan);
      }
    }
  }

  lemma OrderedStill(log: seq<Payload>, i: nat, j: nat, action: Id, plan: Id)
    requires Ordered(log, i, action, plan) && i <= j <= |log|
    ensures Ordered(log, j, action, plan)
  {
    hide A.Authorised, Orders, Approves, A.Holds;
  }

  lemma ResultIsApproved(log: seq<Payload>, i: nat, action: Id, plan: Id) returns (a: nat)
    requires Justified(log) && i < |log| && Concludes(log[i], action, plan)
    ensures a < i && Approves(log[a], action, plan)
  {
    hide Orders;
    assert CausedBefore(log, i, log[i]);
    a :| a < i && a < |log| && Causes(log[a], log[i]);
  }

  lemma OutcomeIsOfResult(log: seq<Payload>, i: nat, action: Id, plan: Id) returns (c: nat)
    requires Justified(log) && i < |log| && Records(log[i], action, plan)
    ensures c < i && Concludes(log[c], action, plan)
  {
    hide Orders;
    assert CausedBefore(log, i, log[i]);
    c :| c < i && c < |log| && Causes(log[c], log[i]);
  }

  predicate ApprovesAt(log: seq<Payload>, i: nat, action: Id, plan: Id) {
    i < |log| && Approves(log[i], action, plan)
  }

  lemma ApprovalIsOrdered(v: Setting, moves: seq<Move>, i: nat, action: Id, plan: Id)
    requires Legal(v, moves) && ApprovesAt(Log(Here(v, moves)), i, action, plan)
    ensures Ordered(Log(Here(v, moves)), i + 1, action, plan)
  {
    hide Here, Legal, A.Authorised;
    var log := Log(Here(v, moves));
    RunsStayJustified(v, moves);
    assert CausedBefore(log, i, log[i]);
    var g: nat :| g < i && g < |log| && Causes(log[g], log[i]);
    A.GrantsAreAuthorised(v, moves, g, plan);
  }
}
