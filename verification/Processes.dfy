/** The kernel's own calls on the wired organism are runs: starts, stops, crashes and restarts, draining included. */
module Processes {
  import opened Prelude
  import opened Events
  import opened KernelModel
  import opened Organism
  import opened Runs
  import K = KernelTheorems

  /** The kernel with the organism on it, and no snapshot file, stands where the run stands. */
  ghost predicate Matches(k: KState<OState, OState>, l: Life) {
    && k.saved == None && (k.running ==> k.started) && (k.started ==> k.replayed)
    && (if k.replayed then l.m == k.m && !Replaying(l)
        else l == Life(k.m.(head := 0), |k.m.log|) && k.m == Boot<OState, OState>(k.m.log, None, Organism.Initial(), k.m.ticks).m)
  }

  /** A run that stands where the kernel does; it drops nothing if `whole`. */
  ghost predicate Mirrors(v: Setting, k: KState<OState, OState>, moves: seq<Move>, whole: bool) {
    Legal(v, moves) && Matches(k, Reached(v, moves)) && (whole ==> Loses(v, moves, NoDrops))
  }

  lemma Onwards(v: Setting, moves: seq<Move>, move: Move)
    requires Legal(v, moves) && Allowed(Reached(v, moves), move)
    ensures Legal(v, moves + [move]) && Reached(v, moves + [move]) == Go(v, Reached(v, moves), move)
    ensures !move.Drop? && Loses(v, moves, NoDrops) ==> Loses(v, moves + [move], NoDrops)
  {
    hide Go, Allowed, Here, Publications, Successor;
    assert (moves + [move])[..|moves|] == moves;
  }

  /** Processing the head of the queue is one move. */
  lemma ProcessIsAMove(v: Setting, k: KState<OState, OState>, moves: seq<Move>, whole: bool) returns (more: seq<Move>)
    requires Mirrors(v, k, moves, whole) && k.replayed && k.m.head < |k.m.log|
    requires whole ==> Process(Live(v), k).lost == k.lost
    ensures Mirrors(v, Process(Live(v), k), moves + more, whole)
  {
    hide Reached, Legal, Loses, Deliver, Live, React, TerminalCount, Publications, Successor;
    RunsAreOrderly(v, moves);
    if k.stopping && !Lifecycle(k.m.log[k.m.head].body) {
      assert |Process(Live(v), k).lost| == |k.lost| + 1;
      Onwards(v, moves, Drop);
      more := [Drop];
    } else {
      Onwards(v, moves, Next);
      DeliverShape(Live(v), k.m);
      more := [Next];
    }
  }

  /** A drain is a list of moves. */
  lemma {:induction false} DrainIsARun(v: Setting, k: KState<OState, OState>, moves: seq<Move>, whole: bool) returns (more: seq<Move>)
    requires WellFormed(k.m) && Mirrors(v, k, moves, whole) && k.replayed
    requires whole ==> Drain(Live(v), k).lost == k.lost
    ensures Mirrors(v, Drain(Live(v), k), moves + more, whole)
    decreases Top(Queue(k.m)), AtTop(Queue(k.m), Top(Queue(k.m))), FirstAtTop(Queue(k.m), Top(Queue(k.m)))
  {
    hide Mirrors, Live, Ranked, Publications, Successor;
    more := [];
    assert moves + [] == moves;
    if Busy(k) {
      var w, k' := Live(v), Process(Live(v), k);
      ProcessShape(w, k);
      ProcessLowersMeasure(w, k);
      if whole { StillNothingLost(w, k); }
      more := ProcessIsAMove(v, k, moves, whole);
      var rest := DrainIsARun(v, k', moves + more, whole);
      assert moves + more + rest == moves + (more + rest);
      more := more + rest;
    }
  }

  /** What a drain does not lose, its first step does not lose. */
  lemma StillNothingLost(w: Wiring<OState, OState>, k: KState<OState, OState>)
    requires WellFormed(k.m) && Ranked(w) && Busy(k) && Drain(w, k).lost == k.lost
    ensures WellFormed(Process(w, k).m) && Process(w, k).lost == k.lost
  {
    hide Deliver, React, TerminalCount, Ranked;
    ProcessShape(w, k);
    ProcessLowersMeasure(w, k);
    K.DrainLosesMore(w, Process(w, k));
  }

  /** Publishing is one move, and a drain where the kernel drains. */
  lemma PublishIsARun(v: Setting, k: KState<OState, OState>, body: Payload, supplied: Option<Correlation>, moves: seq<Move>,
        whole: bool) returns (more: seq<Move>)
    requires WellFormed(k.m) && Mirrors(v, k, moves, whole) && k.replayed && Outside(k.m.state, body)
    requires whole ==> Publish(Live(v), k, body, supplied).lost == k.lost
    ensures Mirrors(v, Publish(Live(v), k, body, supplied), moves + more, whole)
  {
    hide Reached, Legal, Loses, Live, Ranked, Outside, Accept, Publications, Successor;
    RunsAreOrderly(v, moves);
    Onwards(v, moves, Enter(body, supplied));
    var k', entered := KernelModel.Enter(Live(v), k, body, supplied), moves + [Move.Enter(body, supplied)];
    EnteringGrows(Live(v), k.m, body, supplied);
    more := [Move.Enter(body, supplied)];
    if !k.started || Lifecycle(body) {
      var rest := DrainIsARun(v, k', entered, whole);
      assert entered + rest == moves + (more + rest);
      more := more + rest;
    }
  }

  lemma EnteringGrows(w: Wiring<OState, OState>, m: Machine<OState>, body: Payload, supplied: Option<Correlation>)
    requires WellFormed(m)
    ensures var m' := Accept(w, m, body, supplied, false); m'.head == m.head && |m'.log| == |m.log| + 1 && WellFormed(m')
  {
  }

  lemma {:induction false} FoldSnoc(v: Setting, o: OState, events: seq<Event>, e: Event, tick: nat)
    ensures Fold(Live(v), o, events + [e], tick) == Live(v).handler(Fold(Live(v), o, events, tick), e, tick + |events|).state
    decreases |events|
  {
    hide Successor, Publications;
    if events == [] {
      assert [] + [e] == [e] && [e][1..] == [];
    } else {
      assert (events + [e])[1..] == events[1..] + [e];
      FoldSnoc(v, Live(v).handler(o, events[0], tick).state, events[1..], e, tick + 1);
    }
  }

  /** Where a replay stands after n entries. */
  ghost function Replayed(v: Setting, k: KState<OState, OState>, n: nat): Machine<OState>
    requires n <= |k.m.log|
  {
    k.m.(head := n, state := Fold(Live(v), Organism.Initial(), k.m.log[..n], k.m.ticks), ticks := k.m.ticks + n)
  }

  lemma {:induction false} HearingReplays(v: Setting, k: KState<OState, OState>, moves: seq<Move>, whole: bool, n: nat)
    requires Mirrors(v, k, moves, whole) && !k.replayed && n <= |k.m.log|
    ensures var run := moves + Hearing(n);
            Legal(v, run) && Reached(v, run) == Life(Replayed(v, k, n), |k.m.log|) && (whole ==> Loses(v, run, NoDrops))
  {
    hide Reached, Legal, Loses, Live, Fold, Publications, Successor;
    if n == 0 {
      assert moves + Hearing(0) == moves && k.m.log[..0] == [];
      assert Fold(Live(v), Organism.Initial(), [], k.m.ticks) == Organism.Initial() by { FoldNothing(v, Organism.Initial(), k.m.ticks); }
    } else {
      var run := moves + Hearing(n - 1);
      HearingReplays(v, k, moves, whole, n - 1);
      Onwards(v, run, Hear);
      assert moves + Hearing(n) == run + [Hear];
      assert k.m.log[..n] == k.m.log[..n - 1] + [k.m.log[n - 1]];
      FoldSnoc(v, Organism.Initial(), k.m.log[..n - 1], k.m.log[n - 1], k.m.ticks);
    }
  }

  lemma FoldNothing(v: Setting, o: OState, tick: nat)
    ensures Fold(Live(v), o, [], tick) == o
  {
    hide Live;
  }

  /** A replay is hearing the whole log. */
  lemma ReplayIsARun(v: Setting, k: KState<OState, OState>, moves: seq<Move>, whole: bool) returns (more: seq<Move>)
    requires WellFormed(k.m) && Mirrors(v, k, moves, whole) && !k.replayed
    ensures Mirrors(v, Replay(Live(v), k), moves + more, whole)
  {
    hide Reached, Legal, Loses, Live, Fold, Publications, Successor;
    more := Hearing(|k.m.log|);
    HearingReplays(v, k, moves, whole, |k.m.log|);
    assert k.m.log[..|k.m.log|] == k.m.log == k.m.log[0..];
  }

  /** The calls a run covers: bodies are published from outside once the kernel has started, and no snapshot is taken. */
  ghost predicate Callable(k: KState<OState, OState>, op: K.Op) {
    match op
    case DoPublish(body, _) => k.started && Outside(k.m.state, body)
    case DoSnapshot => false
    case _ => true
  }

  lemma StartIsARun(v: Setting, k: KState<OState, OState>, moves: seq<Move>, whole: bool) returns (more: seq<Move>)
    requires WellFormed(k.m) && Mirrors(v, k, moves, whole)
    requires whole ==> Start(Live(v), k).lost == k.lost
    ensures Mirrors(v, Start(Live(v), k), moves + more, whole)
  {
    hide Reached, Legal, Loses, Live, Ranked, Publish, Replay, Outside, Drain, Publications, Successor;
    more := [];
    assert moves + [] == moves;
    if !k.running {
      var w := Live(v);
      var k0 := if k.replayed then k else Replay(w, k);
      if !k.replayed { more := ReplayIsARun(v, k, moves, whole); ReplayShape(w, k); }
      var k1 := k0.(stopping := false);
      var k2 := Publish(w, k1, OfKernel(Starting), None);
      PublishKeepsReplayed(w, k1, OfKernel(Starting), None);
      K.PublishLosesMore(w, k1, OfKernel(Starting), None);
      K.PublishLosesMore(w, k2.(running := true, started := true), OfKernel(Started), None);
      KernelIsOutside(k1.m.state);
      var first := PublishIsARun(v, k1, OfKernel(Starting), None, moves + more, whole);
      KernelIsOutside(k2.m.state);
      var second := PublishIsARun(v, k2.(running := true, started := true), OfKernel(Started), None, moves + more + first, whole);
      assert moves + more + first + second == moves + (more + first + second);
      more := more + first + second;
    }
  }

  lemma ReplayShape(w: Wiring<OState, OState>, k: KState<OState, OState>)
    requires WellFormed(k.m) && !k.started && !k.replayed
    ensures WellFormed(Replay(w, k).m) && Replay(w, k).replayed && Replay(w, k).lost == k.lost
  {
  }

  lemma KernelIsOutside(o: OState)
    ensures Outside(o, OfKernel(Starting)) && Outside(o, OfKernel(Started)) && Outside(o, OfKernel(Stopping)) && Outside(o, OfKernel(Stopped))
  {
  }

  lemma PublishKeepsReplayed(w: Wiring<OState, OState>, k: KState<OState, OState>, body: Payload, supplied: Option<Correlation>)
    requires WellFormed(k.m) && Ranked(w)
    ensures Publish(w, k, body, supplied).replayed == k.replayed
  {
    hide Ranked, Accept;
    EnteringGrows(w, k.m, body, supplied);
  }

  lemma StopIsARun(v: Setting, k: KState<OState, OState>, moves: seq<Move>, whole: bool) returns (more: seq<Move>)
    requires WellFormed(k.m) && Mirrors(v, k, moves, whole)
    requires whole ==> Stop(Live(v), k).lost == k.lost
    ensures Mirrors(v, Stop(Live(v), k), moves + more, whole)
  {
    hide Reached, Legal, Loses, Live, Ranked, Publish, Outside, Drain, Publications, Successor;
    more := [];
    assert moves + [] == moves;
    if k.running {
      var w := Live(v);
      var k1 := k.(stopping := true);
      var k2 := Publish(w, k1, OfKernel(Stopping), None);
      PublishKeepsReplayed(w, k1, OfKernel(Stopping), None);
      PublishKeepsReplayed(w, k2.(running := false), OfKernel(Stopped), None);
      K.PublishLosesMore(w, k1, OfKernel(Stopping), None);
      K.PublishLosesMore(w, k2.(running := false), OfKernel(Stopped), None);
      KernelIsOutside(k1.m.state);
      more := PublishIsARun(v, k1, OfKernel(Stopping), None, moves, whole);
      KernelIsOutside(k2.m.state);
      var second := PublishIsARun(v, k2.(running := false), OfKernel(Stopped), None, moves + more, whole);
      assert moves + more + second == moves + (more + second);
      more := more + second;
    }
  }

  lemma CrashIsARun(v: Setting, k: KState<OState, OState>, moves: seq<Move>, whole: bool)
    requires WellFormed(k.m) && Mirrors(v, k, moves, whole)
    ensures Mirrors(v, Boot(k.m.log, k.saved, Organism.Initial(), k.m.ticks), moves + [Reboot], whole)
  {
    hide Reached, Legal, Loses, Publications, Successor;
    Onwards(v, moves, Reboot);
  }

  lemma CallIsARun(v: Setting, k: KState<OState, OState>, op: K.Op, moves: seq<Move>, whole: bool) returns (more: seq<Move>)
    requires WellFormed(k.m) && Mirrors(v, k, moves, whole) && Callable(k, op)
    requires whole && !op.Crash? ==> K.Do(Live(v), Organism.Initial(), k, op).lost == k.lost
    ensures Mirrors(v, K.Do(Live(v), Organism.Initial(), k, op), moves + more, whole)
  {
    hide Reached, Legal, Loses, Live, Ranked, Publish, Start, Stop, Drain, Outside, Process, Publications, Successor;
    more := [];
    assert moves + [] == moves;
    match op {
      case DoPublish(body, supplied) => more := PublishIsARun(v, k, body, supplied, moves, whole);
      case DoProcess => if k.m.head < |k.m.log| { more := ProcessIsAMove(v, k, moves, whole); }
      case DoRunUntilIdle => if k.replayed { more := DrainIsARun(v, k, moves, whole); } else { NothingToDrain(Live(v), k); }
      case DoStart => more := StartIsARun(v, k, moves, whole);
      case DoStop => more := StopIsARun(v, k, moves, whole);
      case DoSnapshot =>
      case Crash => CrashIsARun(v, k, moves, whole); more := [Reboot];
    }
  }

  lemma NothingToDrain(w: Wiring<OState, OState>, k: KState<OState, OState>)
    requires WellFormed(k.m) && Ranked(w) && k.m.head == |k.m.log|
    ensures Drain(w, k) == k
  {
    hide Ranked;
  }

  ghost predicate CallableRun(v: Setting, ops: seq<K.Op>)
  {
    ops != [] ==> CallableRun(v, ops[..|ops| - 1])
                  && Callable(K.Run(Live(v), Organism.Initial(), ops[..|ops| - 1]), ops[|ops| - 1])
  }

  /** No call but a crash threw anything away. */
  ghost predicate NothingLost(v: Setting, ops: seq<K.Op>)
  {
    ops != [] ==>
      var k := K.Run(Live(v), Organism.Initial(), ops[..|ops| - 1]);
      NothingLost(v, ops[..|ops| - 1])
      && (!ops[|ops| - 1].Crash? ==> K.Do(Live(v), Organism.Initial(), k, ops[|ops| - 1]).lost == k.lost)
  }

  /**
   Whatever is called on the kernel with the organism wired to it, with stops, crashes and restarts, there is a run that
   stands where it stands, and that drops nothing if no stop did. So what is proved of runs holds of the kernel.
   */
  lemma {:induction false} CallsAreRuns(v: Setting, ops: seq<K.Op>) returns (moves: seq<Move>)
    requires CallableRun(v, ops)
    ensures Mirrors(v, K.Run(Live(v), Organism.Initial(), ops), moves, NothingLost(v, ops))
  {
    hide Callable, Live, Ranked, K.Do, Publications, Successor;
    if ops == [] {
      moves := [];
      NothingCalled(v);
    } else {
      var before, op := ops[..|ops| - 1], ops[|ops| - 1];
      var k := K.Run(Live(v), Organism.Initial(), before);
      moves := CallsAreRuns(v, before);
      assert Mirrors(v, k, moves, NothingLost(v, ops));
      var more := CallIsARun(v, k, op, moves, NothingLost(v, ops));
      moves := moves + more;
    }
  }

  lemma NothingCalled(v: Setting)
    ensures Mirrors(v, K.Run(Live(v), Organism.Initial(), []), [], true)
  {
    hide Ranked, Successor, Publications;
    BirthIs(v);
  }
}
