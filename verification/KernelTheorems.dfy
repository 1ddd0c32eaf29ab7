/** What the kernel promises: any calls, any restarts, any subscribers. */
module KernelTheorems {
  import opened Prelude
  import opened Events
  import opened KernelModel

  datatype Op = DoPublish(body: Payload, supplied: Option<Correlation>) | DoProcess | DoRunUntilIdle | DoStart | DoStop | DoSnapshot | Crash

  /** One call on the kernel; a crash leaves only the files, from which a new kernel is built. */
  ghost function Do<S(!new), N(!new)>(w: Wiring<S, N>, initial: S, k: KState<S, N>, op: Op): (r: KState<S, N>)
    requires WellFormed(k.m) && Ranked(w)
    ensures WellFormed(r.m)
  {
    match op
    case DoPublish(body, supplied) => Publish(w, k, body, supplied)
    case DoProcess => if k.m.head < |k.m.log| then ProcessShape(w, k); Process(w, k) else k
    case DoRunUntilIdle => Drain(w, k)
    case DoStart => Start(w, k)
    case DoStop => Stop(w, k)
    case DoSnapshot => CreateSnapshot(w, k)
    case Crash => Boot(k.m.log, k.saved, initial, k.m.ticks)
  }

  /** The calls of one or more processes, the first of them built from the given files. */
  ghost function RunFrom<S(!new), N(!new)>(w: Wiring<S, N>, initial: S, k: KState<S, N>, ops: seq<Op>): (r: KState<S, N>)
    requires Ranked(w) && WellFormed(k.m)
    ensures WellFormed(r.m)
  {
    if ops == [] then k
    else Do(w, initial, RunFrom(w, initial, k, ops[..|ops| - 1]), ops[|ops| - 1])
  }

  /** From empty files. */
  ghost function Run<S(!new), N(!new)>(w: Wiring<S, N>, initial: S, ops: seq<Op>): (r: KState<S, N>)
    requires Ranked(w)
    ensures WellFormed(r.m)
  {
    RunFrom(w, initial, Boot([], None, initial, 0), ops)
  }

  // ---------------------------------------------------------------- replay reproduces live state

  /** `view` is the part of the subscribers' state that deliveries determine, whatever ids and clocks they drew. */
  ghost predicate Tracks<S(!new), N(!new), V>(w: Wiring<S, N>, view: S -> V, step: (V, Event) -> V) {
    forall s, e, t :: view(w.handler(s, e, t).state) == step(view(s), e)
  }

  function FoldView<V>(step: (V, Event) -> V, v: V, events: seq<Event>): V {
    if events == [] then v else step(FoldView(step, v, events[..|events| - 1]), events[|events| - 1])
  }

  lemma FoldViewSnoc<V>(step: (V, Event) -> V, v: V, events: seq<Event>, e: Event)
    ensures FoldView(step, v, events + [e]) == step(FoldView(step, v, events), e)
  {
    assert (events + [e])[..|events + [e]| - 1] == events;
  }

  lemma {:induction false} FoldTracks<S(!new), N(!new), V>(w: Wiring<S, N>, view: S -> V, step: (V, Event) -> V,
                                                           s: S, v: V, before: seq<Event>, events: seq<Event>, tick: nat)
    requires Tracks(w, view, step) && view(s) == FoldView(step, v, before)
    ensures view(Fold(w, s, events, tick)) == FoldView(step, v, before + events)
    decreases |events|
  {
    if events == [] {
      assert before + events == before;
    } else {
      var e, s' := events[0], w.handler(s, events[0], tick).state;
      FoldViewSnoc(step, v, before, e);
      assert view(s') == step(view(s), e);
      FoldTracks(w, view, step, s', v, before + [e], events[1..], tick + 1);
      assert before + [e] + events[1..] == before + events;
    }
  }

  /** A saved snapshot is sound when restoring it gives the state its sequence number stands for. */
  ghost predicate SoundSnapshot<S, N, V>(w: Wiring<S, N>, view: S -> V, step: (V, Event) -> V, initial: S,
        k: KState<S, N>) {
    match k.saved
    case None => true
    case Some((sequence, items)) =>
      sequence <= |k.m.log| && view(w.restore(initial, items)) == FoldView(step, view(initial), k.m.log[..sequence])
  }

  /** The processed part of the log, folded, is the subscribers' state. */
  ghost predicate CaughtUp<S, V>(view: S -> V, step: (V, Event) -> V, initial: S, m: Machine<S>) {
    m.head <= |m.log| && view(m.state) == FoldView(step, view(initial), m.log[..m.head])
  }

  /** A kernel that has replayed is caught up; one that has not is untouched. */
  ghost predicate Faithful<S, N, V>(w: Wiring<S, N>, view: S -> V, step: (V, Event) -> V, initial: S, k: KState<S, N>) {
    && WellFormed(k.m)
    && (k.replayed ==> CaughtUp(view, step, initial, k.m))
    && (!k.replayed ==> k.m.state == initial && !k.started)
    && (!k.started ==> k.m.head == |k.m.log|)
    && (k.running ==> k.started)
    && SoundSnapshot(w, view, step, initial, k)
  }

  lemma ProcessFaithful<S(!new), N(!new), V>(w: Wiring<S, N>, view: S -> V, step: (V, Event) -> V, initial: S,
        k: KState<S, N>)
    requires Tracks(w, view, step)
    requires WellFormed(k.m) && k.m.head < |k.m.log| && Process(w, k).lost == k.lost && SoundSnapshot(w, view, step, initial, k)
    requires CaughtUp(view, step, initial, k.m)
    ensures CaughtUp(view, step, initial, Process(w, k).m)
    ensures SoundSnapshot(w, view, step, initial, Process(w, k))
  {
    var k', e := Process(w, k), k.m.log[k.m.head];
    ProcessShape(w, k);
    DeliverShape(w, k.m);
    assert k'.m.log[..k.m.head + 1] == k.m.log[..k.m.head] + [e];
    FoldViewSnoc(step, view(initial), k.m.log[..k.m.head], e);
    SnapshotGrows(w, view, step, initial, k, k');
  }

  lemma SnapshotGrows<S, N, V>(w: Wiring<S, N>, view: S -> V, step: (V, Event) -> V, initial: S, k: KState<S, N>,
        k': KState<S, N>)
    requires SoundSnapshot(w, view, step, initial, k) && k.m.log <= k'.m.log && k'.saved == k.saved
    ensures SoundSnapshot(w, view, step, initial, k')
  {
    if k.saved.Some? {
      assert k.m.log[..k.saved.value.0] == k'.m.log[..k.saved.value.0];
    }
  }

  lemma {:induction false} DrainFaithful<S(!new), N(!new), V>(w: Wiring<S, N>, view: S -> V, step: (V, Event) -> V,
        initial: S, k: KState<S, N>)
    requires Tracks(w, view, step) && Ranked(w)
    requires WellFormed(k.m) && Drain(w, k).lost == k.lost && SoundSnapshot(w, view, step, initial, k)
    requires CaughtUp(view, step, initial, k.m)
    ensures CaughtUp(view, step, initial, Drain(w, k).m)
    ensures SoundSnapshot(w, view, step, initial, Drain(w, k))
    decreases Top(Queue(k.m)), AtTop(Queue(k.m), Top(Queue(k.m))), FirstAtTop(Queue(k.m), Top(Queue(k.m)))
  {
    if Busy(k) {
      ProcessShape(w, k);
      ProcessLowersMeasure(w, k);
      DrainLosesMore(w, Process(w, k));
      ProcessFaithful(w, view, step, initial, k);
      DrainFaithful(w, view, step, initial, Process(w, k));
    }
  }

  lemma {:induction false} DrainLosesMore<S(!new), N(!new)>(w: Wiring<S, N>, k: KState<S, N>)
    requires WellFormed(k.m) && Ranked(w)
    ensures k.lost <= Drain(w, k).lost
    decreases Top(Queue(k.m)), AtTop(Queue(k.m), Top(Queue(k.m))), FirstAtTop(Queue(k.m), Top(Queue(k.m)))
  {
    if Busy(k) {
      ProcessShape(w, k);
      ProcessLowersMeasure(w, k);
      DrainLosesMore(w, Process(w, k));
    }
  }

  lemma PublishFaithful<S(!new), N(!new), V>(w: Wiring<S, N>, view: S -> V, step: (V, Event) -> V, initial: S,
                                             k: KState<S, N>, body: Payload, supplied: Option<Correlation>)
    requires Tracks(w, view, step) && Ranked(w)
    requires WellFormed(k.m) && Publish(w, k, body, supplied).lost == k.lost
    requires CaughtUp(view, step, initial, k.m) && SoundSnapshot(w, view, step, initial, k)
    ensures CaughtUp(view, step, initial, Publish(w, k, body, supplied).m)
    ensures SoundSnapshot(w, view, step, initial, Publish(w, k, body, supplied))
    ensures !k.started ==> Publish(w, k, body, supplied).m.head == |Publish(w, k, body, supplied).m.log|
    ensures Publish(w, k, body, supplied).replayed == k.replayed
  {
    var k' := Enter(w, k, body, supplied);
    assert k'.m.log[..k'.m.head] == k.m.log[..k.m.head];
    SnapshotGrows(w, view, step, initial, k, k');
    if !k.started || Lifecycle(body) {
      DrainFaithful(w, view, step, initial, k');
    }
  }

  lemma ReplayFaithful<S(!new), N(!new), V>(w: Wiring<S, N>, view: S -> V, step: (V, Event) -> V, initial: S,
        k: KState<S, N>)
    requires Tracks(w, view, step) && Faithful(w, view, step, initial, k) && !k.replayed
    ensures CaughtUp(view, step, initial, Replay(w, k).m)
    ensures SoundSnapshot(w, view, step, initial, Replay(w, k))
  {
    var (s, sequence) := Restored(w, k);
    var log := k.m.log;
    assert log[..|log|] == log;
    FoldTracks(w, view, step, s, view(initial), log[..sequence], log[sequence..], k.m.ticks);
    assert log[..sequence] + log[sequence..] == log;
  }

  lemma StartFaithful<S(!new), N(!new), V>(w: Wiring<S, N>, view: S -> V, step: (V, Event) -> V, initial: S,
        k: KState<S, N>)
    requires Tracks(w, view, step) && Ranked(w) && Faithful(w, view, step, initial, k)
    requires Start(w, k).lost == k.lost
    ensures Faithful(w, view, step, initial, Start(w, k))
  {
    if !k.running {
      if !k.replayed { ReplayFaithful(w, view, step, initial, k); }
      var k1 := (if k.replayed then k else Replay(w, k)).(stopping := false);
      var k2 := Publish(w, k1, OfKernel(Starting), None);
      PublishLosesMore(w, k1, OfKernel(Starting), None);
      PublishLosesMore(w, k2.(running := true, started := true), OfKernel(Started), None);
      PublishFaithful(w, view, step, initial, k1, OfKernel(Starting), None);
      PublishFaithful(w, view, step, initial, k2.(running := true, started := true), OfKernel(Started), None);
    }
  }

  lemma PublishLosesMore<S(!new), N(!new)>(w: Wiring<S, N>, k: KState<S, N>, body: Payload,
        supplied: Option<Correlation>)
    requires WellFormed(k.m) && Ranked(w)
    ensures k.lost <= Publish(w, k, body, supplied).lost
  {
    DrainLosesMore(w, Enter(w, k, body, supplied));
  }

  lemma StopFaithful<S(!new), N(!new), V>(w: Wiring<S, N>, view: S -> V, step: (V, Event) -> V, initial: S,
        k: KState<S, N>)
    requires Tracks(w, view, step) && Ranked(w) && Faithful(w, view, step, initial, k)
    requires Stop(w, k).lost == k.lost
    ensures Faithful(w, view, step, initial, Stop(w, k))
  {
    if k.running {
      var k0 := k.(stopping := true);
      var k1 := Publish(w, k0, OfKernel(Stopping), None);
      PublishLosesMore(w, k0, OfKernel(Stopping), None);
      PublishLosesMore(w, k1.(running := false), OfKernel(Stopped), None);
      PublishFaithful(w, view, step, initial, k0, OfKernel(Stopping), None);
      PublishFaithful(w, view, step, initial, k1.(running := false), OfKernel(Stopped), None);
    }
  }

  /**
   Calls the fidelity theorem covers: nothing is published before the kernel has started, shutdown
   throws nothing away, and snapshots are taken with an empty queue of a state that restores to itself.
   */
  ghost predicate Legal<S(!new), N(!new), V>(w: Wiring<S, N>, view: S -> V, initial: S, k: KState<S, N>, op: Op)
    requires WellFormed(k.m) && Ranked(w)
  {
    && (op.DoPublish? ==> k.started)
    && (op.DoSnapshot? ==> k.started && Queue(k.m) == [] && view(w.restore(initial, w.capture(k.m.state))) == view(k.m.state))
    && (!op.Crash? ==> Do(w, initial, k, op).lost == k.lost)
  }

  ghost predicate LegalRun<S(!new), N(!new), V>(w: Wiring<S, N>, view: S -> V, initial: S, ops: seq<Op>)
    requires Ranked(w)
  {
    ops != [] ==> LegalRun(w, view, initial, ops[..|ops| - 1])
                  && Legal(w, view, initial, Run(w, initial, ops[..|ops| - 1]), ops[|ops| - 1])
  }

  lemma DoFaithful<S(!new), N(!new), V>(w: Wiring<S, N>, view: S -> V, step: (V, Event) -> V, initial: S, k: KState<S,
        N>, op: Op)
    requires Tracks(w, view, step) && Ranked(w) && Faithful(w, view, step, initial, k) && Legal(w, view, initial, k, op)
    ensures Faithful(w, view, step, initial, Do(w, initial, k, op))
  {
    match op
    case DoPublish(body, supplied) => PublishFaithful(w, view, step, initial, k, body, supplied);
    case DoProcess => if k.m.head < |k.m.log| { ProcessShape(w, k); ProcessFaithful(w, view, step, initial, k); }
    case DoRunUntilIdle => if k.replayed { DrainFaithful(w, view, step, initial, k); }
    case DoStart => StartFaithful(w, view, step, initial, k);
    case DoStop => StopFaithful(w, view, step, initial, k);
    case DoSnapshot => assert k.m.log[..k.m.head] == k.m.log;
    case Crash =>
  }

  lemma {:induction false} RunsAreFaithful<S(!new), N(!new), V>(w: Wiring<S, N>, view: S -> V, step: (V, Event) -> V,
        initial: S, ops: seq<Op>)
    requires Tracks(w, view, step) && Ranked(w) && LegalRun(w, view, initial, ops)
    ensures Faithful(w, view, step, initial, Run(w, initial, ops))
  {
    if ops != [] {
      RunsAreFaithful(w, view, step, initial, ops[..|ops| - 1]);
      DoFaithful(w, view, step, initial, Run(w, initial, ops[..|ops| - 1]), ops[|ops| - 1]);
    }
  }

  /**
   Replay fidelity, with or without a snapshot. Whatever was called, and however often the process
   died and restarted, a drained kernel, a full replay of its log by a new one, and a replay of only
   the tail after its snapshot all leave the subscribers in the same state; replay leaves the log alone.
   */
  lemma ReplayReproducesLiveState<S(!new), N(!new), V>(w: Wiring<S, N>, view: S -> V, step: (V, Event) -> V,
        initial: S, ops: seq<Op>)
    requires Tracks(w, view, step) && Ranked(w) && LegalRun(w, view, initial, ops)
    requires Run(w, initial, ops).replayed && Queue(Run(w, initial, ops).m) == []
    ensures var k := Run(w, initial, ops);
            var full, tail := Replay(w, Boot(k.m.log, None, initial, k.m.ticks)), Replay(w, Boot(k.m.log, k.saved, initial, k.m.ticks));
            && view(full.m.state) == view(k.m.state) && full.m.log == k.m.log && Queue(full.m) == []
            && view(tail.m.state) == view(k.m.state) && tail.m.log == k.m.log && Queue(tail.m) == []
  {
    RunsAreFaithful(w, view, step, initial, ops);
    var k := Run(w, initial, ops);
    assert k.m.log[..k.m.head] == k.m.log;
    ReplayFaithful(w, view, step, initial, Boot(k.m.log, None, initial, k.m.ticks));
    ReplayFaithful(w, view, step, initial, Boot(k.m.log, k.saved, initial, k.m.ticks));
  }

  // ---------------------------------------------------------------- what every process keeps

  /** Each delivery of an admissible event keeps the invariant and publishes only admissible events. */
  ghost predicate Keeps<S(!new), N(!new)>(w: Wiring<S, N>, admits: Payload -> bool, inv: S -> bool) {
    forall s, e: Event, t: nat :: inv(s) && admits(e.body) ==>
      inv(w.handler(s, e, t).state) && forall p <- w.handler(s, e, t).published :: admits(p)
  }

  /** So does restoring what was captured of a state that has it. */
  ghost predicate Survives<S(!new), N>(w: Wiring<S, N>, inv: S -> bool) {
    forall s, blank :: inv(s) && inv(blank) ==> inv(w.restore(blank, w.capture(s)))
  }

  ghost predicate Kept<S(!new), N>(w: Wiring<S, N>, admits: Payload -> bool, inv: S -> bool, k: KState<S, N>) {
    && WellFormed(k.m) && inv(k.m.state)
    && (forall e <- k.m.log :: admits(e.body))
    && (k.saved.Some? ==> forall blank :: inv(blank) ==> inv(w.restore(blank, k.saved.value.1)))
  }

  lemma ProcessKeeps<S(!new), N(!new)>(w: Wiring<S, N>, admits: Payload -> bool, inv: S -> bool, k: KState<S, N>)
    requires Keeps(w, admits, inv) && Kept(w, admits, inv, k) && k.m.head < |k.m.log|
    ensures Kept(w, admits, inv, Process(w, k))
  {
    hide Keeps;
    var e, k' := k.m.log[k.m.head], Process(w, k);
    ProcessShape(w, k);
    ProcessReacts(w, k);
    assert e in k.m.log;
    ReactionKeeps(w, admits, inv, k.m.state, e, k.m.ticks);
    forall x | x in k'.m.log ensures admits(x.body) {
      if x !in k.m.log {
        var i :| 0 <= i < |Added(w, k)| && Added(w, k)[i] == x;
        assert x.body in w.handler(k.m.state, e, k.m.ticks).published;
      }
    }
  }

  lemma ReactionKeeps<S(!new), N(!new)>(w: Wiring<S, N>, admits: Payload -> bool, inv: S -> bool, s: S, e: Event, t: nat)
    requires Keeps(w, admits, inv) && inv(s) && admits(e.body)
    ensures inv(w.handler(s, e, t).state) && forall p <- w.handler(s, e, t).published :: admits(p)
  {
  }

  /** Processing either drops the head, or leaves what the handler made of it and logs what it published. */
  lemma ProcessReacts<S, N>(w: Wiring<S, N>, k: KState<S, N>)
    requires WellFormed(k.m) && k.m.head < |k.m.log|
    ensures var e := k.m.log[k.m.head];
            var r := w.handler(k.m.state, e, k.m.ticks);
            && (Process(w, k).m.state == k.m.state || Process(w, k).m.state == r.state)
            && (Added(w, k) == [] || (|Added(w, k)| == |r.published|
                                      && forall i :: 0 <= i < |r.published| ==> Added(w, k)[i].body == r.published[i]))
  {
    if !(k.stopping && !Lifecycle(k.m.log[k.m.head].body)) {
      DeliverShape(w, k.m);
      ReactionBodies(w, k.m);
    }
  }

  lemma {:induction false} DrainKeeps<S(!new), N(!new)>(w: Wiring<S, N>, admits: Payload -> bool, inv: S -> bool, k: KState<S, N>)
    requires Keeps(w, admits, inv) && Ranked(w) && Kept(w, admits, inv, k)
    ensures Kept(w, admits, inv, Drain(w, k))
    decreases Top(Queue(k.m)), AtTop(Queue(k.m), Top(Queue(k.m))), FirstAtTop(Queue(k.m), Top(Queue(k.m)))
  {
    hide Keeps, Kept, Ranked;
    KeptIsWellFormed(w, admits, inv, k);
    if Busy(k) {
      ProcessShape(w, k);
      ProcessLowersMeasure(w, k);
      ProcessKeeps(w, admits, inv, k);
      DrainKeeps(w, admits, inv, Process(w, k));
    }
  }

  lemma KeptIsWellFormed<S(!new), N>(w: Wiring<S, N>, admits: Payload -> bool, inv: S -> bool, k: KState<S, N>)
    requires Kept(w, admits, inv, k)
    ensures WellFormed(k.m)
  {
  }

  lemma PublishKeeps<S(!new), N(!new)>(w: Wiring<S, N>, admits: Payload -> bool, inv: S -> bool, k: KState<S, N>,
                                       body: Payload, supplied: Option<Correlation>)
    requires Keeps(w, admits, inv) && Ranked(w) && Kept(w, admits, inv, k) && admits(body)
    ensures Kept(w, admits, inv, Publish(w, k, body, supplied))
  {
    hide Keeps, Ranked, Drain;
    DrainKeeps(w, admits, inv, Enter(w, k, body, supplied));
  }

  lemma {:induction false} FoldKeeps<S(!new), N(!new)>(w: Wiring<S, N>, admits: Payload -> bool, inv: S -> bool, s: S,
        events: seq<Event>, tick: nat)
    requires Keeps(w, admits, inv) && inv(s) && forall e <- events :: admits(e.body)
    ensures inv(Fold(w, s, events, tick))
    decreases |events|
  {
    if events != [] { FoldKeeps(w, admits, inv, w.handler(s, events[0], tick).state, events[1..], tick + 1); }
  }

  lemma ReplayKeeps<S(!new), N(!new)>(w: Wiring<S, N>, admits: Payload -> bool, inv: S -> bool, k: KState<S, N>)
    requires Keeps(w, admits, inv) && Kept(w, admits, inv, k)
    ensures Kept(w, admits, inv, Replay(w, k))
  {
    hide Keeps;
    var (s, sequence) := Restored(w, k);
    FoldKeeps(w, admits, inv, s, if sequence <= |k.m.log| then k.m.log[sequence..] else [], k.m.ticks);
  }

  ghost predicate AdmitsKernel(admits: Payload -> bool) {
    forall own: KernelEvent :: admits(OfKernel(own))
  }

  lemma DoKeeps<S(!new), N(!new)>(w: Wiring<S, N>, admits: Payload -> bool, inv: S -> bool, initial: S, k: KState<S, N>, op: Op)
    requires Keeps(w, admits, inv) && Survives(w, inv) && AdmitsKernel(admits) && Ranked(w) && inv(initial)
    requires Kept(w, admits, inv, k) && (op.DoPublish? ==> admits(op.body))
    ensures Kept(w, admits, inv, Do(w, initial, k, op))
  {
    hide Keeps, Ranked, Publish, Drain, Replay;
    match op
    case DoPublish(body, supplied) => PublishKeeps(w, admits, inv, k, body, supplied);
    case DoProcess => if k.m.head < |k.m.log| { ProcessKeeps(w, admits, inv, k); }
    case DoRunUntilIdle => DrainKeeps(w, admits, inv, k);
    case DoStart =>
      if !k.running {
        ReplayKeeps(w, admits, inv, k);
        var k1 := (if k.replayed then k else Replay(w, k)).(stopping := false);
        PublishKeeps(w, admits, inv, k1, OfKernel(Starting), None);
        var k2 := Publish(w, k1, OfKernel(Starting), None);
        PublishKeeps(w, admits, inv, k2.(running := true, started := true), OfKernel(Started), None);
      }
    case DoStop =>
      if k.running {
        PublishKeeps(w, admits, inv, k.(stopping := true), OfKernel(Stopping), None);
        var k1 := Publish(w, k.(stopping := true), OfKernel(Stopping), None);
        PublishKeeps(w, admits, inv, k1.(running := false), OfKernel(Stopped), None);
      }
    case DoSnapshot =>
    case Crash =>
  }

  /** Whatever is called, lost, captured and restored, the subscribers keep what each delivery and each restore keeps. */
  lemma {:induction false} RunsKeep<S(!new), N(!new)>(w: Wiring<S, N>, admits: Payload -> bool, inv: S -> bool, initial: S, ops: seq<Op>)
    requires Keeps(w, admits, inv) && Survives(w, inv) && AdmitsKernel(admits) && Ranked(w) && inv(initial)
    requires forall op <- ops :: op.DoPublish? ==> admits(op.body)
    ensures Kept(w, admits, inv, Run(w, initial, ops))
  {
    hide Keeps, Survives, Ranked, Do;
    if ops != [] {
      var before, op := ops[..|ops| - 1], ops[|ops| - 1];
      assert op in ops && forall o <- before :: o in ops;
      RunsKeep(w, admits, inv, initial, before);
      DoKeeps(w, admits, inv, initial, Run(w, initial, before), op);
    }
  }

  // ---------------------------------------------------------------- what every log keeps

  /** What handlers publish in reaction to an event of the log, and what is published from outside, keeps the log good. */
  ghost predicate Extends<S(!new), N(!new)>(w: Wiring<S, N>, admits: Payload -> bool, good: seq<Payload> -> bool) {
    && (forall log, s, e: Event, t: nat :: good(log) && e.body in log ==> good(log + w.handler(s, e, t).published))
    && (forall log, body :: good(log) && admits(body) ==> good(log + [body]))
  }

  lemma ReactionExtends<S(!new), N(!new)>(w: Wiring<S, N>, admits: Payload -> bool, good: seq<Payload> -> bool, log: seq<Payload>,
                                          s: S, e: Event, t: nat)
    requires Extends(w, admits, good) && good(log) && e.body in log
    ensures good(log + w.handler(s, e, t).published)
  {
  }

  lemma SameBodies(events: seq<Event>, bodies: seq<Payload>)
    requires |events| == |bodies| && forall i :: 0 <= i < |bodies| ==> events[i].body == bodies[i]
    ensures Bodies(events) == bodies
  {
  }

  lemma ProcessExtends<S(!new), N(!new)>(w: Wiring<S, N>, admits: Payload -> bool, good: seq<Payload> -> bool, k: KState<S, N>)
    requires Extends(w, admits, good) && good(Bodies(k.m.log)) && WellFormed(k.m) && k.m.head < |k.m.log|
    ensures good(Bodies(Process(w, k).m.log))
  {
    hide Extends;
    var log, e := Bodies(k.m.log), k.m.log[k.m.head];
    var published := w.handler(k.m.state, e, k.m.ticks).published;
    ProcessShape(w, k);
    ProcessReacts(w, k);
    BodiesJoin(k.m.log, Added(w, k));
    assert log[k.m.head] == e.body;
    if Added(w, k) == [] {
      assert log + [] == log;
    } else {
      SameBodies(Added(w, k), published);
      ReactionExtends(w, admits, good, log, k.m.state, e, k.m.ticks);
    }
  }

  lemma {:induction false} DrainExtends<S(!new), N(!new)>(w: Wiring<S, N>, admits: Payload -> bool, good: seq<Payload> -> bool, k: KState<S, N>)
    requires Extends(w, admits, good) && Ranked(w) && good(Bodies(k.m.log)) && WellFormed(k.m)
    ensures good(Bodies(Drain(w, k).m.log))
    decreases Top(Queue(k.m)), AtTop(Queue(k.m), Top(Queue(k.m))), FirstAtTop(Queue(k.m), Top(Queue(k.m)))
  {
    hide Extends, Ranked;
    if Busy(k) {
      ProcessShape(w, k);
      ProcessLowersMeasure(w, k);
      ProcessExtends(w, admits, good, k);
      DrainExtends(w, admits, good, Process(w, k));
    }
  }

  lemma PublishExtends<S(!new), N(!new)>(w: Wiring<S, N>, admits: Payload -> bool, good: seq<Payload> -> bool, k: KState<S, N>,
                                         body: Payload, supplied: Option<Correlation>)
    requires Extends(w, admits, good) && Ranked(w) && good(Bodies(k.m.log)) && WellFormed(k.m) && admits(body)
    ensures good(Bodies(Publish(w, k, body, supplied).m.log))
  {
    hide Ranked, Drain;
    var k' := Enter(w, k, body, supplied);
    assert Bodies(k'.m.log) == Bodies(k.m.log) + [body];
    DrainExtends(w, admits, good, k');
  }

  lemma DoExtends<S(!new), N(!new)>(w: Wiring<S, N>, admits: Payload -> bool, good: seq<Payload> -> bool, initial: S, k: KState<S, N>, op: Op)
    requires Extends(w, admits, good) && AdmitsKernel(admits) && Ranked(w)
    requires WellFormed(k.m) && good(Bodies(k.m.log)) && (op.DoPublish? ==> admits(op.body))
    ensures good(Bodies(Do(w, initial, k, op).m.log))
  {
    hide Extends, Ranked, Publish, Drain, Fold;
    match op
    case DoPublish(body, supplied) => PublishExtends(w, admits, good, k, body, supplied);
    case DoProcess => if k.m.head < |k.m.log| { ProcessExtends(w, admits, good, k); }
    case DoRunUntilIdle => DrainExtends(w, admits, good, k);
    case DoStart =>
      if !k.running {
        var k1 := (if k.replayed then k else Replay(w, k)).(stopping := false);
        PublishExtends(w, admits, good, k1, OfKernel(Starting), None);
        var k2 := Publish(w, k1, OfKernel(Starting), None);
        PublishExtends(w, admits, good, k2.(running := true, started := true), OfKernel(Started), None);
      }
    case DoStop =>
      if k.running {
        PublishExtends(w, admits, good, k.(stopping := true), OfKernel(Stopping), None);
        var k1 := Publish(w, k.(stopping := true), OfKernel(Stopping), None);
        PublishExtends(w, admits, good, k1.(running := false), OfKernel(Stopped), None);
      }
    case DoSnapshot =>
    case Crash =>
  }

  /** Whatever is called, lost, captured and restored, the log keeps what every reaction and every admitted event keeps. */
  lemma {:induction false} LogsKeep<S(!new), N(!new)>(w: Wiring<S, N>, admits: Payload -> bool, good: seq<Payload> -> bool, initial: S, ops: seq<Op>)
    requires Extends(w, admits, good) && AdmitsKernel(admits) && Ranked(w) && good([])
    requires forall op <- ops :: op.DoPublish? ==> admits(op.body)
    ensures good(Bodies(Run(w, initial, ops).m.log))
  {
    hide Extends, Ranked, Do;
    if ops == [] {
      assert Bodies([]) == [];
    } else {
      var before, op := ops[..|ops| - 1], ops[|ops| - 1];
      assert op in ops && forall o <- before :: o in ops;
      LogsKeep(w, admits, good, initial, before);
      DoExtends(w, admits, good, initial, Run(w, initial, before), op);
    }
  }

  // ---------------------------------------------------------------- what shutdown loses

  /** Nothing ranks below the kernel's shutdown announcements, so nothing is published in reaction to them. */
  lemma ShutdownIsQuiet<S(!new), N(!new)>(w: Wiring<S, N>, s: S, e: Event, t: nat)
    requires Ranked(w) && Announcement(e)
    ensures w.handler(s, e, t).published == []
  {
    var ps := w.handler(s, e, t).published;
    if ps != [] { assert Rank(ps[0]) < Rank(e.body) by { assert ps[0] in ps; } }
  }

  ghost predicate NoLifecycle(q: seq<Event>) {
    forall e <- q :: !Lifecycle(e.body)
  }

  ghost predicate Announcement(e: Event) {
    e.body == OfKernel(Stopping) || e.body == OfKernel(Stopped)
  }

  /** During shutdown a queued event that is not the kernel's own is written off. */
  lemma ProcessWritesOff<S, N>(w: Wiring<S, N>, k: KState<S, N>, e: Event, rest: seq<Event>)
    requires WellFormed(k.m) && k.stopping && Queue(k.m) == [e] + rest && !Lifecycle(e.body)
    ensures var r := Process(w, k);
            && WellFormed(r.m) && Queue(r.m) == rest && r.m.log == k.m.log && r.terminals == k.terminals
            && r.lost == k.lost + [e] && r.delivered == k.delivered
            && r.running == k.running && r.started == k.started && r.stopping
  {
    assert k.m.log[k.m.head] == e by { assert Queue(k.m)[0] == e; }
    ProcessCases(w, k);
    ProcessShape(w, k);
    assert Queue(k.m)[1..] + [] == rest;
  }

  lemma ProcessAnnounces<S(!new), N(!new)>(w: Wiring<S, N>, k: KState<S, N>, last: Event)
    requires WellFormed(k.m) && Ranked(w) && k.stopping && Queue(k.m) == [last] && Announcement(last)
    ensures var r := Process(w, k);
            && WellFormed(r.m) && Queue(r.m) == [] && r.m.log == k.m.log
            && r.terminals == k.terminals - TerminalCount([last.body])
            && r.lost == k.lost && r.delivered == k.delivered + [last]
  {
    assert k.m.log[k.m.head] == last by { assert Queue(k.m)[0] == last; }
    ProcessCases(w, k);
    OneTerminal(last.body);
    ShutdownIsQuiet(w, k.m.state, last, k.m.ticks);
    assert Queue(k.m) == k.m.log[k.m.head..];
  }

  lemma {:induction false} StoppingDrain<S(!new), N(!new)>(w: Wiring<S, N>, k: KState<S, N>, waiting: seq<Event>,
        last: Event)
    requires WellFormed(k.m) && Ranked(w) && k.stopping && k.started
    requires k.running || k.terminals > 0
    requires Queue(k.m) == waiting + [last] && NoLifecycle(waiting) && Announcement(last)
    ensures var r := Drain(w, k);
            && Queue(r.m) == [] && r.lost == k.lost + waiting && r.delivered == k.delivered + [last]
            && r.m.log == k.m.log && r.terminals == k.terminals - TerminalCount([last.body])
    decreases |waiting|
  {
    hide Process;
    var k' := Process(w, k);
    if waiting == [] {
      ProcessAnnounces(w, k, last);
      assert Drain(w, k) == Drain(w, k') == k';
    } else {
      assert Queue(k.m) == [waiting[0]] + (waiting[1..] + [last]);
      ProcessWritesOff(w, k, waiting[0], waiting[1..] + [last]);
      StoppingDrain(w, k', waiting[1..], last);
      Associates(k.lost, [waiting[0]], waiting[1..]);
    }
  }

  /** Announcing the shutdown writes off everything queued and delivers the announcement alone. */
  lemma AnnouncingEmptiesTheQueue<S(!new), N(!new)>(w: Wiring<S, N>, k: KState<S, N>, body: Payload)
    requires WellFormed(k.m) && Ranked(w) && k.stopping && k.started
    requires k.running || (body == OfKernel(Stopped) && k.terminals == 0)
    requires NoLifecycle(Queue(k.m)) && (body == OfKernel(Stopping) || body == OfKernel(Stopped))
    ensures var r := Publish(w, k, body, None);
            && WellFormed(r.m) && Queue(r.m) == [] && r.lost == k.lost + Queue(k.m) && r.terminals == k.terminals
            && |r.m.log| == |k.m.log| + 1 && k.m.log <= r.m.log && r.delivered == k.delivered + [r.m.log[|k.m.log|]]
            && r.running == k.running && r.started == k.started && r.stopping == k.stopping
  {
    hide Drain;
    var k' := Enter(w, k, body, None);
    var e := k'.m.log[|k.m.log|];
    assert Queue(k'.m) == Queue(k.m) + [e];
    OneTerminal(body);
    StoppingDrain(w, k', Queue(k.m), e);
  }

  /**
   `stop()` hands subscribers nothing but its own two announcements: every event still queued is
   written off, though it stays in the log. So it loses nothing exactly when the queue was empty.
   */
  lemma StopLosesTheQueue<S(!new), N(!new)>(w: Wiring<S, N>, k: KState<S, N>)
    requires WellFormed(k.m) && Ranked(w)
    requires k.running && k.started && k.terminals == 0 && NoLifecycle(Queue(k.m))
    ensures var r := Stop(w, k);
            && r.lost == k.lost + Queue(k.m) && Queue(r.m) == [] && !r.running
            && k.m.log <= r.m.log && r.delivered == k.delivered + r.m.log[|k.m.log|..]
            && |r.m.log| == |k.m.log| + 2
            && (r.lost == k.lost <==> Queue(k.m) == [])
  {
    hide Publish, Ranked;
    var k0 := k.(stopping := true);
    AnnouncingEmptiesTheQueue(w, k0, OfKernel(Stopping));
    var k1 := Publish(w, k0, OfKernel(Stopping), None).(running := false);
    AnnouncingEmptiesTheQueue(w, k1, OfKernel(Stopped));
    var r := Publish(w, k1, OfKernel(Stopped), None);
    var n := |k.m.log|;
    assert r.m.log[n..] == [r.m.log[n], r.m.log[n + 1]];
    assert r.delivered == k.delivered + [r.m.log[n]] + [r.m.log[n + 1]] == k.delivered + r.m.log[n..];
  }

  /**
   So a process that stops with work queued, and its successor, which replays the whole log, are handed the
   same events exactly when nothing was queued.
   */
  lemma ReplayAgreesAfterStopIffNothingWasQueued<S(!new), N(!new)>(w: Wiring<S, N>, initial: S, k: KState<S, N>)
    requires WellFormed(k.m) && Ranked(w) && k.delivered == k.m.log[..k.m.head]
    requires k.running && k.started && k.terminals == 0 && NoLifecycle(Queue(k.m))
    ensures var stopped := Stop(w, k);
            Replay(w, Boot(stopped.m.log, None, initial, stopped.m.ticks)).delivered == stopped.delivered <==> Queue(k.m) == []
  {
    hide Stop, Ranked;
    StopLosesTheQueue(w, k);
    var log, n := Stop(w, k).m.log, |k.m.log|;
    assert log[0..] == log == log[..n] + log[n..] && log[..n] == k.m.log;
    assert k.m.log == k.m.log[..k.m.head] + Queue(k.m);
  }

  /** A started process with one event queued loses it to `stop()`. */
  lemma StoppingLosesWhatWasJustPublished<S(!new), N(!new)>(w: Wiring<S, N>, initial: S, body: Payload, supplied: Option<Correlation>)
    requires Ranked(w) && !Lifecycle(body)
    ensures var before, k := Run(w, initial, [DoStart, DoPublish(body, supplied)]), Run(w, initial, [DoStart, DoPublish(body, supplied), DoStop]);
            && |k.lost| == 1 && k.lost[0].body == body && k.lost == Queue(before.m) && k.lost[0] in k.m.log
            && before.m.log <= k.m.log && k.delivered == before.delivered + k.m.log[|before.m.log|..]
            && forall e <- k.m.log[|before.m.log|..] :: Lifecycle(e.body)
  {
    hide Start, Stop, Drain;
    var ops := [DoStart, DoPublish(body, supplied), DoStop];
    assert ops[..2] == [DoStart, DoPublish(body, supplied)];
    assert ops[..2][..1] == [DoStart];
    assert [DoStart][..0] == [];
    var k1 := Run(w, initial, [DoStart]);
    FirstRun(w, initial, DoStart);
    assert k1 == Start(w, Boot([], None, initial, 0));
    StartIsIdle(w, initial);
    RunsAreCorrelated(w, initial, [DoStart]);
    var k2 := Run(w, initial, ops[..2]);
    assert k2 == Publish(w, k1, body, supplied) == Enter(w, k1, body, supplied);
    var e := k2.m.log[|k1.m.log|];
    assert Queue(k2.m) == [e] && e.body == body;
    OneTerminal(body);
    StopLosesTheQueue(w, k2);
    var k3 := Stop(w, k2);
    assert Run(w, initial, ops) == k3;
    AnnouncedTwice(w, k2);
    assert k3.m.log[|k2.m.log| - 1] == e;
  }

  lemma FirstRun<S(!new), N(!new)>(w: Wiring<S, N>, initial: S, op: Op)
    requires Ranked(w)
    ensures Run(w, initial, [op]) == Do(w, initial, Boot([], None, initial, 0), op)
  {
    hide Do;
    var k := Boot([], None, initial, 0);
    assert [op][..|[op]| - 1] == [] && [op][|[op]| - 1] == op;
    assert RunFrom(w, initial, k, []) == k;
    assert RunFrom(w, initial, k, [op]) == Do(w, initial, RunFrom(w, initial, k, []), op);
  }

  /** What `stop()` hands over is its own announcements. */
  lemma AnnouncedTwice<S(!new), N(!new)>(w: Wiring<S, N>, k: KState<S, N>)
    requires WellFormed(k.m) && Ranked(w) && k.running && k.started && k.terminals == 0 && NoLifecycle(Queue(k.m))
    ensures |Stop(w, k).m.log| == |k.m.log| + 2 && forall e <- Stop(w, k).m.log[|k.m.log|..] :: Lifecycle(e.body)
  {
    hide Drain, Publish;
    var k0 := k.(stopping := true);
    AnnouncingEmptiesTheQueue(w, k0, OfKernel(Stopping));
    var k1 := Publish(w, k0, OfKernel(Stopping), None).(running := false);
    AnnouncingEmptiesTheQueue(w, k1, OfKernel(Stopped));
    PublishLogs(w, k0, OfKernel(Stopping));
    PublishLogs(w, k1, OfKernel(Stopped));
    var log := Stop(w, k).m.log;
    assert log[|k.m.log|..] == [log[|k.m.log|], log[|k.m.log| + 1]];
  }

  lemma PublishLogs<S(!new), N(!new)>(w: Wiring<S, N>, k: KState<S, N>, body: Payload)
    requires WellFormed(k.m) && Ranked(w)
    ensures var r := Publish(w, k, body, None); |r.m.log| > |k.m.log| && r.m.log[|k.m.log|].body == body
  {
    DrainGrowsLog(w, Enter(w, k, body, None));
  }

  lemma {:induction false} DrainGrowsLog<S(!new), N(!new)>(w: Wiring<S, N>, k: KState<S, N>)
    requires WellFormed(k.m) && Ranked(w)
    ensures k.m.log <= Drain(w, k).m.log
    decreases Top(Queue(k.m)), AtTop(Queue(k.m), Top(Queue(k.m))), FirstAtTop(Queue(k.m), Top(Queue(k.m)))
  {
    if Busy(k) {
      ProcessShape(w, k);
      ProcessLowersMeasure(w, k);
      DrainGrowsLog(w, Process(w, k));
    }
  }

  /** A first start leaves a running kernel with nothing queued. */
  lemma StartIsIdle<S(!new), N(!new)>(w: Wiring<S, N>, initial: S)
    requires Ranked(w)
    ensures var k := Start(w, Boot([], None, initial, 0));
            k.running && k.started && !k.stopping && Queue(k.m) == [] && k.lost == []
  {
    var k0 := Replay(w, Boot([], None, initial, 0)).(stopping := false);
    var k1 := Publish(w, k0, OfKernel(Starting), None);
    DrainEmpties(w, Enter(w, k0, OfKernel(Starting), None));
    DrainLosesNothing(w, Enter(w, k0, OfKernel(Starting), None));
    var k2 := Enter(w, k1.(running := true, started := true), OfKernel(Started), None);
    DrainEmpties(w, k2);
    DrainLosesNothing(w, k2);
  }

  /** Only shutdown loses anything. */
  lemma {:induction false} DrainLosesNothing<S(!new), N(!new)>(w: Wiring<S, N>, k: KState<S, N>)
    requires WellFormed(k.m) && Ranked(w) && !k.stopping
    ensures var r := Drain(w, k);
            r.lost == k.lost && r.stopping == k.stopping && r.running == k.running && r.started == k.started && r.saved == k.saved
            && r.replayed == k.replayed
    decreases Top(Queue(k.m)), AtTop(Queue(k.m), Top(Queue(k.m))), FirstAtTop(Queue(k.m), Top(Queue(k.m)))
  {
    if Busy(k) {
      ProcessShape(w, k);
      ProcessLowersMeasure(w, k);
      DrainLosesNothing(w, Process(w, k));
    }
  }

  // ---------------------------------------------------------------- snapshots taken too early, starts made too late

  /**
   What the components were handed before a snapshot, and what a process restored from it is handed, make
   up the whole log exactly when nothing was queued: the events queued then are handed to neither.
   */
  lemma SnapshotSkipsTheQueue<S, N>(w: Wiring<S, N>, initial: S, k: KState<S, N>, later: seq<Event>)
    requires WellFormed(k.m)
    ensures var saved := CreateSnapshot(w, k).saved;
            var heard := Replay(w, Boot(k.m.log + later, saved, initial, k.m.ticks)).delivered;
            && saved == Some((|k.m.log|, w.capture(k.m.state))) && heard == later
            && (saved.value.0 == k.m.head <==> Queue(k.m) == [])
            && (k.m.log[..k.m.head] + heard == k.m.log + later <==> Queue(k.m) == [])
  {
    assert (k.m.log + later)[|k.m.log|..] == later;
    if Queue(k.m) == [] {
      assert k.m.log[..k.m.head] == k.m.log;
    } else {
      assert |k.m.log[..k.m.head] + later| < |k.m.log + later|;
    }
  }

  /** A snapshot taken once the queue is empty is sound, for every view it restores faithfully. */
  lemma DrainedSnapshotIsSound<S(!new), N(!new), V>(w: Wiring<S, N>, view: S -> V, step: (V, Event) -> V, initial: S, k: KState<S, N>)
    requires CaughtUp(view, step, initial, k.m) && WellFormed(k.m) && Queue(k.m) == []
    ensures SoundSnapshot(w, view, step, initial, CreateSnapshot(w, k))
            <==> view(w.restore(initial, w.capture(k.m.state))) == view(k.m.state)
  {
    assert k.m.log[..k.m.head] == k.m.log;
  }

  ghost predicate OnlyPublishes(ops: seq<Op>) {
    forall op <- ops :: op.DoPublish?
  }

  /** Before its first start a kernel hands over at once whatever is published. */
  lemma {:induction false} EarlyEventsAreDelivered<S(!new), N(!new)>(w: Wiring<S, N>, initial: S, log: seq<Event>,
        saved: Option<(nat, N)>, ticks: nat, ops: seq<Op>)
    requires Ranked(w) && OnlyPublishes(ops)
    ensures var k := RunFrom(w, initial, Boot(log, saved, initial, ticks), ops);
            && log <= k.m.log && k.m.head == |k.m.log| && k.delivered == k.m.log[|log|..]
            && !k.started && !k.replayed && !k.stopping && k.saved == saved && |k.m.log| >= |log| + |ops|
  {
    hide Drain, Interleaves;
    if ops != [] {
      var before, op := ops[..|ops| - 1], ops[|ops| - 1];
      assert op in ops && forall o <- before :: o in ops;
      EarlyEventsAreDelivered(w, initial, log, saved, ticks, before);
      var k := RunFrom(w, initial, Boot(log, saved, initial, ticks), before);
      var k' := Enter(w, k, op.body, op.supplied);
      DrainLosesNothing(w, k');
      DrainEmpties(w, k');
      DrainGrowsLog(w, k');
      AllDelivered(w, k', |log|);
    }
  }

  /** Not stopping, a drain delivers the queue and all it gives rise to. */
  lemma {:induction false} AllDelivered<S(!new), N(!new)>(w: Wiring<S, N>, k: KState<S, N>, base: nat)
    requires WellFormed(k.m) && Ranked(w) && !k.stopping && base <= k.m.head && k.delivered == k.m.log[base..k.m.head]
    ensures var r := Drain(w, k); base <= r.m.head <= |r.m.log| && r.delivered == r.m.log[base..r.m.head]
    decreases Top(Queue(k.m)), AtTop(Queue(k.m), Top(Queue(k.m))), FirstAtTop(Queue(k.m), Top(Queue(k.m)))
  {
    if Busy(k) {
      ProcessShape(w, k);
      ProcessLowersMeasure(w, k);
      var k' := Process(w, k);
      assert k'.m.log[base..k'.m.head] == k.m.log[base..k.m.head] + [k.m.log[k.m.head]];
      AllDelivered(w, k', base);
    }
  }

  /**
   What is published before `start()` is delivered then, and once more by the replay that `start()` makes;
   so the first start hands over its own log's tail, and nothing else, exactly when nothing was published early.
   */
  lemma EarlyEventsAreDeliveredTwice<S(!new), N(!new)>(w: Wiring<S, N>, initial: S, log: seq<Event>, saved: Option<(nat, N)>,
        ticks: nat, ops: seq<Op>)
    requires Ranked(w) && OnlyPublishes(ops) && (saved.Some? ==> saved.value.0 <= |log|)
    ensures var k := RunFrom(w, initial, Boot(log, saved, initial, ticks), ops);
            var from := if saved.None? then 0 else saved.value.0;
            && log <= k.m.log
            && Replay(w, k).delivered == k.m.log[|log|..] + (log[from..] + k.m.log[|log|..])
            && (Replay(w, k).delivered == k.m.log[from..] <==> ops == [])
  {
    hide RunFrom;
    EarlyEventsAreDelivered(w, initial, log, saved, ticks, ops);
    var k := RunFrom(w, initial, Boot(log, saved, initial, ticks), ops);
    var from := if saved.None? then 0 else saved.value.0;
    assert k.m.log[from..] == log[from..] + k.m.log[|log|..];
    if ops == [] { assert k.m.log == log by { NothingRun(w, initial, Boot(log, saved, initial, ticks)); } }
  }

  lemma NothingRun<S(!new), N(!new)>(w: Wiring<S, N>, initial: S, k: KState<S, N>)
    requires Ranked(w) && WellFormed(k.m)
    ensures RunFrom(w, initial, k, []) == k
  {
  }

  // ---------------------------------------------------------------- correlation

  /**
   Between calls: an id is active exactly while work is queued; every event published without an id
   of its own carries the id of the event that opened its stretch; an opener published without one
   carries an id minted for it alone; and the shutdown counter counts queued terminal events.
   */
  ghost predicate Correlated<S, N>(k: KState<S, N>) {
    && WellFormed(k.m)
    && Inherits(k.m.log, k.m.marks, k.m.active)
    && (k.m.active.None? <==> Queue(k.m) == [])
    && k.terminals == TerminalsIn(Queue(k.m))
  }

  function TerminalsIn(q: seq<Event>): nat {
    if q == [] then 0 else (if Terminal(q[0].body) then 1 else 0) + TerminalsIn(q[1..])
  }

  ghost predicate Inherits(log: seq<Event>, marks: seq<Mark>, active: Option<Correlation>) {
    && |log| == |marks|
    && (forall i :: 0 <= i < |log| ==>
          var s := marks[i].stretch;
          && s <= i && marks[s].stretch == s
          && (!marks[i].carried ==> log[i].correlation == log[s].correlation)
          && (!marks[i].carried && s == i ==> log[i].correlation == Minting(i)))
    && (active.Some? ==> log != [] && marks[|log| - 1].stretch < |log| && active.value == log[marks[|log| - 1].stretch].correlation)
  }

  lemma AcceptInherits<S, N>(w: Wiring<S, N>, m: Machine<S>, body: Payload, supplied: Option<Correlation>, nested: bool)
    requires WellFormed(m) && Inherits(m.log, m.marks, m.active)
    requires if nested then m.active.Some? else m.active.None? <==> m.head == |m.log|
    ensures var m' := Accept(w, m, body, supplied, nested);
            WellFormed(m') && Inherits(m'.log, m'.marks, m'.active) && m'.active.Some?
  {
    var m' := Accept(w, m, body, supplied, nested);
    var n := |m.log|;
    assert forall i :: 0 <= i < n ==> m'.marks[i] == m.marks[i] && m'.log[i] == m.log[i];
    if nested || m.head < n { assert m.marks[n - 1].stretch <= n - 1; }
  }

  lemma {:induction false} AcceptAllInherits<S, N>(w: Wiring<S, N>, m: Machine<S>, bodies: seq<Payload>)
    requires WellFormed(m) && Inherits(m.log, m.marks, m.active) && m.active.Some?
    ensures var m' := AcceptAll(w, m, bodies);
            WellFormed(m') && Inherits(m'.log, m'.marks, m'.active) && m'.active.Some?
    decreases |bodies|
  {
    if bodies != [] {
      AcceptInherits(w, m, bodies[0], None, true);
      AcceptAllInherits(w, Accept(w, m, bodies[0], None, true), bodies[1..]);
    }
  }

  lemma {:induction false} TerminalsConcat(a: seq<Event>, b: seq<Event>)
    ensures TerminalsIn(a + b) == TerminalsIn(a) + TerminalsIn(b)
  {
    if a == [] {
      assert a + b == b;
    } else {
      assert (a + b)[1..] == a[1..] + b;
      TerminalsConcat(a[1..], b);
    }
  }

  lemma {:induction false} TerminalsOfBodies(events: seq<Event>, bodies: seq<Payload>)
    requires |events| == |bodies| && forall i :: 0 <= i < |events| ==> events[i].body == bodies[i]
    ensures TerminalsIn(events) == TerminalCount(bodies)
  {
    if events != [] { TerminalsOfBodies(events[1..], bodies[1..]); }
  }

  lemma SettleInherits<S>(m: Machine<S>)
    requires WellFormed(m) && Inherits(m.log, m.marks, m.active) && m.active.Some?
    ensures var m' := Settle(m);
            Inherits(m'.log, m'.marks, m'.active) && (m'.active.None? <==> Queue(m') == [])
  {
    assert m.head == |m.log| <==> Queue(m) == [];
  }

  lemma DeliverInherits<S, N>(w: Wiring<S, N>, m: Machine<S>)
    requires WellFormed(m) && m.head < |m.log| && Inherits(m.log, m.marks, m.active) && m.active.Some?
    ensures var m' := Deliver(w, m);
            Inherits(m'.log, m'.marks, m'.active) && (m'.active.None? <==> Queue(m') == [])
  {
    AcceptAllInherits(w, Reacted(w, m), React(w, m).published);
    SettleInherits(AcceptAll(w, Reacted(w, m), React(w, m).published));
  }

  lemma ProcessTerminals<S, N>(w: Wiring<S, N>, k: KState<S, N>)
    requires WellFormed(k.m) && k.m.head < |k.m.log| && k.terminals == TerminalsIn(Queue(k.m))
    ensures Process(w, k).terminals == TerminalsIn(Queue(Process(w, k).m))
  {
    var e, rest := k.m.log[k.m.head], Queue(k.m)[1..];
    ProcessShape(w, k);
    assert Queue(k.m) == [e] + rest;
    TerminalsConcat([e], rest);
    TerminalsOfBodies([e], [e.body]);
    TerminalsConcat(rest, Added(w, k));
    AddedTerminals(w, k);
  }

  lemma AddedTerminals<S, N>(w: Wiring<S, N>, k: KState<S, N>)
    requires k.m.head < |k.m.log|
    ensures Process(w, k).terminals == k.terminals - TerminalCount([k.m.log[k.m.head].body]) + TerminalsIn(Added(w, k))
  {
    if !(k.stopping && !Lifecycle(k.m.log[k.m.head].body)) {
      ReactionBodies(w, k.m);
      TerminalsOfBodies(Added(w, k), React(w, k.m).published);
    }
  }

  lemma ProcessCorrelated<S, N>(w: Wiring<S, N>, k: KState<S, N>)
    requires Correlated(k) && k.m.head < |k.m.log|
    ensures Correlated(Process(w, k))
  {
    ProcessShape(w, k);
    ProcessTerminals(w, k);
    assert Process(w, k).m == Discard(k.m) || Process(w, k).m == Deliver(w, k.m);
    hide Process, Deliver, Added;
    if Process(w, k).m == Discard(k.m) {
      SettleInherits(k.m.(head := k.m.head + 1));
    } else {
      DeliverInherits(w, k.m);
    }
  }

  lemma {:induction false} DrainCorrelated<S(!new), N(!new)>(w: Wiring<S, N>, k: KState<S, N>)
    requires Correlated(k) && Ranked(w)
    ensures Correlated(Drain(w, k))
    decreases Top(Queue(k.m)), AtTop(Queue(k.m), Top(Queue(k.m))), FirstAtTop(Queue(k.m), Top(Queue(k.m)))
  {
    if Busy(k) {
      ProcessShape(w, k);
      ProcessLowersMeasure(w, k);
      ProcessCorrelated(w, k);
      DrainCorrelated(w, Process(w, k));
    }
  }

  lemma PublishCorrelated<S(!new), N(!new)>(w: Wiring<S, N>, k: KState<S, N>, body: Payload,
        supplied: Option<Correlation>)
    requires Correlated(k) && Ranked(w)
    ensures Correlated(Publish(w, k, body, supplied))
  {
    hide Drain, Inherits, StretchOf, Stamp;
    var k' := Enter(w, k, body, supplied);
    var e := k'.m.log[|k.m.log|];
    AcceptInherits(w, k.m, body, supplied, false);
    assert Queue(k'.m) == Queue(k.m) + [e];
    TerminalsConcat(Queue(k.m), [e]);
    TerminalsOfBodies([e], [body]);
    DrainCorrelated(w, k');
  }

  lemma StartCorrelated<S(!new), N(!new)>(w: Wiring<S, N>, k: KState<S, N>)
    requires Correlated(k) && Ranked(w)
    ensures Correlated(Start(w, k))
  {
    if !k.running {
      var k1 := (if k.replayed then k else Replay(w, k)).(stopping := false);
      PublishCorrelated(w, k1, OfKernel(Starting), None);
      PublishCorrelated(w, Publish(w, k1, OfKernel(Starting), None).(running := true, started := true),
          OfKernel(Started), None);
    }
  }

  lemma StopCorrelated<S(!new), N(!new)>(w: Wiring<S, N>, k: KState<S, N>)
    requires Correlated(k) && Ranked(w)
    ensures Correlated(Stop(w, k))
  {
    if k.running {
      var k0 := k.(stopping := true);
      PublishCorrelated(w, k0, OfKernel(Stopping), None);
      PublishCorrelated(w, Publish(w, k0, OfKernel(Stopping), None).(running := false), OfKernel(Stopped), None);
    }
  }

  lemma DoCorrelated<S(!new), N(!new)>(w: Wiring<S, N>, initial: S, k: KState<S, N>, op: Op)
    requires Correlated(k) && Ranked(w)
    ensures Correlated(Do(w, initial, k, op))
  {
    match op
    case DoPublish(body, supplied) => PublishCorrelated(w, k, body, supplied);
    case DoProcess => if k.m.head < |k.m.log| { ProcessCorrelated(w, k); }
    case DoRunUntilIdle => DrainCorrelated(w, k);
    case DoStart => StartCorrelated(w, k);
    case DoStop => StopCorrelated(w, k);
    case DoSnapshot =>
    case Crash =>
  }

  lemma {:induction false} RunsAreCorrelated<S(!new), N(!new)>(w: Wiring<S, N>, initial: S, ops: seq<Op>)
    requires Ranked(w)
    ensures Correlated(Run(w, initial, ops))
  {
    if ops != [] {
      RunsAreCorrelated(w, initial, ops[..|ops| - 1]);
      DoCorrelated(w, initial, Run(w, initial, ops[..|ops| - 1]), ops[|ops| - 1]);
    }
  }

  /**
   Over any run of calls: unstamped events of one stretch share their opener's id, and unstamped
   events of two stretches that were each opened by an unstamped event never share an id.
   */
  lemma StretchesAreTold<S(!new), N(!new)>(w: Wiring<S, N>, initial: S, ops: seq<Op>, i: nat, j: nat)
    requires Ranked(w)
    requires var m := Run(w, initial, ops).m;
             i < |m.log| && j < |m.log| && !m.marks[i].carried && !m.marks[j].carried
    ensures var m := Run(w, initial, ops).m;
            var s, t := m.marks[i].stretch, m.marks[j].stretch;
            && s <= i && t <= j
            && (s == t ==> m.log[i].correlation == m.log[j].correlation == m.log[s].correlation)
            && (s != t && !m.marks[s].carried && !m.marks[t].carried ==> m.log[i].correlation != m.log[j].correlation)
  {
    RunsAreCorrelated(w, initial, ops);
  }

  // ---------------------------------------------------------------- exactly once, in log order

  /** `whole` interleaves `a` and `b`: every element of it is the next of one or of the other. */
  ghost predicate Interleaves(whole: seq<Event>, a: seq<Event>, b: seq<Event>)
    decreases |whole|
  {
    if whole == [] then a == [] && b == []
    else
      var n, e := |whole| - 1, whole[|whole| - 1];
      || (a != [] && a[|a| - 1] == e && Interleaves(whole[..n], a[..|a| - 1], b))
      || (b != [] && b[|b| - 1] == e && Interleaves(whole[..n], a, b[..|b| - 1]))
  }

  lemma InterleavesSnoc(whole: seq<Event>, a: seq<Event>, b: seq<Event>, e: Event)
    requires Interleaves(whole, a, b)
    ensures Interleaves(whole + [e], a + [e], b) && Interleaves(whole + [e], a, b + [e])
  {
    assert (whole + [e])[..|whole|] == whole && (a + [e])[..|a|] == a && (b + [e])[..|b|] == b;
  }

  /** Of the entries past `base`, those processed were handed over or written off: once, and in log order. */
  ghost predicate Split<S, N>(k: KState<S, N>, base: nat, tail: seq<Event>) {
    && WellFormed(k.m) && base <= k.m.head && tail <= k.delivered
    && Interleaves(k.m.log[base..k.m.head], k.delivered[|tail|..], k.lost)
  }

  /** What a process that found `log` replays of it. */
  function Backlog<N>(log: seq<Event>, saved: Option<(nat, N)>): seq<Event> {
    var from := if saved.None? then 0 else saved.value.0;
    if from <= |log| then log[from..] else []
  }

  /** A process built from its files has first been handed its backlog, then its own entries, each once. */
  ghost predicate OnceInOrder<S, N>(k: KState<S, N>, log: seq<Event>, saved: Option<(nat, N)>) {
    && WellFormed(k.m) && log <= k.m.log
    && (k.running ==> k.started) && (k.started <==> k.replayed)
    && (k.replayed ==> Split(k, |log|, Backlog(log, saved)))
    && (!k.replayed ==> k.m.log == log && k.m.head == |log| && k.delivered == [] && k.lost == [] && k.saved == saved)
  }

  lemma ProcessSplit<S, N>(w: Wiring<S, N>, k: KState<S, N>, base: nat, tail: seq<Event>)
    requires k.m.head < |k.m.log| && Split(k, base, tail)
    ensures Split(Process(w, k), base, tail) && k.m.log <= Process(w, k).m.log
  {
    hide Interleaves;
    var k', e := Process(w, k), k.m.log[k.m.head];
    ProcessShape(w, k);
    InterleavesSnoc(k.m.log[base..k.m.head], k.delivered[|tail|..], k.lost, e);
    assert k'.m.log[base..k'.m.head] == k.m.log[base..k.m.head] + [e];
    assert (k.delivered + [e])[|tail|..] == k.delivered[|tail|..] + [e];
  }

  lemma {:induction false} DrainSplit<S(!new), N(!new)>(w: Wiring<S, N>, k: KState<S, N>, base: nat, tail: seq<Event>)
    requires Ranked(w) && Split(k, base, tail)
    ensures Split(Drain(w, k), base, tail) && k.m.log <= Drain(w, k).m.log
    decreases Top(Queue(k.m)), AtTop(Queue(k.m), Top(Queue(k.m))), FirstAtTop(Queue(k.m), Top(Queue(k.m)))
  {
    hide Process, Split;
    if Busy(k) {
      assert WellFormed(k.m) by { SplitIsWellFormed(k, base, tail); }
      ProcessShape(w, k);
      ProcessLowersMeasure(w, k);
      ProcessSplit(w, k, base, tail);
      DrainSplit(w, Process(w, k), base, tail);
    }
  }

  lemma SplitIsWellFormed<S, N>(k: KState<S, N>, base: nat, tail: seq<Event>)
    requires Split(k, base, tail)
    ensures WellFormed(k.m)
  {
  }

  lemma PublishSplit<S(!new), N(!new)>(w: Wiring<S, N>, k: KState<S, N>, body: Payload, supplied: Option<Correlation>,
        base: nat, tail: seq<Event>)
    requires Ranked(w) && Split(k, base, tail)
    ensures Split(Publish(w, k, body, supplied), base, tail) && k.m.log <= Publish(w, k, body, supplied).m.log
  {
    hide Interleaves, Drain;
    var k' := Enter(w, k, body, supplied);
    assert k'.m.log[base..k'.m.head] == k.m.log[base..k.m.head];
    DrainSplit(w, k', base, tail);
  }

  /** The first start hands over the backlog. */
  lemma BacklogReplayed<S, N>(w: Wiring<S, N>, k: KState<S, N>, log: seq<Event>, saved: Option<(nat, N)>)
    requires OnceInOrder(k, log, saved) && !k.replayed
    ensures Split(Replay(w, k), |log|, Backlog(log, saved)) && Replay(w, k).m.log == log
  {
    var r := Replay(w, k);
    assert r.delivered == Backlog(log, saved);
    assert r.m.log[|log|..r.m.head] == [] && r.delivered[|Backlog(log, saved)|..] == [];
  }

  lemma DoOnce<S(!new), N(!new)>(w: Wiring<S, N>, initial: S, k: KState<S, N>, op: Op, log: seq<Event>, saved: Option<(nat, N)>)
    requires OnceInOrder(k, log, saved) && Ranked(w) && !op.Crash? && (op.DoPublish? || op.DoSnapshot? ==> k.started)
    ensures OnceInOrder(Do(w, initial, k, op), log, saved)
  {
    hide Interleaves, Drain, Publish;
    var n, tail := |log|, Backlog(log, saved);
    match op
    case DoPublish(body, supplied) => PublishSplit(w, k, body, supplied, n, tail); PublishKeepsFlags(w, k, body, supplied);
    case DoProcess => if k.m.head < |k.m.log| { ProcessShape(w, k); ProcessSplit(w, k, n, tail); }
    case DoRunUntilIdle => if k.replayed { DrainSplit(w, k, n, tail); } DrainKeepsFlags(w, k);
    case DoStart =>
      if !k.running {
        if !k.replayed { BacklogReplayed(w, k, log, saved); }
        var k1 := (if k.replayed then k else Replay(w, k)).(stopping := false);
        var k2 := Publish(w, k1, OfKernel(Starting), None);
        PublishSplit(w, k1, OfKernel(Starting), None, n, tail);
        PublishKeepsFlags(w, k1, OfKernel(Starting), None);
        PublishSplit(w, k2.(running := true, started := true), OfKernel(Started), None, n, tail);
        PublishKeepsFlags(w, k2.(running := true, started := true), OfKernel(Started), None);
      }
    case DoStop =>
      if k.running {
        var k0 := k.(stopping := true);
        var k1 := Publish(w, k0, OfKernel(Stopping), None);
        PublishSplit(w, k0, OfKernel(Stopping), None, n, tail);
        PublishKeepsFlags(w, k0, OfKernel(Stopping), None);
        PublishSplit(w, k1.(running := false), OfKernel(Stopped), None, n, tail);
        PublishKeepsFlags(w, k1.(running := false), OfKernel(Stopped), None);
      }
    case DoSnapshot =>
  }

  lemma {:induction false} DrainKeepsFlags<S(!new), N(!new)>(w: Wiring<S, N>, k: KState<S, N>)
    requires WellFormed(k.m) && Ranked(w)
    ensures var r := Drain(w, k);
            && r.running == k.running && r.started == k.started && r.replayed == k.replayed && r.saved == k.saved
            && (Queue(k.m) == [] ==> r == k)
    decreases Top(Queue(k.m)), AtTop(Queue(k.m), Top(Queue(k.m))), FirstAtTop(Queue(k.m), Top(Queue(k.m)))
  {
    if Busy(k) {
      ProcessShape(w, k);
      ProcessLowersMeasure(w, k);
      DrainKeepsFlags(w, Process(w, k));
    }
  }

  lemma PublishKeepsFlags<S(!new), N(!new)>(w: Wiring<S, N>, k: KState<S, N>, body: Payload, supplied: Option<Correlation>)
    requires WellFormed(k.m) && Ranked(w)
    ensures var r := Publish(w, k, body, supplied);
            r.running == k.running && r.started == k.started && r.replayed == k.replayed && r.saved == k.saved
  {
    hide Drain;
    DrainKeepsFlags(w, Enter(w, k, body, supplied));
  }

  /** One process over whatever files it finds, with nothing published or captured before its first start. */
  ghost predicate OneLife<S(!new), N(!new)>(w: Wiring<S, N>, initial: S, k: KState<S, N>, ops: seq<Op>)
    requires Ranked(w) && WellFormed(k.m)
  {
    ops != [] ==> OneLife(w, initial, k, ops[..|ops| - 1]) && !ops[|ops| - 1].Crash?
                  && (ops[|ops| - 1].DoPublish? || ops[|ops| - 1].DoSnapshot? ==> RunFrom(w, initial, k, ops[..|ops| - 1]).started)
  }

  /**
   A process over any log and snapshot is handed what its files hold past the snapshot, and then every
   entry of its own lifetime at most once and in log order: what it was handed and what shutdown wrote off
   interleave to the processed part of the log.
   */
  lemma {:induction false} DispatchedOnceInLogOrder<S(!new), N(!new)>(w: Wiring<S, N>, initial: S, log: seq<Event>,
        saved: Option<(nat, N)>, ticks: nat, ops: seq<Op>)
    requires Ranked(w) && OneLife(w, initial, Boot(log, saved, initial, ticks), ops)
    ensures OnceInOrder(RunFrom(w, initial, Boot(log, saved, initial, ticks), ops), log, saved)
  {
    hide Do, Split;
    if ops != [] {
      DispatchedOnceInLogOrder(w, initial, log, saved, ticks, ops[..|ops| - 1]);
      DoOnce(w, initial, RunFrom(w, initial, Boot(log, saved, initial, ticks), ops[..|ops| - 1]), ops[|ops| - 1], log, saved);
    }
  }

  // ---------------------------------------------------------------- what is published is logged as it was stamped

  /** An event keeps the correlation id it is published with; without one it takes the active id, or the first of its stretch mints one. */
  predicate LoggedAs<S, N>(w: Wiring<S, N>, k: KState<S, N>, log: seq<Event>, body: Payload, supplied: Option<Correlation>) {
    && |k.m.log| < |log| && k.m.log <= log
    && log[|k.m.log|] == Event(body,
                               if supplied.Some? then supplied.value else if k.m.active.Some? then k.m.active.value else Minting(|k.m.log|),
                               w.clock(|k.m.log|))
  }

  lemma PublishedIsLogged<S(!new), N(!new)>(w: Wiring<S, N>, k: KState<S, N>, body: Payload, supplied: Option<Correlation>)
    requires WellFormed(k.m) && Ranked(w)
    ensures LoggedAs(w, k, Publish(w, k, body, supplied).m.log, body, supplied)
  {
    var entered := Enter(w, k, body, supplied);
    assert LoggedAs(w, k, entered.m.log, body, supplied);
    if !k.started || Lifecycle(body) { LoggedStill(w, k, entered.m.log, Drain(w, entered).m.log, body, supplied); }
  }

  lemma LoggedStill<S, N>(w: Wiring<S, N>, k: KState<S, N>, log: seq<Event>, longer: seq<Event>, body: Payload, supplied: Option<Correlation>)
    requires LoggedAs(w, k, log, body, supplied) && log <= longer
    ensures LoggedAs(w, k, longer, body, supplied)
  {
  }

  /** A start leaves the kernel running, with the log replayed; a stop leaves it stopped, with its shutdown over; either done twice does nothing more. */
  lemma StartsAndStops<S(!new), N(!new)>(w: Wiring<S, N>, k: KState<S, N>)
    requires WellFormed(k.m) && Ranked(w)
    ensures var r := Start(w, k); r.running && (k.running ==> r == k) && (!k.running ==> r.started && r.replayed == (k.replayed || !k.started) && !r.stopping)
    ensures var r := Stop(w, k); !r.running && (!k.running ==> r == k) && (k.running ==> r.started == k.started && !r.stopping)
    ensures Start(w, Start(w, k)) == Start(w, k) && Stop(w, Stop(w, k)) == Stop(w, k)
  {
    hide Drain, Fold, Restored;
  }
}
