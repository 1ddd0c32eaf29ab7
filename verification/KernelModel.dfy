/** The kernel as a state machine over arbitrary subscribers. */
module KernelModel {
  // An append-only log, a FIFO queue that is always the log's unprocessed suffix, correlation ids, lifecycle flags,
  // shutdown, replay and snapshots. Subscribers are one handler `(state, event, n) -> (state', published)`, where `n`
  // numbers the delivery and stands for everything the handler draws from outside (added ids, the clock, tools).

  import opened Prelude
  import opened Events

  datatype Wiring<!S, !N> = Wiring(
    handler: (S, Event, nat) -> Reaction<S>,
    clock: nat -> real,
    capture: S -> N,
    restore: (S, N) -> S
  )

  /** History only: was the entry stamped by its publisher, and which entry opened its stretch. */
  datatype Mark = Mark(carried: bool, stretch: nat)

  /** `log[..head]` has been processed, `log[head..]` is queued. */
  datatype Machine<+S> = Machine(log: seq<Event>, marks: seq<Mark>, head: nat, active: Option<Correlation>, state: S,
      ticks: nat)

  ghost predicate WellFormed<S>(m: Machine<S>) {
    m.head <= |m.log| == |m.marks|
  }

  function Queue<S>(m: Machine<S>): seq<Event> {
    if m.head <= |m.log| then m.log[m.head..] else []
  }

  function Bodies(q: seq<Event>): (r: seq<Payload>)
    ensures |r| == |q|
  {
    seq(|q|, i requires 0 <= i < |q| => q[i].body)
  }

  lemma BodiesJoin(a: seq<Event>, b: seq<Event>)
    ensures Bodies(a + b) == Bodies(a) + Bodies(b)
  {
  }

  /** The correlation id an event leaves `publish` with. */
  function Stamp<S>(m: Machine<S>, supplied: Option<Correlation>): Correlation {
    match supplied
    case Some(c) => c
    case None => if m.active.Some? then m.active.value else Minting(|m.log|)
  }

  function StretchOf<S>(m: Machine<S>, nested: bool): nat {
    if !nested && m.head == |m.log| then |m.log|
    else if m.marks == [] then 0
    else m.marks[|m.marks| - 1].stretch
  }

  /** `publish` up to and including `scheduler.schedule`; `nested` when called from inside a dispatch. */
  function Accept<S, N>(w: Wiring<S, N>, m: Machine<S>, body: Payload, supplied: Option<Correlation>,
        nested: bool): Machine<S> {
    var id := Stamp(m, supplied);
    m.(log := m.log + [Event(body, id, w.clock(|m.log|))],
       marks := m.marks + [Mark(supplied.Some?, StretchOf(m, nested))],
       active := if m.active.None? then Some(id) else m.active)
  }

  function AcceptAll<S, N>(w: Wiring<S, N>, m: Machine<S>, bodies: seq<Payload>): Machine<S>
    decreases |bodies|
  {
    if bodies == [] then m else AcceptAll(w, Accept(w, m, bodies[0], None, true), bodies[1..])
  }

  /** "clear the active id once the queue has drained" */
  function Settle<S>(m: Machine<S>): Machine<S> {
    if m.head == |m.log| then m.(active := None) else m
  }

  /** The subscribers' reaction to the head of the queue. */
  function React<S, N>(w: Wiring<S, N>, m: Machine<S>): Reaction<S>
    requires m.head < |m.log|
  {
    w.handler(m.state, m.log[m.head], m.ticks)
  }

  /** The machine once they have reacted, before their publications are accepted. */
  function Reacted<S, N>(w: Wiring<S, N>, m: Machine<S>): Machine<S>
    requires m.head < |m.log|
  {
    m.(head := m.head + 1, state := React(w, m).state, ticks := m.ticks + 1)
  }

  function Deliver<S, N>(w: Wiring<S, N>, m: Machine<S>): Machine<S>
    requires m.head < |m.log|
  {
    Settle(AcceptAll(w, Reacted(w, m), React(w, m).published))
  }

  function Discard<S>(m: Machine<S>): Machine<S>
    requires m.head < |m.log|
  {
    Settle(m.(head := m.head + 1))
  }

  /** The events a reaction's publications become. */
  function Published<S, N>(w: Wiring<S, N>, m: Machine<S>, bodies: seq<Payload>): (r: seq<Event>)
    ensures |r| == |bodies|
    ensures forall i :: 0 <= i < |r| ==> r[i].body == bodies[i]
    decreases |bodies|
  {
    if bodies == [] then []
    else
      var m' := Accept(w, m, bodies[0], None, true);
      [m'.log[|m.log|]] + Published(w, m', bodies[1..])
  }

  lemma {:induction false} AcceptAllAppends<S, N>(w: Wiring<S, N>, m: Machine<S>, bodies: seq<Payload>)
    ensures var m' := AcceptAll(w, m, bodies);
            && m'.log == m.log + Published(w, m, bodies)
            && m'.head == m.head && m'.state == m.state && m'.ticks == m.ticks
            && |m'.marks| == |m.marks| + |bodies|
    decreases |bodies|
  {
    if bodies != [] {
      AcceptAllAppends(w, Accept(w, m, bodies[0], None, true), bodies[1..]);
    }
  }

  /** What delivering the head of the queue appends to the log. */
  function Reactions<S, N>(w: Wiring<S, N>, m: Machine<S>): seq<Event>
    requires m.head < |m.log|
  {
    Published(w, Reacted(w, m), React(w, m).published)
  }

  lemma ReactionBodies<S, N>(w: Wiring<S, N>, m: Machine<S>)
    requires m.head < |m.log|
    ensures var p := React(w, m).published;
            && |Reactions(w, m)| == |p| && forall i :: 0 <= i < |p| ==> Reactions(w, m)[i].body == p[i]
  {
  }

  /** One delivery: the head of the queue is consumed, its reaction's publications join the back. */
  lemma DeliverShape<S, N>(w: Wiring<S, N>, m: Machine<S>)
    requires WellFormed(m) && m.head < |m.log|
    ensures var m' := Deliver(w, m);
            && WellFormed(m')
            && m'.log == m.log + Reactions(w, m)
            && m'.head == m.head + 1 && m'.ticks == m.ticks + 1
            && m'.state == React(w, m).state
            && Queue(m') == Queue(m)[1..] + Reactions(w, m)
  {
    AcceptAllAppends(w, Reacted(w, m), React(w, m).published);
  }

  // ---------------------------------------------------------------- lifecycle

  /**
   The whole kernel. `delivered` and `lost` are history: what was handed to subscribers, in order, and
   what shutdown threw away. `saved` is the snapshot file.
   */
  datatype KState<+S, +N> = KState(
    m: Machine<S>, terminals: int, running: bool, started: bool, stopping: bool, replayed: bool,
    delivered: seq<Event>, lost: seq<Event>, saved: Option<(nat, N)>
  )

  /**
   A newly constructed kernel over whatever the log and snapshot files already hold. `ticks` is how many
   deliveries any process has made: what is minted in a later process is minted afresh.
   */
  function Boot<S, N>(log: seq<Event>, saved: Option<(nat, N)>, initial: S, ticks: nat): KState<S, N> {
    var marks := seq(|log|, i requires 0 <= i < |log| => Mark(true, i));
    KState(Machine(log, marks, |log|, None, initial, ticks), 0, false, false, false, false, [], [], saved)
  }

  function TerminalCount(bodies: seq<Payload>): nat {
    if bodies == [] then 0 else (if Terminal(bodies[0]) then 1 else 0) + TerminalCount(bodies[1..])
  }

  lemma OneTerminal(body: Payload)
    ensures TerminalCount([body]) == if Terminal(body) then 1 else 0
  {
    assert [body][1..] == [];
  }

  function Enter<S, N>(w: Wiring<S, N>, k: KState<S, N>, body: Payload, supplied: Option<Correlation>): KState<S, N> {
    k.(m := Accept(w, k.m, body, supplied, false), terminals := k.terminals + TerminalCount([body]))
  }

  /** `_dispatch_scheduled` on the head of the queue. */
  function Process<S, N>(w: Wiring<S, N>, k: KState<S, N>): KState<S, N>
    requires k.m.head < |k.m.log|
  {
    var e := k.m.log[k.m.head];
    var left := k.terminals - TerminalCount([e.body]);
    if k.stopping && !Lifecycle(e.body) then
      k.(m := Discard(k.m), terminals := left, lost := k.lost + [e])
    else
      k.(m := Deliver(w, k.m), terminals := left + TerminalCount(React(w, k.m).published), delivered := k.delivered + [e])
  }

  /** The two ways of processing the head of the queue, spelled out. */
  lemma ProcessCases<S, N>(w: Wiring<S, N>, k: KState<S, N>)
    requires k.m.head < |k.m.log|
    ensures var e := k.m.log[k.m.head];
            var taken := k.m.(head := k.m.head + 1);
            var left := k.terminals - if Terminal(e.body) then 1 else 0;
            var r := w.handler(k.m.state, e, k.m.ticks);
            Process(w, k) ==
              if k.stopping && !Lifecycle(e.body)
              then k.(m := Settle(taken), terminals := left, lost := k.lost + [e])
              else k.(m := Settle(AcceptAll(w, taken.(state := r.state, ticks := k.m.ticks + 1), r.published)),
                      terminals := left + TerminalCount(r.published), delivered := k.delivered + [e])
  {
    OneTerminal(k.m.log[k.m.head].body);
  }

  /** Delivering the head of the queue, in the three steps it is done in. */
  lemma DeliveryIs<S, N>(w: Wiring<S, N>, k: KState<S, N>, taken: Machine<S>, left: int, m: Machine<S>, terminals: int)
    requires k.m.head < |k.m.log|
    requires var e := k.m.log[k.m.head];
             var r := w.handler(k.m.state, e, k.m.ticks);
             && !(k.stopping && !Lifecycle(e.body))
             && taken == k.m.(head := k.m.head + 1) && left == k.terminals - TerminalCount([e.body])
             && m == Settle(AcceptAll(w, taken.(state := r.state, ticks := taken.ticks + 1), r.published))
             && terminals == left + TerminalCount(r.published)
    ensures Process(w, k) == k.(m := m, terminals := terminals, delivered := k.delivered + [k.m.log[k.m.head]])
  {
    hide Settle, AcceptAll, TerminalCount;
    OneTerminal(k.m.log[k.m.head].body);
  }

  /** The loop condition of `run_until_idle`. */
  predicate Busy<S, N>(k: KState<S, N>) {
    k.m.head < |k.m.log| && (!k.started || k.running || k.terminals > 0)
  }

  // ---------------------------------------------------------------- draining terminates

  /** Subscribers publish only payloads of lower rank than the one they react to. */
  ghost predicate Ranked<S(!new), N(!new)>(w: Wiring<S, N>) {
    forall s, e, t :: forall p <- w.handler(s, e, t).published :: Rank(p) < Rank(e.body)
  }

  function Top(q: seq<Event>): nat {
    if q == [] then 0
    else var rest := Top(q[1..]); if Rank(q[0].body) + 1 > rest then Rank(q[0].body) + 1 else rest
  }

  function AtTop(q: seq<Event>, top: nat): nat {
    if q == [] then 0 else (if Rank(q[0].body) + 1 == top then 1 else 0) + AtTop(q[1..], top)
  }

  function FirstAtTop(q: seq<Event>, top: nat): nat {
    if q == [] || Rank(q[0].body) + 1 == top then 0 else 1 + FirstAtTop(q[1..], top)
  }

  lemma {:induction false} TopBounds(q: seq<Event>, e: Event)
    requires e in q
    ensures Rank(e.body) < Top(q)
  {
    if e != q[0] { TopBounds(q[1..], e); }
  }

  lemma {:induction false} LowTail(q: seq<Event>, added: seq<Event>, top: nat)
    requires forall e <- added :: Rank(e.body) + 1 < top
    ensures AtTop(q + added, top) == AtTop(q, top)
    ensures AtTop(q, top) > 0 ==> FirstAtTop(q + added, top) == FirstAtTop(q, top)
    ensures Top(q) <= top ==> Top(q + added) <= top
    ensures AtTop(q, top) > 0 ==> Top(q) >= top && Top(q + added) >= top
    ensures Top(q) <= top && AtTop(q, top) == 0 && top > 0 ==> Top(q + added) < top
    decreases |q|, |added|
  {
    if q != [] {
      assert (q + added)[1..] == q[1..] + added;
      LowTail(q[1..], added, top);
    } else if added != [] {
      assert q + added == added && added[1..] == [] + added[1..];
      LowTail(q, added[1..], top);
    }
  }

  /** Each processing step lowers (highest rank queued, how many have it, where the first one is). */
  lemma StepLowersMeasure(q: seq<Event>, added: seq<Event>)
    requires q != [] && forall e <- added :: Rank(e.body) < Rank(q[0].body)
    ensures var q' := q[1..] + added;
            var t, t' := Top(q), Top(q');
            t' < t || (t' == t && (AtTop(q', t') < AtTop(q, t)
                                   || (AtTop(q', t') == AtTop(q, t) && FirstAtTop(q', t') < FirstAtTop(q, t))))
  {
    var t := Top(q);
    TopBounds(q, q[0]);
    LowTail(q[1..], added, t);
    AtTopPositive(q);
  }

  lemma {:induction false} AtTopPositive(q: seq<Event>)
    ensures q != [] ==> AtTop(q, Top(q)) > 0
  {
    if q != [] { AtTopPositive(q[1..]); }
  }

  /** What processing the head of the queue appends to it. */
  function Added<S, N>(w: Wiring<S, N>, k: KState<S, N>): seq<Event>
    requires k.m.head < |k.m.log|
  {
    if k.stopping && !Lifecycle(k.m.log[k.m.head].body) then [] else Reactions(w, k.m)
  }

  lemma DiscardShape<S>(m: Machine<S>)
    requires WellFormed(m) && m.head < |m.log|
    ensures var m' := Discard(m);
            && WellFormed(m') && m'.head == m.head + 1
            && m'.log == m.log + [] && Queue(m') == Queue(m)[1..] + []
  {
    assert Queue(Discard(m)) == Queue(m)[1..];
  }

  lemma ProcessShape<S, N>(w: Wiring<S, N>, k: KState<S, N>)
    requires WellFormed(k.m) && k.m.head < |k.m.log|
    ensures var k' := Process(w, k);
            && WellFormed(k'.m) && k'.m.head == k.m.head + 1
            && k'.m.log == k.m.log + Added(w, k)
            && Queue(k'.m) == Queue(k.m)[1..] + Added(w, k)
            && k'.running == k.running && k'.started == k.started && k'.stopping == k.stopping
            && k'.replayed == k.replayed && k'.saved == k.saved
  {
    if k.stopping && !Lifecycle(k.m.log[k.m.head].body) {
      DiscardShape(k.m);
    } else {
      DeliverShape(w, k.m);
    }
  }

  lemma ProcessLowersMeasure<S(!new), N(!new)>(w: Wiring<S, N>, k: KState<S, N>)
    requires WellFormed(k.m) && k.m.head < |k.m.log| && Ranked(w)
    ensures var q, q' := Queue(k.m), Queue(Process(w, k).m);
            var t, t' := Top(q), Top(q');
            t' < t || (t' == t && (AtTop(q', t') < AtTop(q, t)
                                   || (AtTop(q', t') == AtTop(q, t) && FirstAtTop(q', t') < FirstAtTop(q, t))))
  {
    ProcessShape(w, k);
    var e, added := k.m.log[k.m.head], Added(w, k);
    forall x | x in added ensures Rank(x.body) < Rank(e.body) {
      var i :| 0 <= i < |added| && added[i] == x;
      ReactionBodies(w, k.m);
      assert x.body in React(w, k.m).published;
    }
    assert Queue(k.m)[0] == e;
    StepLowersMeasure(Queue(k.m), added);
  }

  /** `run_until_idle`: terminates for every ranked wiring, however much each handler publishes. */
  ghost function Drain<S(!new), N(!new)>(w: Wiring<S, N>, k: KState<S, N>): (r: KState<S, N>)
    requires WellFormed(k.m) && Ranked(w)
    ensures WellFormed(r.m) && !Busy(r) && k.m.log <= r.m.log
    ensures r.running == k.running && r.started == k.started && r.stopping == k.stopping
    ensures r.replayed == k.replayed && r.saved == k.saved
    decreases Top(Queue(k.m)), AtTop(Queue(k.m), Top(Queue(k.m))), FirstAtTop(Queue(k.m), Top(Queue(k.m)))
  {
    if Busy(k) then
      ProcessShape(w, k);
      ProcessLowersMeasure(w, k);
      Drain(w, Process(w, k))
    else k
  }

  /** A running kernel that drains is left with nothing queued. */
  lemma DrainEmpties<S(!new), N(!new)>(w: Wiring<S, N>, k: KState<S, N>)
    requires WellFormed(k.m) && Ranked(w) && (k.running || !k.started)
    ensures Queue(Drain(w, k).m) == []
  {
    var r := Drain(w, k);
    assert r.m.head == |r.m.log|;
  }

  // ---------------------------------------------------------------- the kernel's operations

  ghost function Publish<S(!new), N(!new)>(w: Wiring<S, N>, k: KState<S, N>, body: Payload,
        supplied: Option<Correlation>): (r: KState<S, N>)
    requires WellFormed(k.m) && Ranked(w)
    ensures WellFormed(r.m)
    ensures r.running == k.running && r.started == k.started && r.stopping == k.stopping && r.saved == k.saved
  {
    var k' := Enter(w, k, body, supplied);
    if !k.started || Lifecycle(body) then Drain(w, k') else k'
  }

  /** Subscribers' state after being handed a list of events while their own publications are ignored. */
  function Fold<S, N>(w: Wiring<S, N>, s: S, events: seq<Event>, tick: nat): S {
    if events == [] then s else Fold(w, w.handler(s, events[0], tick).state, events[1..], tick + 1)
  }

  /** The stored snapshot, restored into fresh components, and the first log position after it. */
  function Restored<S, N>(w: Wiring<S, N>, k: KState<S, N>): (S, nat) {
    match k.saved
    case None => (k.m.state, 0)
    case Some((sequence, items)) => (w.restore(k.m.state, items), sequence)
  }

  /** `replay`: the latest snapshot, then every logged event after it, in order; the log is not touched. */
  function Replay<S, N>(w: Wiring<S, N>, k: KState<S, N>): KState<S, N>
    requires WellFormed(k.m)
  {
    if k.started || k.replayed then k  // RuntimeError
    else
      var (s, sequence) := Restored(w, k);
      var tail := if sequence <= |k.m.log| then k.m.log[sequence..] else [];
      k.(m := k.m.(state := Fold(w, s, tail, k.m.ticks), ticks := k.m.ticks + |tail|),
         replayed := true, delivered := k.delivered + tail)
  }

  lemma ReplayRefused<S, N>(w: Wiring<S, N>, k: KState<S, N>)
    requires WellFormed(k.m) && (k.started || k.replayed)
    ensures Replay(w, k) == k
  {
  }

  /** Replaying, in the two steps it is done in. */
  lemma ReplayIs<S, N>(w: Wiring<S, N>, k: KState<S, N>, restored: S, tail: seq<Event>, m: Machine<S>)
    requires WellFormed(k.m) && !k.started && !k.replayed
    requires restored == Restored(w, k).0
    requires tail == if Restored(w, k).1 <= |k.m.log| then k.m.log[Restored(w, k).1..] else []
    requires m == k.m.(state := Fold(w, restored, tail, k.m.ticks), ticks := k.m.ticks + |tail|)
    ensures Replay(w, k) == k.(m := m, replayed := true, delivered := k.delivered + tail)
  {
    hide Fold, Restored;
  }

  ghost function Start<S(!new), N(!new)>(w: Wiring<S, N>, k: KState<S, N>): (r: KState<S, N>)
    requires WellFormed(k.m) && Ranked(w)
    ensures WellFormed(r.m)
  {
    if k.running then k
    else
      var k1 := (if k.replayed then k else Replay(w, k)).(stopping := false);
      var k2 := Publish(w, k1, OfKernel(Starting), None);
      Publish(w, k2.(running := true, started := true), OfKernel(Started), None)
  }

  ghost function Stop<S(!new), N(!new)>(w: Wiring<S, N>, k: KState<S, N>): (r: KState<S, N>)
    requires WellFormed(k.m) && Ranked(w)
    ensures WellFormed(r.m)
  {
    if !k.running then k
    else
      var k1 := Publish(w, k.(stopping := true), OfKernel(Stopping), None);
      Publish(w, k1.(running := false), OfKernel(Stopped), None).(stopping := false)
  }

  /** `create_snapshot` saves the components as they are now under the log's latest sequence number. */
  function CreateSnapshot<S, N>(w: Wiring<S, N>, k: KState<S, N>): KState<S, N> {
    k.(saved := Some((|k.m.log|, w.capture(k.m.state))))
  }
}
