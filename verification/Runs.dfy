/** Runs of the organism: deliveries, outside publications and configuration, shutdowns that drop, restarts that replay. */
module Runs {
  import opened Prelude
  import opened Events
  import opened KernelModel
  import opened Organism
  import P = PerceptionModel
  import W = WorldModelModel
  import X = ExecutiveModel
  import G = GovernorModel
  import T = ExecutorModel
  import M = MemoryModel

  ghost function Live(v: Setting): (w: Wiring<OState, OState>)
    ensures Ranked(w)
  {
    hide Handle;
    var capture, restore := (o: OState) => o, (o: OState, saved: OState) => saved;
    EveryDrainTerminates(v, capture, restore);
    OrganismWiring(v, capture, restore)
  }

  /** The organism on its kernel. While `head` is short of `stale`, the process is replaying the log it found. */
  datatype Life = Life(m: Machine<OState>, stale: nat)

  predicate Replaying(l: Life) {
    l.m.head < l.stale
  }

  /**
   `Drop` is an event written off in shutdown. `Reboot` is the death of the process between two dispatches and
   its successor's boot over the log; `Tear(n)` its death in the middle of one, when only the first n events the
   handlers publish are in the log. `Hear` is the successor's replay of one entry, what handlers publish being ignored.
   */
  datatype Move =
    | Enter(body: Payload, supplied: Option<Correlation>) | Next | Drop | Reboot | Tear(n: nat) | Hear | Configure(o: OState)

  /** At most the first n. */
  function Taken<A>(s: seq<A>, n: nat): (r: seq<A>)
    ensures r <= s
  {
    if n <= |s| then s[..n] else s
  }

  /** What the components' own methods publish when called from outside a dispatch. */
  predicate Outside(o: OState, body: Payload) {
    match body
    case OfKernel(_) => true
    case OfPerception(p) => P.InRange(p.confidence)
    case OfWorldModel(w) => w.BeliefUpdated? && P.InRange(w.confidence)
    case OfExecutive(x) => x.PlanSelected? || x.PlanAbandoned? || x.DeliberationStep? || x.ResearchSpendRequested?
    case OfGovernor(g) =>
      || g.AmendmentProposed?
      || (g.ConstitutionAmended? && g.amendmentId in o.governor.pendingAmendments)
      || (g.AmendmentRejected? && g.amendmentId in o.governor.pendingAmendments)
      || (g.EscalationResolved? && g.escalationId in o.governor.pendingEscalations
          && g.planId == o.governor.pendingEscalations[g.escalationId].planId)
    case OfExecutor(t) => t.CredentialRegistered? || t.CredentialUpdated? || t.CredentialRevoked?
    case OfMemory(_) => false
    case OfInference(_) => true
  }

  predicate BeliefsInRange(beliefs: map<string, W.Belief>) {
    forall id :: id in beliefs ==> P.InRange(beliefs[id].confidence)
  }

  /**
   What direct calls may change: a constitution is adopted, a budget funded, tools registered, beliefs
   decayed, research requested, a deliberation concluded, sensors registered and read.
   */
  predicate Reconfigures(o: OState, o': OState) {
    && o'.memory == o.memory
    && o'.worldModel.reliabilities == o.worldModel.reliabilities
    && (BeliefsInRange(o.worldModel.beliefs) ==> BeliefsInRange(o'.worldModel.beliefs))
    && o'.executive == o.executive.(decisions := o'.executive.decisions, research := o'.executive.research,
                                    stores := o.executive.stores.(pendingPlans := o'.executive.stores.pendingPlans))
    && (o'.executive.stores.pendingPlans == o.executive.stores.pendingPlans || o'.executive.stores.pendingPlans == [])
    && o'.governor == o.governor.(constitutions := o'.governor.constitutions, budgets := o'.governor.budgets,
                                  activeBudget := o'.governor.activeBudget)
    && o'.executor == o.executor.(equipment := o'.executor.equipment)
    && o'.executor.equipment.credentials == o.executor.equipment.credentials
  }

  ghost function Beginning(v: Setting): Life {
    Life(Boot<OState, OState>([], None, Initial(), 0).m, 0)
  }

  /** What a dispatch that was cut short leaves to the next process. */
  ghost function Remains(v: Setting, m: Machine<OState>, n: nat): Life
    requires m.head < |m.log|
  {
    hide Publications, Successor;
    var cut := AcceptAll(Live(v), Reacted(Live(v), m), Taken(React(Live(v), m).published, n));
    Life(Boot<OState, OState>(cut.log, None, Initial(), cut.ticks).m.(head := 0), |cut.log|)
  }

  ghost function Go(v: Setting, l: Life, move: Move): Life {
    hide Publications, Successor;
    match move
    case Enter(body, supplied) => l.(m := Accept(Live(v), l.m, body, supplied, false))
    case Next => if l.m.head < |l.m.log| then l.(m := Deliver(Live(v), l.m)) else l
    case Drop => if l.m.head < |l.m.log| then l.(m := Discard(l.m)) else l
    case Reboot => Life(Boot<OState, OState>(l.m.log, None, Initial(), l.m.ticks).m.(head := 0), |l.m.log|)
    case Tear(n) => if l.m.head < |l.m.log| then Remains(v, l.m, n) else l
    case Hear => if l.m.head < |l.m.log| then l.(m := Reacted(Live(v), l.m)) else l
    case Configure(o) => l.(m := l.m.(state := o))
  }

  ghost predicate Allowed(l: Life, move: Move) {
    match move
    case Enter(body, _) => !Replaying(l) && Outside(l.m.state, body)
    case Next => !Replaying(l) && l.m.head < |l.m.log|
    case Drop => !Replaying(l) && l.m.head < |l.m.log| && !Lifecycle(l.m.log[l.m.head].body)
    case Reboot => true
    case Tear(_) => !Replaying(l) && l.m.head < |l.m.log|
    case Hear => Replaying(l) && l.m.head < |l.m.log|
    case Configure(o) => Reconfigures(l.m.state, o)
  }

  ghost function Reached(v: Setting, moves: seq<Move>): Life {
    hide Go;
    if moves == [] then Beginning(v) else Go(v, Reached(v, moves[..|moves| - 1]), moves[|moves| - 1])
  }

  ghost predicate Legal(v: Setting, moves: seq<Move>) {
    hide Go, Allowed;
    moves != [] ==> Legal(v, moves[..|moves| - 1]) && Allowed(Reached(v, moves[..|moves| - 1]), moves[|moves| - 1])
  }

  // ---------------------------------------------------------------- runs, seen as points

  function Past<S>(m: Machine<S>): seq<Event> {
    if m.head <= |m.log| then m.log[..m.head] else []
  }

  /**
   The components; what is behind them in the log and what is ahead; how many deliveries there have ever
   been; and whether what is ahead is only being replayed.
   */
  datatype Point = Point(o: OState, past: seq<Payload>, queue: seq<Payload>, ticks: nat, replaying: bool)

  function At(l: Life): Point {
    Point(l.m.state, Bodies(Past(l.m)), Bodies(Queue(l.m)), l.m.ticks, Replaying(l))
  }

  ghost function Here(v: Setting, moves: seq<Move>): Point {
    At(Reached(v, moves))
  }

  function Log(p: Point): seq<Payload> {
    p.past + p.queue
  }

  lemma LogTurns(p: Point)
    requires p.queue != []
    ensures p.past + [p.queue[0]] + p.queue[1..] == Log(p) && p.queue[0] in Log(p)
  {
  }

  function Birth(): Point {
    Point(Initial(), [], [], 0, false)
  }

  function Entered(p: Point, body: Payload): Point {
    p.(queue := p.queue + [body])
  }

  /** `e` is the event at the head of the queue, if there is one. */
  predicate HeadIs(p: Point, e: Event) {
    p.queue != [] ==> e.body == p.queue[0]
  }

  /** This is the body of the event dispatched next. */
  predicate Facing(p: Point, body: Payload) {
    p.queue != [] && p.queue[0] == body
  }

  /** One delivery. */
  ghost function Moved(v: Setting, p: Point, e: Event): Point {
    hide Publications, Successor;
    if p.queue == [] then p
    else p.(o := Successor(v, p.o, e, p.ticks), past := p.past + [e.body],
            queue := p.queue[1..] + Publications(v, p.o, e, p.ticks), ticks := p.ticks + 1)
  }

  function Dropped(p: Point): Point {
    if p.queue == [] then p else p.(past := p.past + [p.queue[0]], queue := p.queue[1..])
  }

  function Rebooted(p: Point): Point {
    Point(Initial(), [], Log(p), p.ticks, Log(p) != [])
  }

  /** The next process finds what was logged of a delivery that was cut short. */
  ghost function Torn(v: Setting, p: Point, e: Event, n: nat): Point {
    hide Publications;
    if p.queue == [] then p
    else Point(Initial(), [], Log(p) + Taken(Publications(v, p.o, e, p.ticks), n), p.ticks + 1, true)
  }

  /** One delivery in replay. */
  ghost function Heard(v: Setting, p: Point, e: Event): Point {
    hide Publications, Successor;
    if p.queue == [] then p
    else Point(Successor(v, p.o, e, p.ticks), p.past + [e.body], p.queue[1..], p.ticks + 1, |p.queue| > 1)
  }

  function Configured(p: Point, o: OState): Point {
    p.(o := o)
  }

  /** What a move makes of a point; `e` is the event at the head of the queue. */
  ghost function Stepped(v: Setting, p: Point, move: Move, e: Event): Point {
    hide Moved, Heard, Torn;
    match move
    case Enter(body, _) => Entered(p, body)
    case Next => Moved(v, p, e)
    case Drop => Dropped(p)
    case Reboot => Rebooted(p)
    case Tear(n) => Torn(v, p, e, n)
    case Hear => Heard(v, p, e)
    case Configure(o) => Configured(p, o)
  }

  ghost predicate Possible(p: Point, move: Move) {
    match move
    case Enter(body, _) => !p.replaying && Outside(p.o, body)
    case Next => !p.replaying && p.queue != []
    case Drop => !p.replaying && p.queue != [] && !Lifecycle(p.queue[0])
    case Reboot => true
    case Tear(_) => !p.replaying && p.queue != []
    case Hear => p.replaying && p.queue != []
    case Configure(o) => Reconfigures(p.o, o)
  }

  ghost predicate Sound(l: Life) {
    WellFormed(l.m) && l.stale <= |l.m.log|
  }

  /** The event at the head of the queue. */
  function HeadEvent(l: Life): Event {
    if l.m.head < |l.m.log| then l.m.log[l.m.head] else Event(OfKernel(Starting), Minting(0), 0.0)
  }

  lemma ReactsAsWired(v: Setting, m: Machine<OState>)
    requires m.head < |m.log|
    ensures React(Live(v), m) == Reaction(Successor(v, m.state, m.log[m.head], m.ticks), Publications(v, m.state, m.log[m.head], m.ticks))
  {
    hide Publications, Successor;
  }

  lemma NextIs(v: Setting, l: Life)
    requires Sound(l) && l.m.head < |l.m.log| && !Replaying(l)
    ensures Sound(Go(v, l, Next)) && At(l).queue != [] && HeadIs(At(l), HeadEvent(l))
    ensures At(Go(v, l, Next)) == Moved(v, At(l), HeadEvent(l))
  {
    hide Publications, Successor, Deliver, React, Live, Reactions;
    var w, m := Live(v), l.m;
    DeliverShape(w, m);
    ReactionBodies(w, m);
    ReactsAsWired(v, m);
    assert Bodies(Reactions(w, m)) == React(w, m).published;
    assert Past(Deliver(w, m)) == Past(m) + [m.log[m.head]];
    assert Bodies(Queue(Deliver(w, m))) == Bodies(Queue(m))[1..] + Bodies(Reactions(w, m));
  }

  lemma EnterIs(v: Setting, l: Life, body: Payload, supplied: Option<Correlation>)
    requires Sound(l)
    ensures Sound(Go(v, l, Enter(body, supplied))) && At(Go(v, l, Enter(body, supplied))) == Entered(At(l), body)
  {
    hide Publications, Successor;
    var m, m' := l.m, Go(v, l, Enter(body, supplied)).m;
    assert m'.log == m.log + [m'.log[|m.log|]];
    assert Queue(m') == Queue(m) + [m'.log[|m.log|]];
    assert Past(m') == Past(m);
  }

  lemma DropIs(v: Setting, l: Life)
    requires Sound(l) && l.m.head < |l.m.log| && !Replaying(l)
    ensures Sound(Go(v, l, Drop)) && At(l).queue != [] && HeadIs(At(l), HeadEvent(l))
    ensures At(Go(v, l, Drop)) == Dropped(At(l))
  {
    hide Publications, Successor;
    var m' := Go(v, l, Drop).m;
    assert Past(m') == Past(l.m) + [l.m.log[l.m.head]] && Queue(m') == Queue(l.m)[1..];
  }

  lemma RebootIs(v: Setting, l: Life)
    requires Sound(l)
    ensures Sound(Go(v, l, Reboot)) && At(Go(v, l, Reboot)) == Rebooted(At(l))
  {
    hide Publications, Successor;
    var m' := Go(v, l, Reboot).m;
    assert Queue(m') == l.m.log == Past(l.m) + Queue(l.m) && Past(m') == [];
  }

  lemma LogOfLife(l: Life)
    requires Sound(l)
    ensures Bodies(l.m.log) == Log(At(l))
  {
    BodiesJoin(Past(l.m), Queue(l.m));
    assert Past(l.m) + Queue(l.m) == l.m.log;
  }

  lemma TearIs(v: Setting, l: Life, n: nat)
    requires Sound(l) && l.m.head < |l.m.log| && !Replaying(l)
    ensures Orderly(Go(v, l, Tear(n))) && At(l).queue != [] && HeadIs(At(l), HeadEvent(l))
    ensures At(Go(v, l, Tear(n))) == Torn(v, At(l), HeadEvent(l), n)
  {
    hide Publications, Successor, React, Live, AcceptAll, Published, Taken;
    var w, m := Live(v), l.m;
    var logged := Taken(React(w, m).published, n);
    ReactsAsWired(v, m);
    AcceptAllAppends(w, Reacted(w, m), logged);
    var added := Published(w, Reacted(w, m), logged);
    var m' := Go(v, l, Tear(n)).m;
    assert m'.log == m.log + added && Queue(m') == m'.log && Past(m') == [];
    LogOfLife(l);
    BodiesJoin(m.log, added);
    assert Bodies(added) == logged;
  }

  lemma HearIs(v: Setting, l: Life)
    requires Sound(l) && l.m.head < |l.m.log| && Replaying(l) && l.stale == |l.m.log|
    ensures Sound(Go(v, l, Hear)) && At(l).queue != [] && HeadIs(At(l), HeadEvent(l))
    ensures At(Go(v, l, Hear)) == Heard(v, At(l), HeadEvent(l))
  {
    hide Publications, Successor, React, Live;
    var m' := Go(v, l, Hear).m;
    ReactsAsWired(v, l.m);
    assert Past(m') == Past(l.m) + [l.m.log[l.m.head]] && Queue(m') == Queue(l.m)[1..];
  }

  lemma ConfigureIs(v: Setting, l: Life, o: OState)
    requires Sound(l)
    ensures Sound(Go(v, l, Configure(o))) && At(Go(v, l, Configure(o))) == Configured(At(l), o)
  {
    hide Publications, Successor;
  }

  /** A process that is replaying has nothing queued but what it replays. */
  ghost predicate Orderly(l: Life) {
    Sound(l) && (Replaying(l) ==> l.stale == |l.m.log|)
  }

  lemma StepIs(v: Setting, l: Life, move: Move)
    requires Orderly(l) && Allowed(l, move)
    ensures var l' := Go(v, l, move);
            Orderly(l') && Possible(At(l), move) && At(l') == Stepped(v, At(l), move, HeadEvent(l))
            && HeadIs(At(l), HeadEvent(l))
  {
    hide Moved, Heard, Torn, Outside, Reconfigures, Deliver, Accept, Live, Reacted, Discard, Remains;
    match move
    case Enter(body, supplied) => EnterIs(v, l, body, supplied); EnterStaysOrderly(v, l, body, supplied);
    case Next => NextIs(v, l); NextStaysOrderly(v, l);
    case Drop => DropIs(v, l); DropStaysOrderly(v, l);
    case Reboot => RebootIs(v, l);
    case Tear(n) => TearIs(v, l, n);
    case Hear => HearIs(v, l); HearStaysOrderly(v, l);
    case Configure(o) => ConfigureIs(v, l, o);
  }

  lemma EnterStaysOrderly(v: Setting, l: Life, body: Payload, supplied: Option<Correlation>)
    requires Sound(l) && !Replaying(l)
    ensures Orderly(Go(v, l, Enter(body, supplied)))
  {
    hide Publications, Successor;
  }

  lemma NextStaysOrderly(v: Setting, l: Life)
    requires Sound(l) && !Replaying(l) && l.m.head < |l.m.log|
    ensures Orderly(Go(v, l, Next))
  {
    hide Publications, Successor, Deliver, Reactions, Live;
    DeliverShape(Live(v), l.m);
  }

  lemma DropStaysOrderly(v: Setting, l: Life)
    requires Sound(l) && !Replaying(l) && l.m.head < |l.m.log|
    ensures Orderly(Go(v, l, Drop))
  {
    hide Publications, Successor;
  }

  lemma HearStaysOrderly(v: Setting, l: Life)
    requires Orderly(l) && Replaying(l) && l.m.head < |l.m.log|
    ensures Orderly(Go(v, l, Hear))
  {
    hide Publications, Successor, React, Live;
  }

  lemma {:induction false} RunsAreOrderly(v: Setting, moves: seq<Move>)
    requires Legal(v, moves)
    ensures Orderly(Reached(v, moves))
  {
    hide Go, Allowed, Orderly, Publications, Successor, Beginning, Stepped, Possible;
    if moves == [] {
      BeginningIsOrderly(v);
    } else {
      var l, move := Reached(v, moves[..|moves| - 1]), moves[|moves| - 1];
      RunsAreOrderly(v, moves[..|moves| - 1]);
      StepIs(v, l, move);
    }
  }

  lemma BeginningIsOrderly(v: Setting)
    ensures Orderly(Beginning(v))
  {
    hide Publications, Successor;
  }

  // ---------------------------------------------------------------- what every run keeps

  /**
   How much a run may lose: anything; nothing in shutdown; nor part of a dispatch, so that every process dies between two;
   nothing at all, so that every process dies with nothing live queued.
   */
  datatype Loss = AnyLoss | NoDrops | NoTears | NoLoss

  predicate Affords(most: Loss, p: Point, move: Move) {
    && (move.Drop? ==> most.AnyLoss?)
    && (move.Tear? ==> most.AnyLoss? || most.NoDrops?)
    && (move.Reboot? && most.NoLoss? ==> p.queue == [] || p.replaying)
  }

  ghost predicate Loses(v: Setting, moves: seq<Move>, most: Loss) {
    hide Go, Allowed;
    moves != [] ==> Loses(v, moves[..|moves| - 1], most) && Affords(most, Here(v, moves[..|moves| - 1]), moves[|moves| - 1])
  }

  ghost predicate Steady(v: Setting, most: Loss, inv: Point -> bool) {
    hide Stepped;
    forall p, move, e: Event :: inv(p) && Possible(p, move) && Affords(most, p, move) && HeadIs(p, e)
                         ==> inv(Stepped(v, p, move, e))
  }

  /** The induction principle: what holds at birth, and is kept by every step, holds in every run. */
  lemma {:induction false} RunsKeep(v: Setting, moves: seq<Move>, most: Loss, inv: Point -> bool)
    requires Legal(v, moves) && Loses(v, moves, most)
    requires inv(Birth()) && Steady(v, most, inv)
    ensures inv(Here(v, moves))
  {
    hide Go, Allowed, Stepped, Possible, Affords;
    if moves == [] {
      BirthIs(v);
    } else {
      var l, move := Reached(v, moves[..|moves| - 1]), moves[|moves| - 1];
      RunsKeep(v, moves[..|moves| - 1], most, inv);
      RunsAreOrderly(v, moves[..|moves| - 1]);
      StepIs(v, l, move);
      assert inv(Stepped(v, At(l), move, HeadEvent(l)));
    }
  }

  lemma BirthIs(v: Setting)
    ensures Here(v, []) == Birth() && Legal(v, []) && forall most :: Loses(v, [], most)
  {
    hide Publications, Successor, Go;
  }

  lemma {:induction false} LosesAnything(v: Setting, moves: seq<Move>)
    ensures Loses(v, moves, AnyLoss)
  {
    hide Reached;
    if moves != [] { LosesAnything(v, moves[..|moves| - 1]); }
  }

  /** A run that loses nothing dies only between dispatches, and drops nothing. */
  lemma {:induction false} LossesCompare(v: Setting, moves: seq<Move>)
    requires Loses(v, moves, NoLoss)
    ensures Loses(v, moves, NoDrops) && Loses(v, moves, NoTears)
  {
    hide Here;
    if moves != [] { LossesCompare(v, moves[..|moves| - 1]); }
  }

  /** A point a run has reached, one more move, and the point it leads to. */
  lemma OneMore(v: Setting, moves: seq<Move>, move: Move)
    requires Legal(v, moves)
    ensures Legal(v, moves + [move]) <==> Possible(Here(v, moves), move)
    ensures Possible(Here(v, moves), move) ==>
              exists e: Event :: HeadIs(Here(v, moves), e)
                                 && Here(v, moves + [move]) == Stepped(v, Here(v, moves), move, e)
    ensures forall most :: Loses(v, moves + [move], most) <==> Loses(v, moves, most) && Affords(most, Here(v, moves), move)
  {
    hide Go, Stepped, Affords, Outside, Reconfigures;
    assert (moves + [move])[..|moves|] == moves;
    var l := Reached(v, moves);
    RunsAreOrderly(v, moves);
    PossibleIsAllowed(l, move);
    if Allowed(l, move) {
      StepIs(v, l, move);
      var e := HeadEvent(l);
      assert Here(v, moves + [move]) == Stepped(v, Here(v, moves), move, e);
    }
  }

  lemma PossibleIsAllowed(l: Life, move: Move)
    requires Orderly(l)
    ensures Possible(At(l), move) <==> Allowed(l, move)
  {
    hide Outside, Reconfigures;
    assert At(l).queue != [] <==> l.m.head < |l.m.log|;
    if l.m.head < |l.m.log| { assert At(l).queue[0] == l.m.log[l.m.head].body; }
  }

  // ---------------------------------------------------------------- what is done with, and what is still due

  /** The events no process will dispatch live any more. */
  function Done(p: Point): seq<Payload> {
    if p.replaying then Log(p) else p.past
  }

  /** The events still to be dispatched live. */
  function Due(p: Point): seq<Payload> {
    if p.replaying then [] else p.queue
  }

  /** In a run that loses nothing, only a live delivery moves anything from the one to the other. */
  lemma LosslessStep(v: Setting, p: Point, move: Move, e: Event)
    requires Possible(p, move) && Affords(NoLoss, p, move) && HeadIs(p, e)
    ensures var p' := Stepped(v, p, move, e);
            && Done(p) + Due(p) == Log(p) && Done(p') + Due(p') == Log(p')
            && match move
               case Next => Due(p) == p.queue && Done(p) == p.past && Due(p') == p'.queue && Done(p') == p'.past
               case Enter(body, _) => Done(p') == Done(p) && Due(p') == Due(p) + [body]
               case _ => Done(p') == Done(p) && Due(p') == Due(p)
  {
    hide Publications, Successor, Outside, Reconfigures;
    if move.Hear? { LogTurns(p); }
  }

  /** Replaying an entry leaves what is done and what is due as it was. */
  lemma HearingDoesNothing(v: Setting, p: Point, e: Event)
    requires p.replaying && p.queue != [] && HeadIs(p, e)
    ensures Done(Heard(v, p, e)) == Done(p) && Due(Heard(v, p, e)) == Due(p)
  {
    hide Publications, Successor;
    LogTurns(p);
  }

  /** When a process dies, what was due is done with. */
  lemma RebootingIsDying(p: Point)
    ensures Done(Rebooted(p)) == Done(p) + Due(p) && Due(Rebooted(p)) == []
  {
    assert Log(p) + [] == Log(p);
  }

  function Hearing(n: nat): seq<Move> {
    seq(n, _ => Hear)
  }

  function Dropping(n: nat): seq<Move> {
    seq(n, _ => Drop)
  }

  /** The process dies here, and its successor replays the log. */
  ghost function Crash(v: Setting, moves: seq<Move>): seq<Move> {
    moves + [Reboot] + Hearing(|Log(Here(v, moves))|)
  }

  /** `stop()`: shutdown is announced behind all that is queued, which is dropped before it; then its end is announced. */
  ghost function Halt(v: Setting, moves: seq<Move>): seq<Move> {
    moves + [Enter(OfKernel(Stopping), None)] + Dropping(|Here(v, moves).queue|) + [Next] + [Enter(OfKernel(Stopped), None)] + [Next]
  }

  /** The first k entries of the log have been replayed. */
  ghost predicate ReplayedTo(p: Point, log: seq<Payload>, k: nat) {
    k <= |log| && p.past == log[..k] && p.queue == log[k..] && p.replaying == (k < |log|)
  }

  lemma {:induction false} ReplayingTo(v: Setting, moves: seq<Move>, k: nat)
    requires Legal(v, moves) && k <= |Log(Here(v, moves))|
    ensures var run := moves + [Reboot] + Hearing(k);
            && Legal(v, run) && (forall most: Loss :: !most.NoLoss? && Loses(v, moves, most) ==> Loses(v, run, most))
            && ReplayedTo(Here(v, run), Log(Here(v, moves)), k)
  {
    hide Here, Legal, Loses, Outside, Reconfigures, Publications, Successor;
    var log := Log(Here(v, moves));
    if k == 0 {
      OneMore(v, moves, Reboot);
      assert moves + [Reboot] + Hearing(0) == moves + [Reboot];
    } else {
      var run := moves + [Reboot] + Hearing(k - 1);
      ReplayingTo(v, moves, k - 1);
      OneMore(v, run, Hear);
      assert moves + [Reboot] + Hearing(k) == run + [Hear];
    }
  }

  /** A process that dies at any point leaves its successor, once it has replayed, with an empty queue behind the whole log. */
  lemma CrashIs(v: Setting, moves: seq<Move>)
    requires Legal(v, moves)
    ensures var log, p' := Log(Here(v, moves)), Here(v, Crash(v, moves));
            && Legal(v, Crash(v, moves)) && (forall most: Loss :: !most.NoLoss? && Loses(v, moves, most) ==> Loses(v, Crash(v, moves), most))
            && p'.past == log && p'.queue == [] && !p'.replaying
  {
    hide Here, Legal, Loses, Publications, Successor;
    ReplayingTo(v, moves, |Log(Here(v, moves))|);
  }

  /** The first k events queued may be dropped. */
  predicate Droppable(p: Point, k: nat) {
    !p.replaying && k <= |p.queue| && forall i :: 0 <= i < k ==> !Lifecycle(p.queue[i])
  }

  function DroppedTo(p: Point, k: nat): Point {
    if k <= |p.queue| then p.(past := p.past + p.queue[..k], queue := p.queue[k..]) else p
  }

  lemma {:induction false} DroppingTo(v: Setting, moves: seq<Move>, k: nat)
    requires Legal(v, moves) && Droppable(Here(v, moves), k)
    ensures Legal(v, moves + Dropping(k)) && Here(v, moves + Dropping(k)) == DroppedTo(Here(v, moves), k)
  {
    hide Here, Legal, Loses, Outside, Reconfigures, Publications, Successor;
    var p := Here(v, moves);
    if k == 0 {
      assert moves + Dropping(0) == moves && p.past + p.queue[..0] == p.past && p.queue[0..] == p.queue;
    } else {
      var run := moves + Dropping(k - 1);
      DroppingTo(v, moves, k - 1);
      OneMore(v, run, Drop);
      assert moves + Dropping(k) == run + [Drop];
      assert p.queue[k - 1..][0] == p.queue[k - 1];
      assert p.past + p.queue[..k - 1] + [p.queue[k - 1]] == p.past + p.queue[..k];
    }
  }

  /** Something published from outside. */
  lemma Entering(v: Setting, moves: seq<Move>, body: Payload)
    requires Legal(v, moves) && !Here(v, moves).replaying && Outside(Here(v, moves).o, body)
    ensures Legal(v, moves + [Enter(body, None)]) && Here(v, moves + [Enter(body, None)]) == Entered(Here(v, moves), body)
  {
    hide Here, Legal, Loses, Outside, Publications, Successor;
    OneMore(v, moves, Enter(body, None));
  }

  /** All that is queued has been dispatched, and changed nothing. */
  function Announced(p: Point): Point {
    p.(past := p.past + p.queue, queue := [], ticks := p.ticks + 1)
  }

  /** Nobody listens to the announcements of shutdown. */
  lemma Announcing(v: Setting, moves: seq<Move>)
    requires Legal(v, moves) && !Here(v, moves).replaying
    requires Here(v, moves).queue == [OfKernel(Stopping)] || Here(v, moves).queue == [OfKernel(Stopped)]
    ensures Legal(v, moves + [Next]) && Here(v, moves + [Next]) == Announced(Here(v, moves))
  {
    hide Here, Legal, Loses, Publications, Successor;
    var p := Here(v, moves);
    OneMore(v, moves, Next);
    var e: Event :| HeadIs(p, e) && Here(v, moves + [Next]) == Stepped(v, p, Next, e);
    ShutdownIsIgnored(v, p.o, e, p.ticks);
    assert p.queue[1..] + [] == [];
  }

  /** A process that is stopped at any point keeps its components as they are, behind the whole log. */
  lemma HaltIs(v: Setting, moves: seq<Move>)
    requires Legal(v, moves) && !Here(v, moves).replaying && forall p <- Here(v, moves).queue :: !Lifecycle(p)
    ensures var p, p' := Here(v, moves), Here(v, Halt(v, moves));
            && Legal(v, Halt(v, moves)) && p'.o == p.o && p'.queue == [] && !p'.replaying
            && p'.past == Log(p) + [OfKernel(Stopping), OfKernel(Stopped)]
  {
    hide Here, Legal, Publications, Successor;
    var p, stopping, stopped := Here(v, moves), OfKernel(Stopping), OfKernel(Stopped);
    var run := moves + [Enter(stopping, None)];
    Entering(v, moves, stopping);
    var n := |p.queue|;
    assert forall i :: 0 <= i < n ==> (p.queue + [stopping])[i] == p.queue[i] && p.queue[i] in p.queue;
    DroppingTo(v, run, n);
    assert (p.queue + [stopping])[..n] == p.queue && (p.queue + [stopping])[n..] == [stopping];
    run := run + Dropping(n);
    Announcing(v, run);
    run := run + [Next];
    Entering(v, run, stopped);
    run := run + [Enter(stopped, None)];
    assert Here(v, run).queue == [] + [stopped] == [stopped];
    Announcing(v, run);
  }
}
