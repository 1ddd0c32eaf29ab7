/** The kernel object: an event log, a scheduler and the lifecycle fields, updated in place, held to KernelModel. */
module KernelObject {
  // A queued callback `lambda: self._dispatch_scheduled(event)` is the event itself.

  import opened Prelude
  import opened Events
  import opened SchedulerModel
  import opened SchedulerObject
  import opened Persistence
  import KM = KernelModel

  function Works(queue: seq<Task<Event>>): seq<Event> {
    seq(|queue|, i requires 0 <= i < |queue| => queue[i].work)
  }

  function Contents(entries: seq<(nat, Event)>): seq<Event> {
    seq(|entries|, i requires 0 <= i < |entries| => entries[i].1)
  }

  lemma WorksStep(queue: seq<Task<Event>>, t: Task<Event>)
    ensures Works(queue + [t]) == Works(queue) + [t.work]
    ensures queue != [] ==> Works(queue)[0] == queue[0].work && Works(queue[1..]) == Works(queue)[1..]
  {
  }

  lemma ContentsStep(entries: seq<(nat, Event)>, n: nat, e: Event)
    ensures Contents(entries + [(n, e)]) == Contents(entries) + [e]
    ensures forall k :: 0 <= k <= |entries| ==> Contents(entries[k..]) == Contents(entries)[k..]
  {
  }

  lemma ContentsTail(entries: seq<(nat, Event)>, sequence: nat)
    ensures |Contents(entries)| == |entries|
    ensures sequence <= |entries| ==> Contents(entries[sequence..]) == Contents(entries)[sequence..]
    ensures Contents([]) == []
  {
  }

  class Kernel<S(!new), N(!new)> {
    const wiring: KM.Wiring<S, N>
    const initial: S
    const eventLog: EventLog<Event>
    const scheduler: Scheduler<Event>
    var subscribers: S
    var saved: Option<(nat, N)>
    var pendingTerminalLifecycle: int
    var running: bool
    var started: bool
    var dispatching: bool
    var stopping: bool
    var replaying: bool
    var replayed: bool
    var activeCorrelation: Option<Correlation>
    var ticks: nat
    ghost var log: seq<Event>
    ghost var head: nat
    ghost var marks: seq<KM.Mark>
    ghost var delivered: seq<Event>
    ghost var lost: seq<Event>

    /** The log file is sound, and the queue is the log's unprocessed suffix. */
    ghost predicate Consistent()
      reads this, eventLog, scheduler
    {
      && eventLog.Valid()
      && log == Contents(eventLog.entries)
      && head <= |log| == |marks|
      && Works(scheduler.queue) == log[head..]
    }

    ghost predicate Valid()
      reads this, eventLog, scheduler
    {
      Consistent() && !dispatching && !replaying
    }

    ghost function Machine(): KM.Machine<S>
      reads this
    {
      KM.Machine(log, marks, head, activeCorrelation, subscribers, ticks)
    }

    ghost function State(): KM.KState<S, N>
      reads this
    {
      KM.KState(Machine(), pendingTerminalLifecycle, running, started, stopping, replayed, delivered, lost, saved)
    }

    /** `deliveries` counts what all processes so far have delivered: a later process mints its ids afresh. */
    constructor (wiring: KM.Wiring<S, N>, initial: S, eventLog: EventLog<Event>, saved: Option<(nat, N)>, deliveries: nat)
      requires eventLog.Valid()
      ensures Valid() && fresh(scheduler) && this.eventLog == eventLog && this.wiring == wiring && this.initial == initial
      ensures State() == KM.Boot(Contents(eventLog.entries), saved, initial, deliveries)
    {
      this.wiring, this.initial, this.eventLog, this.saved := wiring, initial, eventLog, saved;
      scheduler := new Scheduler();
      subscribers := initial;
      pendingTerminalLifecycle, activeCorrelation, ticks := 0, None, deliveries;
      running, started, dispatching, stopping, replaying, replayed := false, false, false, false, false, false;
      var n := |eventLog.entries|;
      log, head := Contents(eventLog.entries), n;
      marks := seq(n, i requires 0 <= i < n => KM.Mark(true, i));
      delivered, lost := [], [];
    }

    /** Appends an event to the log and schedules its dispatch. */
    method LogAndSchedule(event: Event, ghost mark: KM.Mark)
      requires Consistent()
      modifies this`log, this`marks, eventLog, scheduler
      ensures Consistent() && log == old(log) + [event] && marks == old(marks) + [mark]
    {
      ghost var entries, queue := eventLog.entries, scheduler.queue;
      var sequence := eventLog.Append(event);
      var taskId := scheduler.Enqueue(event);
      log, marks := log + [event], marks + [mark];
      ContentsStep(entries, sequence, event);
      WorksStep(queue, Task(taskId, event));
    }

    /** The part of `publish` before it may drain the queue. */
    method Accept(body: Payload, supplied: Option<Correlation>)
      requires Consistent() && !replaying
      modifies this`log, this`marks, this`activeCorrelation, this`pendingTerminalLifecycle, eventLog, scheduler
      ensures Consistent()
      ensures Machine() == KM.Accept(wiring, old(Machine()), body, supplied, dispatching)
      ensures pendingTerminalLifecycle == old(pendingTerminalLifecycle) + KM.TerminalCount([body])
    {
      ghost var mark := KM.Mark(supplied.Some?, KM.StretchOf(Machine(), dispatching));
      var position := |eventLog.entries|;
      assert position == |log|;
      var id := if supplied.Some? then supplied.value
                else if activeCorrelation.Some? then activeCorrelation.value else Minting(position);
      if activeCorrelation.None? {
        activeCorrelation := Some(id);
      }
      LogAndSchedule(Event(body, id, wiring.clock(position)), mark);
      if Terminal(body) {
        pendingTerminalLifecycle := pendingTerminalLifecycle + 1;
      }
    }

    /** `dispatch`, nested publications included; during replay those are ignored. */
    method Dispatch(event: Event)
      requires Consistent() && (dispatching || replaying)
      modifies this`log, this`marks, this`activeCorrelation, this`pendingTerminalLifecycle, this`subscribers, this`ticks, eventLog, scheduler
      ensures Consistent()
      ensures var r := wiring.handler(old(subscribers), event, old(ticks));
              var m := old(Machine()).(state := r.state, ticks := old(ticks) + 1);
              && Machine() == (if replaying then m else KM.AcceptAll(wiring, m, r.published))
              && pendingTerminalLifecycle == old(pendingTerminalLifecycle) + (if replaying then 0 else KM.TerminalCount(r.published))
      ensures replaying ==> eventLog.entries == old(eventLog.entries) && scheduler.queue == old(scheduler.queue)
    {
      var reaction := wiring.handler(subscribers, event, ticks);
      subscribers := reaction.state;
      ticks := ticks + 1;
      if replaying {
        return;
      }
      ghost var m, before := Machine(), pendingTerminalLifecycle;
      var published := reaction.published;
      var i := 0;
      while i < |published|
        invariant 0 <= i <= |published|
        invariant Consistent() && dispatching && !replaying
        invariant KM.AcceptAll(wiring, Machine(), published[i..]) == KM.AcceptAll(wiring, m, published)
        invariant pendingTerminalLifecycle + KM.TerminalCount(published[i..]) == before + KM.TerminalCount(published)
      {
        assert published[i..][1..] == published[i + 1..] && published[i..][0] == published[i];
        Accept(published[i], None);
        i := i + 1;
      }
      assert published[i..] == [];
    }

    /** Takes the next scheduled event off the queue. */
    method TakeNext() returns (event: Event)
      requires Consistent() && head < |log|
      modifies this`head, scheduler
      ensures Consistent() && head == old(head) + 1 && event == log[old(head)]
    {
      ghost var queue := scheduler.queue;
      assert |Works(queue)| == |log| - head;
      var task := scheduler.RunNext();
      WorksStep(queue, task.value);
      event := task.value.work;
      head := head + 1;
    }

    method SettleCorrelation()
      requires Consistent()
      modifies this`activeCorrelation
      ensures Consistent() && Machine() == KM.Settle(old(Machine()))
    {
      assert |Works(scheduler.queue)| == |log| - head;
      if scheduler.PendingCount() == 0 {
        activeCorrelation := None;
      }
    }

    /** Hands an event just taken off the queue to the subscribers. */
    method DispatchTaken(event: Event)
      requires Valid()
      modifies this`log, this`marks, this`activeCorrelation, this`pendingTerminalLifecycle, this`subscribers, this`ticks,
               this`dispatching, eventLog, scheduler
      ensures Valid()
      ensures var r := wiring.handler(old(subscribers), event, old(ticks));
              && Machine() == KM.Settle(KM.AcceptAll(wiring, old(Machine()).(state := r.state, ticks := old(ticks) + 1), r.published))
              && pendingTerminalLifecycle == old(pendingTerminalLifecycle) + KM.TerminalCount(r.published)
    {
      dispatching := true;
      Dispatch(event);
      dispatching := false;
      SettleCorrelation();
    }

    /** Takes the next event and settles its share of the terminal-event counter. */
    method BeginNext() returns (event: Event)
      requires Valid() && head < |log|
      modifies this`head, this`pendingTerminalLifecycle, scheduler
      ensures Valid() && event == log[old(head)]
      ensures Machine() == old(Machine()).(head := old(head) + 1)
      ensures pendingTerminalLifecycle == old(pendingTerminalLifecycle) - KM.TerminalCount([event.body])
    {
      event := TakeNext();
      if Terminal(event.body) {
        pendingTerminalLifecycle := pendingTerminalLifecycle - 1;
      }
      KM.OneTerminal(event.body);
    }

    method DropNext()
      requires Valid() && head < |log| && stopping && !Lifecycle(log[head].body)
      modifies this`head, this`activeCorrelation, this`pendingTerminalLifecycle, this`lost, scheduler
      ensures Valid() && State() == KM.Process(wiring, old(State()))
    {
      var event := BeginNext();
      lost := lost + [event];
      SettleCorrelation();
    }

    method DeliverNext()
      requires Valid() && head < |log| && !(stopping && !Lifecycle(log[head].body))
      modifies this`log, this`marks, this`head, this`activeCorrelation, this`pendingTerminalLifecycle, this`subscribers, this`ticks,
               this`dispatching, this`delivered, eventLog, scheduler
      ensures Valid() && State() == KM.Process(wiring, old(State()))
    {
      hide KM.Process, KM.Settle, KM.AcceptAll, KM.TerminalCount, Works, Contents;
      ghost var k := State();
      var event := BeginNext();
      ghost var taken, left := Machine(), pendingTerminalLifecycle;
      DispatchTaken(event);
      delivered := delivered + [event];
      KM.DeliveryIs(wiring, k, taken, left, Machine(), pendingTerminalLifecycle);
    }

    /** `_dispatch_scheduled` for the event the scheduler hands over next. */
    method ProcessNext()
      requires Valid() && head < |log|
      modifies this`log, this`marks, this`head, this`activeCorrelation, this`pendingTerminalLifecycle, this`subscribers, this`ticks,
               this`dispatching, this`delivered, this`lost, eventLog, scheduler
      ensures Valid() && State() == KM.Process(wiring, old(State()))
    {
      var event := PeekNext();
      if stopping && !Lifecycle(event.body) {
        DropNext();
      } else {
        DeliverNext();
      }
    }

    function PeekNext(): Event
      requires Consistent() && head < |log|
      reads this, eventLog, scheduler
      ensures PeekNext() == log[head]
    {
      assert |Works(scheduler.queue)| == |log| - head && Works(scheduler.queue)[0] == log[head];
      scheduler.queue[0].work
    }

    method RunUntilIdle()
      requires Valid() && KM.Ranked(wiring)
      modifies this`log, this`marks, this`head, this`activeCorrelation, this`pendingTerminalLifecycle, this`subscribers, this`ticks,
               this`dispatching, this`delivered, this`lost, eventLog, scheduler
      ensures Valid() && State() == KM.Drain(wiring, old(State()))
    {
      while HasWork() && (!started || running || pendingTerminalLifecycle > 0)
        invariant Valid()
        invariant KM.Drain(wiring, State()) == KM.Drain(wiring, old(State()))
        decreases KM.Top(KM.Queue(Machine())),
                  KM.AtTop(KM.Queue(Machine()), KM.Top(KM.Queue(Machine()))),
                  KM.FirstAtTop(KM.Queue(Machine()), KM.Top(KM.Queue(Machine())))
      {
        KM.ProcessLowersMeasure(wiring, State());
        ProcessNext();
      }
    }

    predicate HasWork()
      requires Consistent()
      reads this, eventLog, scheduler
      ensures HasWork() <==> head < |log|
    {
      assert |Works(scheduler.queue)| == |log| - head;
      scheduler.PendingCount() > 0
    }

    method Enter(body: Payload, supplied: Option<Correlation>)
      requires Valid()
      modifies this`log, this`marks, this`activeCorrelation, this`pendingTerminalLifecycle, eventLog, scheduler
      ensures Valid() && State() == KM.Enter(wiring, old(State()), body, supplied)
    {
      Accept(body, supplied);
    }

    method Publish(body: Payload, supplied: Option<Correlation>)
      requires Valid() && KM.Ranked(wiring)
      modifies this`log, this`marks, this`head, this`activeCorrelation, this`pendingTerminalLifecycle, this`subscribers, this`ticks,
               this`dispatching, this`delivered, this`lost, eventLog, scheduler
      ensures Valid() && State() == KM.Publish(wiring, old(State()), body, supplied)
    {
      Enter(body, supplied);
      if !started || Lifecycle(body) {
        RunUntilIdle();
      }
    }

    method ReadTail(sequence: int) returns (tail: seq<(nat, Event)>)
      requires Consistent() && sequence >= 1
      ensures Contents(tail) == if sequence - 1 <= |log| then log[sequence - 1..] else []
      ensures |Contents(tail)| == |tail|
    {
      tail := eventLog.ReadFrom(sequence);
      ContentsTail(eventLog.entries, sequence - 1);
    }

    /** Refuses (the source raises) once the kernel has started or has already replayed. */
    method Replay() returns (refused: bool)
      requires Valid()
      modifies this`log, this`marks, this`activeCorrelation, this`pendingTerminalLifecycle, this`subscribers, this`ticks,
               this`replaying, this`replayed, this`delivered, eventLog, scheduler
      ensures Valid() && State() == KM.Replay(wiring, old(State())) && eventLog.entries == old(eventLog.entries)
      ensures refused == (old(started) || old(replayed))
    {
      hide KM.Replay, Works, Contents;
      if started || replayed {
        KM.ReplayRefused(wiring, State());
        return true;
      }
      refused := false;
      replaying := true;
      ghost var tail := ReplayHistory();
      delivered := delivered + tail;
      replaying := false;
      replayed := true;
    }

    /** The latest snapshot, then the rest of the log. */
    method ReplayHistory() returns (ghost replayedEvents: seq<Event>)
      requires Consistent() && replaying && !started && !replayed
      modifies this`log, this`marks, this`activeCorrelation, this`pendingTerminalLifecycle, this`subscribers, this`ticks, eventLog, scheduler
      ensures Consistent() && eventLog.entries == old(eventLog.entries) && pendingTerminalLifecycle == old(pendingTerminalLifecycle)
      ensures KM.Replay(wiring, old(State())) == old(State()).(m := Machine(), replayed := true, delivered := old(delivered) + replayedEvents)
    {
      hide KM.Replay, KM.Restored, KM.Fold, KM.AcceptAll, KM.Accept, Works, Contents;
      ghost var k := State();
      var startSequence := RestoreLatestSnapshot();
      var tail := ReadTail(startSequence);
      ghost var restored := subscribers;
      RedispatchAll(tail);
      replayedEvents := Contents(tail);
      KM.ReplayIs(wiring, k, restored, replayedEvents, Machine());
    }

    method RestoreLatestSnapshot() returns (startSequence: int)
      requires Consistent()
      modifies this`subscribers
      ensures Consistent() && (subscribers, startSequence - 1) == KM.Restored(wiring, old(State()))
    {
      startSequence := 1;
      if saved.Some? {
        subscribers := wiring.restore(subscribers, saved.value.1);
        startSequence := saved.value.0 + 1;
      }
    }

    /** The loop of `replay`: every event once, in order, with what handlers publish ignored. */
    method RedispatchAll(tail: seq<(nat, Event)>)
      requires Consistent() && replaying
      modifies this`log, this`marks, this`activeCorrelation, this`pendingTerminalLifecycle, this`subscribers, this`ticks, eventLog, scheduler
      ensures Consistent() && eventLog.entries == old(eventLog.entries) && pendingTerminalLifecycle == old(pendingTerminalLifecycle)
      ensures Machine() == old(Machine()).(state := KM.Fold(wiring, old(subscribers), Contents(tail), old(ticks)), ticks := old(ticks) + |tail|)
    {
      ghost var m, all := Machine(), Contents(tail);
      var i := 0;
      while i < |tail|
        invariant 0 <= i <= |tail| && Consistent() && ticks == m.ticks + i
        invariant KM.Fold(wiring, subscribers, all[i..], ticks) == KM.Fold(wiring, m.state, all, m.ticks)
        invariant Machine() == m.(state := subscribers, ticks := ticks)
        invariant eventLog.entries == old(eventLog.entries) && pendingTerminalLifecycle == old(pendingTerminalLifecycle)
      {
        assert all[i..][0] == tail[i].1 && all[i..][1..] == all[i + 1..];
        Dispatch(tail[i].1);
        i := i + 1;
      }
    }

    method ReplayOnce()
      requires Valid()
      modifies this`log, this`marks, this`activeCorrelation, this`pendingTerminalLifecycle, this`subscribers, this`ticks,
               this`replaying, this`replayed, this`delivered, this`stopping, eventLog, scheduler
      ensures Valid() && State() == (if old(replayed) then old(State()) else KM.Replay(wiring, old(State()))).(stopping := false)
    {
      if !replayed {
        var _ := Replay();
      }
      stopping := false;
    }

    method MarkRunning()
      requires Valid()
      modifies this`running, this`started
      ensures Valid() && State() == old(State()).(running := true, started := true)
    {
      running := true;
      started := true;
    }

    method Start()
      requires Valid() && KM.Ranked(wiring)
      modifies this, eventLog, scheduler
      ensures Valid() && State() == KM.Start(wiring, old(State()))
    {
      if running {
        return;
      }
      ReplayOnce();
      Publish(OfKernel(Starting), None);
      MarkRunning();
      Publish(OfKernel(Started), None);
    }

    method MarkStopping(now: bool)
      requires Valid()
      modifies this`stopping
      ensures Valid() && State() == old(State()).(stopping := now)
    {
      stopping := now;
    }

    method MarkHalted()
      requires Valid()
      modifies this`running
      ensures Valid() && State() == old(State()).(running := false)
    {
      running := false;
    }

    method Stop()
      requires Valid() && KM.Ranked(wiring)
      modifies this, eventLog, scheduler
      ensures Valid() && State() == KM.Stop(wiring, old(State()))
    {
      if !running {
        return;
      }
      MarkStopping(true);
      Publish(OfKernel(Stopping), None);
      MarkHalted();
      Publish(OfKernel(Stopped), None);
      MarkStopping(false);
    }

    method CreateSnapshot() returns (sequence: nat)
      requires Valid()
      modifies this
      ensures Valid() && State() == KM.CreateSnapshot(wiring, old(State())) && sequence == |eventLog.entries|
    {
      sequence := eventLog.LatestSequence();
      saved := Some((sequence, wiring.capture(subscribers)));
    }
  }
}
