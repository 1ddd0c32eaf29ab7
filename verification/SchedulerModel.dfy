/** What the scheduler promises: a FIFO queue and timers on a logical clock. */
module SchedulerModel {
  // A callback is represented by the value `T` describing its work.

  import opened Prelude

  datatype Task<+T> = Task(id: nat, work: T)
  datatype Timer<+T> = Timer(due: int, id: nat, work: T)

  /** `timers` lists the heap in the order `heappop` yields it. */
  datatype Schedule<+T> = Schedule(queue: seq<Task<T>>, timers: seq<Timer<T>>, now: int, nextId: nat)

  function Empty<T>(): Schedule<T> {
    Schedule([], [], 0, 1)
  }

  /** The heap order: due time first, then task id. */
  predicate Before<T>(a: Timer<T>, b: Timer<T>) {
    a.due < b.due || (a.due == b.due && a.id < b.id)
  }

  function Ready<T>(t: Timer<T>): Task<T> {
    Task(t.id, t.work)
  }

  function HeapPush<T>(timers: seq<Timer<T>>, t: Timer<T>): (r: seq<Timer<T>>)
    ensures |r| == |timers| + 1
    ensures t in r && (forall x <- timers :: x in r) && forall x <- r :: x == t || x in timers
  {
    if timers == [] || Before(t, timers[0]) then [t] + timers
    else [timers[0]] + HeapPush(timers[1..], t)
  }

  function ScheduleTask<T>(s: Schedule<T>, work: T): Schedule<T> {
    s.(queue := s.queue + [Task(s.nextId, work)], nextId := s.nextId + 1)
  }

  function ScheduleAt<T>(s: Schedule<T>, due: int, work: T): Schedule<T> {
    if due <= s.now then ScheduleTask(s, work)
    else s.(timers := HeapPush(s.timers, Timer(due, s.nextId, work)), nextId := s.nextId + 1)
  }

  /** Pops every timer due at or before the clock's reading, from the top of the heap. */
  function Release<T>(s: Schedule<T>): Schedule<T>
    decreases |s.timers|
  {
    if s.timers != [] && s.timers[0].due <= s.now
    then Release(s.(timers := s.timers[1..], queue := s.queue + [Ready(s.timers[0])]))
    else s
  }

  function AdvanceTime<T>(s: Schedule<T>, now: int): Schedule<T> {
    Release(s.(now := now))
  }

  function TaskIndex<T>(queue: seq<Task<T>>, id: nat): (i: nat)
    ensures i <= |queue|
    ensures i < |queue| ==> queue[i].id == id
    ensures forall j :: 0 <= j < i ==> queue[j].id != id
  {
    if queue == [] || queue[0].id == id then 0 else 1 + TaskIndex(queue[1..], id)
  }

  function TimerIndex<T>(timers: seq<Timer<T>>, id: nat): (i: nat)
    ensures i <= |timers|
    ensures i < |timers| ==> timers[i].id == id
    ensures forall j :: 0 <= j < i ==> timers[j].id != id
  {
    if timers == [] || timers[0].id == id then 0 else 1 + TimerIndex(timers[1..], id)
  }

  function Cancel<T>(s: Schedule<T>, id: nat): (Schedule<T>, bool) {
    var i := TaskIndex(s.queue, id);
    if i < |s.queue| then (s.(queue := s.queue[..i] + s.queue[i + 1..]), true)
    else
      var j := TimerIndex(s.timers, id);
      if j < |s.timers| then (s.(timers := s.timers[..j] + s.timers[j + 1..]), true)
      else (s, false)
  }

  // ---------------------------------------------------------------- well-formed schedules

  ghost predicate HeapOrdered<T>(timers: seq<Timer<T>>) {
    forall i, j :: 0 <= i < j < |timers| ==> Before(timers[i], timers[j])
  }

  /** The heap is in order and every parked timer is strictly in the future. */
  ghost predicate Valid<T>(s: Schedule<T>) {
    && HeapOrdered(s.timers)
    && (forall t <- s.timers :: t.due > s.now && t.id < s.nextId)
  }

  lemma {:induction false} PushKeepsOrder<T>(timers: seq<Timer<T>>, t: Timer<T>)
    requires HeapOrdered(timers) && forall x <- timers :: x.id < t.id
    ensures HeapOrdered(HeapPush(timers, t))
  {
    if timers != [] && !Before(t, timers[0]) {
      PushKeepsOrder(timers[1..], t);
      var r := HeapPush(timers[1..], t);
      forall j | 0 <= j < |r| ensures Before(timers[0], r[j]) {
        assert r[j] in r;
        if r[j] != t {
          var k :| 0 <= k < |timers[1..]| && timers[1..][k] == r[j];
          assert timers[k + 1] == r[j];
        }
      }
    }
  }

  /** How many timers come due by `now`. */
  function DueCount<T>(timers: seq<Timer<T>>, now: int): (n: nat)
    ensures n <= |timers|
    ensures forall i :: 0 <= i < n ==> timers[i].due <= now
    ensures n < |timers| ==> timers[n].due > now
  {
    if timers != [] && timers[0].due <= now then 1 + DueCount(timers[1..], now) else 0
  }

  function ReadyAll<T>(timers: seq<Timer<T>>): (r: seq<Task<T>>)
    ensures |r| == |timers|
    ensures forall i :: 0 <= i < |r| ==> r[i] == Ready(timers[i])
  {
    seq(|timers|, i requires 0 <= i < |timers| => Ready(timers[i]))
  }

  lemma ReadyFirst<T>(timers: seq<Timer<T>>, n: nat)
    requires 0 < n <= |timers|
    ensures ReadyAll(timers[..n]) == [Ready(timers[0])] + ReadyAll(timers[1..][..n - 1])
  {
  }

  /** Advancing appends the timers that came due, in heap order, and leaves the others parked. */
  lemma {:induction false} AdvanceReleasesDueTimers<T>(s: Schedule<T>, now: int)
    ensures AdvanceTime(s, now).queue == s.queue + ReadyAll(s.timers[..DueCount(s.timers, now)])
    ensures AdvanceTime(s, now).timers == s.timers[DueCount(s.timers, now)..]
    ensures AdvanceTime(s, now).now == now && AdvanceTime(s, now).nextId == s.nextId
    decreases |s.timers|
  {
    var n := DueCount(s.timers, now);
    if s.timers != [] && s.timers[0].due <= now {
      var s' := s.(timers := s.timers[1..], queue := s.queue + [Ready(s.timers[0])]);
      AdvanceReleasesDueTimers(s', now);
      assert AdvanceTime(s, now) == AdvanceTime(s', now);
      hide AdvanceTime, ReadyAll;
      assert s.timers[1..][n - 1..] == s.timers[n..];
      ReadyFirst(s.timers, n);
      Associates(s.queue, [Ready(s.timers[0])], ReadyAll(s.timers[1..][..n - 1]));
    } else {
      assert ReadyAll(s.timers[..n]) == [];
    }
  }

  /** In a well-formed schedule those are exactly the timers due by then, ordered by (due time, id). */
  lemma ReleasedExactlyTheDue<T>(s: Schedule<T>, now: int)
    requires Valid(s)
    ensures var n := DueCount(s.timers, now);
            && HeapOrdered(s.timers[..n])
            && forall i :: 0 <= i < |s.timers| ==> (s.timers[i].due <= now <==> i < n)
    ensures now >= s.now ==> Valid(AdvanceTime(s, now))
  {
    var n := DueCount(s.timers, now);
    forall i | n <= i < |s.timers| ensures s.timers[i].due > now {
      if i > n { assert Before(s.timers[n], s.timers[i]); }
    }
    AdvanceReleasesDueTimers(s, now);
  }

  /** Moving the clock in two steps readies the same queue as moving it in one. */
  lemma {:induction false} AdvanceInTwoSteps<T>(s: Schedule<T>, a: int, b: int)
    requires s.now <= a <= b
    ensures AdvanceTime(AdvanceTime(s, a), b) == AdvanceTime(s, b)
    decreases |s.timers|
  {
    if s.timers != [] && s.timers[0].due <= a {
      AdvanceInTwoSteps(s.(timers := s.timers[1..], queue := s.queue + [Ready(s.timers[0])]), a, b);
    }
  }

  // ---------------------------------------------------------------- any interleaving of calls

  datatype Op<+T> = DoSchedule(work: T) | DoScheduleAt(due: int, work: T) | DoAdvance(now: int) | DoCancel(id: nat) | DoRunNext

  /** A schedule together with everything ever asked of it and done by it. */
  datatype History<+T> = History(s: Schedule<T>, asked: seq<Timer<T>>, ran: seq<Task<T>>, cancelled: seq<nat>)

  function Apply<T>(h: History<T>, op: Op<T>): History<T> {
    match op
    case DoSchedule(w) =>
      h.(s := ScheduleTask(h.s, w), asked := h.asked + [Timer(h.s.now, h.s.nextId, w)])
    case DoScheduleAt(due, w) =>
      h.(s := ScheduleAt(h.s, due, w), asked := h.asked + [Timer(due, h.s.nextId, w)])
    case DoAdvance(now) =>
      if now < h.s.now then h else h.(s := AdvanceTime(h.s, now))
    case DoCancel(id) =>
      var (s', found) := Cancel(h.s, id);
      h.(s := s', cancelled := if found then h.cancelled + [id] else h.cancelled)
    case DoRunNext =>
      if h.s.queue == [] then h
      else h.(s := h.s.(queue := h.s.queue[1..]), ran := h.ran + [h.s.queue[0]])
  }

  function Run<T>(ops: seq<Op<T>>): History<T> {
    if ops == [] then History(Empty(), [], [], [])
    else Apply(Run(ops[..|ops| - 1]), ops[|ops| - 1])
  }

  function TaskIds<T>(q: seq<Task<T>>): seq<nat> {
    seq(|q|, i requires 0 <= i < |q| => q[i].id)
  }

  function TimerIds<T>(q: seq<Timer<T>>): seq<nat> {
    seq(|q|, i requires 0 <= i < |q| => q[i].id)
  }

  /** Where each task is: ready, parked, run or cancelled. */
  function Places<T>(h: History<T>): multiset<nat> {
    multiset(TaskIds(h.s.queue)) + multiset(TimerIds(h.s.timers)) + multiset(TaskIds(h.ran)) + multiset(h.cancelled)
  }

  /** The task is number `t.id` in the order asked, with the work asked, and its time has come. */
  ghost predicate WasDue<T>(h: History<T>, t: Task<T>) {
    0 < t.id <= |h.asked| && h.asked[t.id - 1].work == t.work && h.asked[t.id - 1].due <= h.s.now
  }

  ghost predicate Genuine<T>(h: History<T>) {
    && (forall t <- h.s.queue :: WasDue(h, t))
    && (forall t <- h.ran :: WasDue(h, t))
    && (forall t <- h.s.timers :: 0 < t.id <= |h.asked| && h.asked[t.id - 1] == t)
  }

  /**
   The simple specification: nothing becomes ready or runs before its time, with the work it was asked
   with; and every task ever asked for is in exactly one of the four places, once, and no other id is.
   */
  ghost predicate MeetsSpecification<T>(h: History<T>) {
    && Valid(h.s)
    && h.s.nextId == |h.asked| + 1
    && Genuine(h)
    && (forall id: nat :: Places(h)[id] == if 0 < id <= |h.asked| then 1 else 0)
  }

  /** Whatever was genuine stays so as requests accumulate and the clock moves on. */
  lemma GenuineKept<T>(h: History<T>, h': History<T>)
    requires Genuine(h) && h.asked <= h'.asked && h.s.now <= h'.s.now
    requires forall q <- h'.s.queue :: q in h.s.queue || WasDue(h', q)
    requires forall r <- h'.ran :: r in h.ran || r in h.s.queue
    requires forall t <- h'.s.timers :: t in h.s.timers || (0 < t.id <= |h'.asked| && h'.asked[t.id - 1] == t)
    ensures Genuine(h')
  {
    forall q | q in h.s.queue || q in h.ran ensures WasDue(h', q) {
      assert WasDue(h, q);
    }
    forall t | t in h.s.timers ensures 0 < t.id <= |h'.asked| && h'.asked[t.id - 1] == t {
      assert h.asked[t.id - 1] == h'.asked[t.id - 1];
    }
  }

  lemma ScheduleKeeps<T>(h: History<T>, due: int, work: T)
    requires MeetsSpecification(h)
    ensures MeetsSpecification(Apply(h, DoScheduleAt(due, work)))
  {
    var t := Timer(due, h.s.nextId, work);
    var h' := Apply(h, DoScheduleAt(due, work));
    assert t == h'.asked[t.id - 1];
    if due <= h.s.now {
      assert TaskIds(h'.s.queue) == TaskIds(h.s.queue) + [t.id];
      assert WasDue(h', Task(t.id, work));
    } else {
      PushKeepsOrder(h.s.timers, t);
      PushIds(h.s.timers, t);
    }
    GenuineKept(h, h');
    PlacesGain(h, h', t.id);
  }

  lemma PlacesGain<T>(h: History<T>, h': History<T>, id: nat)
    requires MeetsSpecification(h) && |h'.asked| == |h.asked| + 1 && id == |h.asked| + 1
    requires Places(h') == Places(h) + multiset{id}
    ensures forall x: nat :: Places(h')[x] == if 0 < x <= |h'.asked| then 1 else 0
  {
  }

  lemma {:induction false} PushIds<T>(timers: seq<Timer<T>>, t: Timer<T>)
    ensures multiset(TimerIds(HeapPush(timers, t))) == multiset(TimerIds(timers)) + multiset{t.id}
  {
    if timers == [] || Before(t, timers[0]) {
      assert TimerIds(HeapPush(timers, t)) == [t.id] + TimerIds(timers);
    } else {
      PushIds(timers[1..], t);
      assert TimerIds(HeapPush(timers, t)) == [timers[0].id] + TimerIds(HeapPush(timers[1..], t));
      assert TimerIds(timers) == [timers[0].id] + TimerIds(timers[1..]);
    }
  }

  /** What an advance readies was due, and what it leaves parked was parked. */
  lemma AdvanceStaysGenuine<T>(h: History<T>, now: int)
    requires Valid(h.s) && Genuine(h) && h.s.now <= now
    ensures Genuine(Apply(h, DoAdvance(now)))
  {
    hide HeapOrdered, WasDue, Genuine, DueCount;
    var h' := Apply(h, DoAdvance(now));
    AdvanceReleasesDueTimers(h.s, now);
    ReleasedExactlyTheDue(h.s, now);
    forall q | q in h'.s.queue ensures q in h.s.queue || WasDue(h', q) {
      if q !in h.s.queue {
        var k: nat :| k < DueCount(h.s.timers, now) && q == Ready(h.s.timers[k]);
        ReadiedWasDue(h, h', k);
      }
    }
    GenuineKept(h, h');
  }

  lemma ReadiedWasDue<T>(h: History<T>, h': History<T>, k: nat)
    requires Genuine(h) && h'.asked == h.asked && k < |h.s.timers| && h.s.timers[k].due <= h'.s.now
    ensures WasDue(h', Ready(h.s.timers[k]))
  {
    assert h.s.timers[k] in h.s.timers;
  }

  lemma AdvanceKeeps<T>(h: History<T>, now: int)
    requires MeetsSpecification(h) && h.s.now <= now
    ensures MeetsSpecification(Apply(h, DoAdvance(now)))
  {
    hide Genuine;
    AdvanceReleasesDueTimers(h.s, now);
    ReleasedExactlyTheDue(h.s, now);
    AdvancePlaces(h, now);
    AdvanceStaysGenuine(h, now);
  }

  lemma TaskIdsConcat<T>(a: seq<Task<T>>, b: seq<Task<T>>)
    ensures TaskIds(a + b) == TaskIds(a) + TaskIds(b)
  {
  }

  lemma TimerIdsConcat<T>(a: seq<Timer<T>>, b: seq<Timer<T>>)
    ensures TimerIds(a + b) == TimerIds(a) + TimerIds(b)
  {
  }

  /** Readying timers moves their ids from the heap to the queue. */
  lemma IdsMove<T>(queue: seq<Task<T>>, due: seq<Timer<T>>, rest: seq<Timer<T>>)
    ensures multiset(TaskIds(queue + ReadyAll(due))) + multiset(TimerIds(rest)) == multiset(TaskIds(queue)) + multiset(TimerIds(due + rest))
  {
    TaskIdsConcat(queue, ReadyAll(due));
    assert TaskIds(ReadyAll(due)) == TimerIds(due);
    TimerIdsConcat(due, rest);
  }

  lemma AdvancePlaces<T>(h: History<T>, now: int)
    requires h.s.now <= now
    ensures Places(Apply(h, DoAdvance(now))) == Places(h)
  {
    hide TaskIds, TimerIds, ReadyAll, DueCount;
    var due, rest := h.s.timers[..DueCount(h.s.timers, now)], h.s.timers[DueCount(h.s.timers, now)..];
    AdvanceReleasesDueTimers(h.s, now);
    IdsMove(h.s.queue, due, rest);
    assert due + rest == h.s.timers;
  }

  lemma CancelTaskPlaces<T>(q: seq<Task<T>>, i: nat)
    requires i < |q|
    ensures multiset(TaskIds(q)) == multiset(TaskIds(q[..i] + q[i + 1..])) + multiset{q[i].id}
  {
    assert q == q[..i] + ([q[i]] + q[i + 1..]);
    TaskIdsConcat(q[..i], [q[i]] + q[i + 1..]);
    TaskIdsConcat([q[i]], q[i + 1..]);
    TaskIdsConcat(q[..i], q[i + 1..]);
  }

  lemma CancelTimerPlaces<T>(q: seq<Timer<T>>, i: nat)
    requires i < |q|
    ensures multiset(TimerIds(q)) == multiset(TimerIds(q[..i] + q[i + 1..])) + multiset{q[i].id}
  {
    assert q == q[..i] + ([q[i]] + q[i + 1..]);
    TimerIdsConcat(q[..i], [q[i]] + q[i + 1..]);
    TimerIdsConcat([q[i]], q[i + 1..]);
    TimerIdsConcat(q[..i], q[i + 1..]);
  }

  lemma MovedBetween(q: multiset<nat>, q': multiset<nat>, t: multiset<nat>, r: multiset<nat>, c: multiset<nat>, id: nat)
    requires q == q' + multiset{id}
    ensures q' + t + r + (c + multiset{id}) == q + t + r + c
    ensures t + q' + r + (c + multiset{id}) == t + q + r + c
  {
  }

  lemma CancelPlaces<T>(h: History<T>, id: nat)
    ensures Places(Apply(h, DoCancel(id))) == Places(h)
  {
    var h' := Apply(h, DoCancel(id));
    var i, j := TaskIndex(h.s.queue, id), TimerIndex(h.s.timers, id);
    var q, t, r, c := multiset(TaskIds(h.s.queue)), multiset(TimerIds(h.s.timers)), multiset(TaskIds(h.ran)), multiset(h.cancelled);
    if i < |h.s.queue| {
      assert h' == h.(s := h.s.(queue := h.s.queue[..i] + h.s.queue[i + 1..]), cancelled := h.cancelled + [id]);
      CancelTaskPlaces(h.s.queue, i);
      MovedBetween(q, multiset(TaskIds(h'.s.queue)), t, r, c, id);
    } else if j < |h.s.timers| {
      assert h' == h.(s := h.s.(timers := h.s.timers[..j] + h.s.timers[j + 1..]), cancelled := h.cancelled + [id]);
      CancelTimerPlaces(h.s.timers, j);
      MovedBetween(t, multiset(TimerIds(h'.s.timers)), q, r, c, id);
    }
  }

  lemma RemovedOne<U>(q: seq<U>, i: nat)
    requires i < |q|
    ensures forall u :: u in q[..i] + q[i + 1..] ==> u in q
  {
  }

  /** Cancelling only ever takes away. */
  lemma CancelLeaves<T>(h: History<T>, id: nat)
    requires Valid(h.s)
    ensures var h' := Apply(h, DoCancel(id));
            && Valid(h'.s) && h'.asked == h.asked && h'.ran == h.ran && h'.s.now == h.s.now && h'.s.nextId == h.s.nextId
            && (forall t :: t in h'.s.queue ==> t in h.s.queue)
            && (forall t :: t in h'.s.timers ==> t in h.s.timers)
  {
    var i, j := TaskIndex(h.s.queue, id), TimerIndex(h.s.timers, id);
    if i < |h.s.queue| {
      RemovedOne(h.s.queue, i);
    } else if j < |h.s.timers| {
      RemovedOne(h.s.timers, j);
    }
  }

  lemma CancelKeeps<T>(h: History<T>, id: nat)
    requires MeetsSpecification(h)
    ensures MeetsSpecification(Apply(h, DoCancel(id)))
  {
    CancelPlaces(h, id);
    CancelLeaves(h, id);
    hide Apply, Places;
    GenuineKept(h, Apply(h, DoCancel(id)));
  }

  lemma RunNextKeeps<T>(h: History<T>)
    requires MeetsSpecification(h) && h.s.queue != []
    ensures MeetsSpecification(Apply(h, DoRunNext))
  {
    var h' := Apply(h, DoRunNext);
    assert TaskIds(h.s.queue) == [h.s.queue[0].id] + TaskIds(h'.s.queue);
    assert TaskIds(h'.ran) == TaskIds(h.ran) + [h.s.queue[0].id];
    assert Places(h') == Places(h);
    GenuineKept(h, h');
  }

  /** Over any interleaving of calls the scheduler meets its specification. */
  lemma {:induction false} AnyInterleavingMeetsSpecification<T>(ops: seq<Op<T>>)
    ensures MeetsSpecification(Run(ops))
  {
    if ops == [] {
    } else {
      var h, op := Run(ops[..|ops| - 1]), ops[|ops| - 1];
      AnyInterleavingMeetsSpecification(ops[..|ops| - 1]);
      match op
      case DoSchedule(w) => ScheduleKeeps(h, h.s.now, w);
      case DoScheduleAt(due, w) => ScheduleKeeps(h, due, w);
      case DoAdvance(now) => if h.s.now <= now { AdvanceKeeps(h, now); }
      case DoCancel(id) => CancelKeeps(h, id);
      case DoRunNext => if h.s.queue != [] { RunNextKeeps(h); }
    }
  }

  /** A cancelled task never runs, and no task runs twice, however long the run. */
  lemma RunsAtMostOnceAndNeverAfterCancel<T>(ops: seq<Op<T>>, i: nat, j: nat)
    requires i < j < |Run(ops).ran|
    ensures Run(ops).ran[i].id != Run(ops).ran[j].id
    ensures Run(ops).ran[i].id !in Run(ops).cancelled
  {
    AnyInterleavingMeetsSpecification(ops);
    var h := Run(ops);
    var a := TaskIds(h.ran);
    assert a == a[..i] + [a[i]] + a[i + 1..j] + [a[j]] + a[j + 1..];
    assert multiset(a)[a[i]] + multiset(h.cancelled)[a[i]] <= Places(h)[a[i]] <= 1;
    assert multiset(a)[a[i]] >= if a[i] == a[j] then 2 else 1;
    assert a[i] !in multiset(h.cancelled);
  }
}
