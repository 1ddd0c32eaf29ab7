/** The scheduler object itself: fields updated in place, each method held to SchedulerModel. */
module SchedulerObject {
  import opened Prelude
  import opened SchedulerModel

  class Scheduler<T> {
    var queue: seq<Task<T>>
    var nextTaskId: nat
    var now: int
    var timers: seq<Timer<T>>

    ghost function Contents(): Schedule<T>
      reads this
    {
      Schedule(queue, timers, now, nextTaskId)
    }

    constructor ()
      ensures Contents() == Empty()
    {
      queue, nextTaskId, now, timers := [], 1, 0, [];
    }

    method Enqueue(work: T) returns (taskId: nat)
      modifies this
      ensures Contents() == ScheduleTask(old(Contents()), work) && taskId == old(nextTaskId)
    {
      taskId := nextTaskId;
      nextTaskId := nextTaskId + 1;
      queue := queue + [Task(taskId, work)];
    }

    method EnqueueAt(dueTime: int, work: T) returns (taskId: nat)
      modifies this
      ensures Contents() == ScheduleAt(old(Contents()), dueTime, work) && taskId == old(nextTaskId)
    {
      taskId := nextTaskId;
      nextTaskId := nextTaskId + 1;
      if dueTime <= now {
        queue := queue + [Task(taskId, work)];
      } else {
        timers := HeapPush(timers, Timer(dueTime, taskId, work));
      }
    }

    /** Refuses to move the clock backwards, otherwise releases every timer that has come due. */
    method Advance(to: int) returns (refused: bool)
      modifies this
      ensures refused == (to < old(now))
      ensures Contents() == if refused then old(Contents()) else AdvanceTime(old(Contents()), to)
    {
      if to < now {
        return true;
      }
      refused := false;
      now := to;
      while timers != [] && timers[0].due <= now
        invariant now == to
        invariant AdvanceTime(old(Contents()), to) == Release(Contents())
        decreases |timers|
      {
        queue := queue + [Ready(timers[0])];
        timers := timers[1..];
      }
    }

    method CancelTask(taskId: nat) returns (found: bool)
      modifies this
      ensures (Contents(), found) == Cancel(old(Contents()), taskId)
    {
      var index := 0;
      while index < |queue|
        invariant index <= |queue| && Contents() == old(Contents())
        invariant forall j :: 0 <= j < index ==> queue[j].id != taskId
      {
        if queue[index].id == taskId {
          queue := queue[..index] + queue[index + 1..];
          return true;
        }
        index := index + 1;
      }
      index := 0;
      while index < |timers|
        invariant index <= |timers| && Contents() == old(Contents())
        invariant forall j :: 0 <= j < index ==> timers[j].id != taskId
      {
        if timers[index].id == taskId {
          timers := timers[..index] + timers[index + 1..];
          return true;
        }
        index := index + 1;
      }
      found := false;
    }

    /** Takes the next ready task, if any; the caller runs its callback. */
    method RunNext() returns (task: Option<Task<T>>)
      modifies this
      ensures old(queue) == [] ==> task.None? && Contents() == old(Contents())
      ensures old(queue) != [] ==> task == Some(old(queue)[0]) && Contents() == old(Contents()).(queue := old(queue)[1..])
    {
      if queue == [] {
        return None;
      }
      task := Some(queue[0]);
      queue := queue[1..];
    }

    function PendingCount(): nat
      reads this
    {
      |queue|
    }

    /** The earliest parked timer's due time: no parked timer comes due before it. */
    method NextDueTime() returns (due: Option<int>)
      requires Valid(Contents())
      ensures due.None? <==> timers == []
      ensures due.Some? ==> (exists t <- timers :: t.due == due.value) && forall t <- timers :: due.value <= t.due
    {
      if timers == [] {
        return None;
      }
      due := Some(timers[0].due);
      assert timers[0] in timers;
      forall t | t in timers ensures timers[0].due <= t.due {
        var k :| 0 <= k < |timers| && timers[k] == t;
        if k > 0 { assert Before(timers[0], timers[k]); }
      }
    }
  }
}
