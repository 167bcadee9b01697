/** The shared memory segment of lab5/zad3 and the three critical sections that update it in
    place.  Each one, run to completion on a well-formed segment, performs one operation of
    the two task queues. */
module SharedTasks {
  import opened Rings
  import opened TaskQueues

  class SharedMemory {
    var priorityQueue: array<Task>
    var priorityHead: int
    var priorityTail: int
    var priorityCount: int

    var normalQueue: array<Task>
    var normalHead: int
    var normalTail: int
    var normalCount: int

    ghost predicate Valid()
      reads this, priorityQueue, normalQueue
    {
      && priorityQueue != normalQueue
      && priorityQueue.Length == normalQueue.Length
      && Linked(priorityQueue[..], priorityHead, priorityTail, priorityCount)
      && Linked(normalQueue[..], normalHead, normalTail, normalCount)
    }

    /** What the segment holds, oldest task first in each queue. */
    ghost function Contents(): Queues
      requires Valid()
      reads this, priorityQueue, normalQueue
    {
      Queues(Window(priorityQueue[..], priorityHead, priorityCount),
             Window(normalQueue[..], normalHead, normalCount))
    }

    /** A new segment is all zeros. */
    constructor (capacity: nat)
      requires capacity > 0
      ensures Valid() && fresh(priorityQueue) && fresh(normalQueue)
      ensures priorityQueue.Length == capacity && Contents() == EMPTY
    {
      priorityQueue := new Task[capacity](_ => Task("", Normal));
      priorityHead, priorityTail, priorityCount := 0, 0, 0;
      normalQueue := new Task[capacity](_ => Task("", Normal));
      normalHead, normalTail, normalCount := 0, 0, 0;
    }

    /** The producer's critical section; the `empty` token guarantees the free place. */
    method Insert(task: Task)
      requires Valid() && Size(Contents()) < priorityQueue.Length
      modifies this, priorityQueue, normalQueue
      ensures Valid() && priorityQueue == old(priorityQueue) && normalQueue == old(normalQueue)
      ensures Contents() == Apply(old(Contents()), Action.Insert(task))
    {
      var k := priorityQueue.Length;
      if task.lane == Priority {
        WritePast(priorityQueue[..], priorityHead, priorityCount, task);
        NextSlot(priorityTail, k);
        priorityQueue[priorityTail] := task;
        priorityTail := (priorityTail + 1) % k;
        priorityCount := priorityCount + 1;
      } else {
        WritePast(normalQueue[..], normalHead, normalCount, task);
        NextSlot(normalTail, k);
        normalQueue[normalTail] := task;
        normalTail := (normalTail + 1) % k;
        normalCount := normalCount + 1;
      }
    }

    /** The consumer's critical section; the `full` token guarantees that there is a task,
        which may be in either queue.  `source` is the queue it was found in, which for an
        aged task is not the lane it was produced for. */
    method RemoveTask() returns (taken: Task, source: Lane)
      requires Valid() && Size(Contents()) > 0
      modifies this
      ensures Valid() && priorityQueue == old(priorityQueue) && normalQueue == old(normalQueue)
      ensures Legal(old(Contents()), Remove(taken), priorityQueue.Length)
      ensures Contents() == Apply(old(Contents()), Remove(taken))
      ensures source == Normal <==> old(Contents()).priority == []
    {
      var k := priorityQueue.Length;
      if priorityCount > 0 {
        DropOldest(priorityQueue[..], priorityHead, priorityCount);
        NextSlot(priorityHead, k);
        taken := priorityQueue[priorityHead];
        priorityHead := (priorityHead + 1) % k;
        priorityCount := priorityCount - 1;
        source := Priority;
      } else {
        DropOldest(normalQueue[..], normalHead, normalCount);
        NextSlot(normalHead, k);
        taken := normalQueue[normalHead];
        normalHead := (normalHead + 1) % k;
        normalCount := normalCount - 1;
        source := Normal;
      }
    }

    /** The ageing part of the manager's critical section. */
    method AgeOldest() returns (moved: bool)
      requires Valid() && Size(Contents()) <= priorityQueue.Length
      modifies this, priorityQueue
      ensures Valid() && priorityQueue == old(priorityQueue) && normalQueue == old(normalQueue)
      ensures Contents() == Apply(old(Contents()), Age)
      ensures moved <==> old(Contents()).normal != []
    {
      var k := priorityQueue.Length;
      moved := normalCount > 0;
      if moved {
        DropOldest(normalQueue[..], normalHead, normalCount);
        NextSlot(normalHead, k);
        var agingTask := normalQueue[normalHead];
        normalHead := (normalHead + 1) % k;
        normalCount := normalCount - 1;

        WritePast(priorityQueue[..], priorityHead, priorityCount, agingTask);
        NextSlot(priorityTail, k);
        priorityQueue[priorityTail] := agingTask;
        priorityTail := (priorityTail + 1) % k;
        priorityCount := priorityCount + 1;
      }
    }
  }
}
