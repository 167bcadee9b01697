/** The two rings of lab5/zad3 and the single assignments that the critical sections are made
    of.  Between two assignments the rings are not in order; a phase says how far the
    critical section has come, and with the phase the rings always stand for two queues. */
module CriticalSections {
  import opened Rings
  import opened TaskQueues

  datatype Ring = Ring(slots: seq<Task>, head: int, tail: int, count: int)

  datatype Memory = Memory(priority: Ring, normal: Ring) {
    function Of(lane: Lane): Ring {
      if lane == Priority then priority else normal
    }

    function With(lane: Lane, r: Ring): Memory {
      if lane == Priority then this.(priority := r) else this.(normal := r)
    }

    predicate InRange() {
      && 0 <= priority.head < |priority.slots| && 0 <= priority.tail < |priority.slots|
      && 0 <= normal.head < |normal.slots| && 0 <= normal.tail < |normal.slots|
    }

    // The assignments.

    function WriteSlot(lane: Lane, t: Task): (m: Memory)
      requires InRange()
      ensures m.InRange()
    {
      var r := Of(lane);
      With(lane, r.(slots := r.slots[r.tail := t]))
    }

    function MoveTail(lane: Lane): (m: Memory)
      requires InRange()
      ensures m.InRange()
    {
      var r := Of(lane);
      NextSlot(r.tail, |r.slots|);
      With(lane, r.(tail := (r.tail + 1) % |r.slots|))
    }

    function RaiseCount(lane: Lane): Memory {
      With(lane, Of(lane).(count := Of(lane).count + 1))
    }

    function OldestIn(lane: Lane): Task
      requires InRange()
    {
      Of(lane).slots[Of(lane).head]
    }

    function MoveHead(lane: Lane): (m: Memory)
      requires InRange()
      ensures m.InRange()
    {
      var r := Of(lane);
      NextSlot(r.head, |r.slots|);
      With(lane, r.(head := (r.head + 1) % |r.slots|))
    }

    function LowerCount(lane: Lane): Memory {
      With(lane, Of(lane).(count := Of(lane).count - 1))
    }
  }

  /** How far the process that holds the mutex has come. */
  datatype Phase =
    | Rest
    // a producer inserting a task
    | Written(task: Task) | TailMoved(task: Task)
    // a consumer removing a task from the chosen queue
    | Chosen(source: Lane) | Copied(source: Lane, task: Task) | HeadMoved(source: Lane)
    // the manager moving a task from the normal to the priority queue
    | AgeChosen | AgeCopied(task: Task) | AgeHeadMoved(task: Task)
    | AgeCarrying(task: Task) | AgeWritten(task: Task) | AgeTailMoved(task: Task)
  {
    /** One when the head of the ring has moved on but its count has not been lowered. */
    function Lag(lane: Lane): int {
      if (HeadMoved? && source == lane) || (AgeHeadMoved? && lane == Normal) then 1 else 0
    }

    /** One when the tail of the ring has moved on but its count has not been raised. */
    function Lead(lane: Lane): int {
      if (TailMoved? && task.lane == lane) || (AgeTailMoved? && lane == Priority) then 1 else 0
    }

    /** Whether `task` has left the normal ring and is not counted in the priority ring. */
    predicate Carries() {
      AgeHeadMoved? || AgeCarrying? || AgeWritten? || AgeTailMoved?
    }
  }

  predicate RingOk(r: Ring, lag: int, lead: int) {
    && 0 <= r.head < |r.slots| && 0 <= r.tail < |r.slots|
    && 0 <= r.count - lag
    && Linked(r.slots, r.head, r.tail, r.count - lag + lead)
  }

  /** The elements of a ring, oldest first. */
  function Items(r: Ring, lag: int): seq<Task>
    requires 0 <= r.head < |r.slots| && 0 <= r.count - lag <= |r.slots|
  {
    Window(r.slots, r.head, r.count - lag)
  }

  lemma HeadMoves(r: Ring)
    requires RingOk(r, 0, 0) && r.count > 0
    ensures var moved := r.(head := (r.head + 1) % |r.slots|);
            RingOk(moved, 1, 0) && Items(moved, 1) == Items(r, 0)[1..]
    ensures Items(r, 0)[0] == r.slots[r.head]
  {
    NextSlot(r.head, |r.slots|);
    DropOldest(r.slots, r.head, r.count);
  }

  lemma TailMoves(r: Ring)
    requires RingOk(r, 0, 0) && r.count < |r.slots|
    ensures var moved := r.(tail := (r.tail + 1) % |r.slots|);
            RingOk(moved, 0, 1) && Items(moved, 0) == Items(r, 0)
  {
    NextSlot(r.tail, |r.slots|);
  }

  predicate NextFreeHolds(r: Ring, t: Task)
    requires RingOk(r, 0, 0) || RingOk(r, 0, 1)
  {
    r.count < |r.slots| && r.slots[Slot(r.head, r.count, |r.slots|)] == t
  }

  /** The rings are as the phase says, apart from the elements. */
  predicate InOrder(m: Memory, phase: Phase) {
    && RingOk(m.priority, phase.Lag(Priority), phase.Lead(Priority))
    && RingOk(m.normal, phase.Lag(Normal), phase.Lead(Normal))
  }

  predicate MemoryOk(m: Memory, phase: Phase) {
    && InOrder(m, phase)
    && match phase
       case Written(t) => NextFreeHolds(m.Of(t.lane), t)
       case TailMoved(t) => NextFreeHolds(m.Of(t.lane), t)
       case Chosen(l) => m.Of(l).count > 0 && (l == Normal ==> m.priority.count == 0)
       case Copied(l, t) => m.Of(l).count > 0 && (l == Normal ==> m.priority.count == 0) && t == m.OldestIn(l)
       case AgeChosen => m.normal.count > 0
       case AgeCopied(t) => m.normal.count > 0 && t == m.OldestIn(Normal)
       case AgeWritten(t) => NextFreeHolds(m.priority, t)
       case AgeTailMoved(t) => NextFreeHolds(m.priority, t)
       case _ => true
  }

  /** The two queues that the rings stand for. */
  function View(m: Memory, phase: Phase): Queues
    requires InOrder(m, phase)
  {
    var waiting := Items(m.normal, phase.Lag(Normal));
    Queues(Items(m.priority, phase.Lag(Priority)), if phase.Carries() then [phase.task] + waiting else waiting)
  }

  /** A step of the section from one phase to the next does to the queues what its effect
      says: at most one queue operation, and a legal one. */
  predicate Realizes(m: Memory, phase: Phase, m': Memory, phase': Phase, effect: seq<Action>) {
    && InOrder(m, phase) && MemoryOk(m', phase')
    && |m'.priority.slots| == |m.priority.slots| && |m'.normal.slots| == |m.normal.slots|
    && (effect == [] ==> View(m', phase') == View(m, phase))
    && (effect != [] ==> Legal(View(m, phase), effect[0], |m.priority.slots|) &&
                         View(m', phase') == Apply(View(m, phase), effect[0]))
  }

  lemma NothingChanges(m: Memory, phase: Phase)
    requires MemoryOk(m, phase)
    ensures Realizes(m, phase, m, phase, [])
  {
  }

  // ---------------------------------------------------------------- producer's assignments

  lemma InsertWrites(m: Memory, t: Task)
    requires MemoryOk(m, Rest) && Size(View(m, Rest)) < |m.priority.slots| == |m.normal.slots|
    ensures Realizes(m, Rest, m.WriteSlot(t.lane, t), Written(t), [])
  {
    hide Window;
    var r := m.Of(t.lane);
    WritePast(r.slots, r.head, r.count, t);
  }

  lemma InsertMovesTail(m: Memory, t: Task)
    requires MemoryOk(m, Written(t))
    ensures Realizes(m, Written(t), m.MoveTail(t.lane), TailMoved(t), [])
  {
    hide Window;
    TailMoves(m.Of(t.lane));
  }

  lemma InsertCounts(m: Memory, t: Task)
    requires MemoryOk(m, TailMoved(t)) && Size(View(m, TailMoved(t))) < |m.priority.slots|
    ensures Realizes(m, TailMoved(t), m.RaiseCount(t.lane), Rest, [Insert(t)])
  {
    hide Window;
    var r := m.Of(t.lane);
    ExtendWindow(r.slots, r.head, r.count);
  }

  // ---------------------------------------------------------------- consumer's assignments

  lemma RemoveChooses(m: Memory)
    requires MemoryOk(m, Rest) && Size(View(m, Rest)) > 0
    ensures Realizes(m, Rest, m, Chosen(if m.priority.count > 0 then Priority else Normal), [])
  {
    hide Window;
  }

  lemma RemoveCopies(m: Memory, l: Lane)
    requires MemoryOk(m, Chosen(l))
    ensures Realizes(m, Chosen(l), m, Copied(l, m.OldestIn(l)), [])
  {
    hide Window;
  }

  lemma RemoveMovesHead(m: Memory, l: Lane, t: Task)
    requires MemoryOk(m, Copied(l, t))
    ensures Realizes(m, Copied(l, t), m.MoveHead(l), HeadMoved(l), [Remove(t)])
  {
    hide Window;
    HeadMoves(m.Of(l));
  }

  lemma RemoveCounts(m: Memory, l: Lane)
    requires MemoryOk(m, HeadMoved(l))
    ensures Realizes(m, HeadMoved(l), m.LowerCount(l), Rest, [])
  {
    hide Window;
  }

  // ---------------------------------------------------------------- manager's assignments

  lemma AgeChooses(m: Memory)
    requires MemoryOk(m, Rest)
    ensures m.normal.count > 0 ==> Realizes(m, Rest, m, AgeChosen, [])
    ensures m.normal.count <= 0 ==> Realizes(m, Rest, m, Rest, [Age])
  {
    hide Window;
  }

  lemma AgeCopies(m: Memory)
    requires MemoryOk(m, AgeChosen)
    ensures Realizes(m, AgeChosen, m, AgeCopied(m.OldestIn(Normal)), [])
  {
    hide Window;
  }

  lemma AgeMovesHead(m: Memory, t: Task)
    requires MemoryOk(m, AgeCopied(t))
    ensures Realizes(m, AgeCopied(t), m.MoveHead(Normal), AgeHeadMoved(t), [])
  {
    hide Window;
    HeadMoves(m.normal);
    var w := Items(m.normal, 0);
    assert w == [w[0]] + w[1..];
  }

  lemma AgeLowers(m: Memory, t: Task)
    requires MemoryOk(m, AgeHeadMoved(t))
    ensures Realizes(m, AgeHeadMoved(t), m.LowerCount(Normal), AgeCarrying(t), [])
  {
    hide Window;
  }

  lemma AgeWrites(m: Memory, t: Task)
    requires MemoryOk(m, AgeCarrying(t)) && m.priority.count < |m.priority.slots|
    ensures Realizes(m, AgeCarrying(t), m.WriteSlot(Priority, t), AgeWritten(t), [])
  {
    hide Window;
    WritePast(m.priority.slots, m.priority.head, m.priority.count, t);
  }

  lemma AgeMovesTail(m: Memory, t: Task)
    requires MemoryOk(m, AgeWritten(t))
    ensures Realizes(m, AgeWritten(t), m.MoveTail(Priority), AgeTailMoved(t), [])
  {
    hide Window;
    TailMoves(m.priority);
  }

  lemma AgeCounts(m: Memory, t: Task)
    requires MemoryOk(m, AgeTailMoved(t))
    ensures Realizes(m, AgeTailMoved(t), m.RaiseCount(Priority), Rest, [Age])
  {
    hide Window;
    ExtendWindow(m.priority.slots, m.priority.head, m.priority.count);
    var n := Items(m.normal, 0);
    assert ([t] + n)[1..] == n;
  }
}
