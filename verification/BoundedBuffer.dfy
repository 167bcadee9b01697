/** The processes of lab5/zad3 as a state machine: any number of producers and consumers and
    one manager, with one transition per semaphore operation and per assignment inside the
    critical sections.  A process that would block does not move, so a run is any sequence
    of process names. */
module BoundedBuffer {
  import opened CriticalSections
  import opened TaskQueues
  import opened Totals

  // ---------------------------------------------------------------- state

  datatype ProducerPc = AwaitEmpty | AwaitMutex | WriteSlot | MoveTail | RaiseCount | Unlock | PostFull

  /** `todo[0]` is the task being produced, with the lane drawn for it. */
  datatype Producer = Producer(pc: ProducerPc, todo: seq<Task>)

  datatype ConsumerPc = AwaitFull | AwaitMutex | TestPriority | CopyTask | MoveHead | LowerCount | Unlock | PostEmpty

  /** `source` is the queue chosen by the test, `taken` the local copy of the task. */
  datatype Consumer = Consumer(pc: ConsumerPc, source: Lane, taken: Task)

  datatype ManagerPc =
    | AwaitMutex | TestNormal
    | CopyOldest | MoveHead | LowerCount | WriteSlot | MoveTail | RaiseCount
    | ReadEmpty | ReadFull | ReadTotal | Compare | Unlock

  datatype Manager = Manager(pc: ManagerPc, agingTask: Task, emptyVal: int, fullVal: int, total: int, warned: bool)

  datatype Pid = ProducerId(i: nat) | ConsumerId(i: nat) | ManagerId

  /** Who is between `wait(mutex)` and `post(mutex)`; bookkeeping that no step looks at. */
  datatype Holder = Free | Held(pid: Pid)

  datatype System = System(
    memory: Memory, mutex: int, empty: int, full: int,
    producers: seq<Producer>, consumers: seq<Consumer>, manager: Manager,
    holder: Holder)

  // ---------------------------------------------------------------- initial states and steps

  const BLANK := Task("", Normal)

  /** Fresh semaphores and zeroed memory; each producer has its own list of tasks to produce. */
  function Init(k: nat, jobs: seq<seq<Task>>, consumers: nat): System {
    var ring := Ring(seq(k, _ => BLANK), 0, 0, 0);
    System(Memory(ring, ring), 1, k, 0,
           seq(|jobs|, i requires 0 <= i < |jobs| => Producer(AwaitEmpty, jobs[i])),
           seq(consumers, _ => Consumer(AwaitFull, Normal, BLANK)),
           Manager(ManagerPc.AwaitMutex, BLANK, 0, 0, 0, false),
           Free)
  }

  /** Whether the process exists, has something left to do and does not block. */
  predicate Enabled(s: System, pid: Pid) {
    match pid
    case ProducerId(i) =>
      i < |s.producers| && s.producers[i].todo != [] &&
      (s.producers[i].pc == AwaitEmpty ==> s.empty > 0) &&
      (s.producers[i].pc == ProducerPc.AwaitMutex ==> s.mutex > 0)
    case ConsumerId(i) =>
      i < |s.consumers| &&
      (s.consumers[i].pc == AwaitFull ==> s.full > 0) &&
      (s.consumers[i].pc == ConsumerPc.AwaitMutex ==> s.mutex > 0)
    case ManagerId =>
      s.manager.pc == ManagerPc.AwaitMutex ==> s.mutex > 0
  }

  function ProducerNext(s: System, i: nat): (s': System)
    requires s.memory.InRange() && Enabled(s, ProducerId(i))
    ensures s'.memory.InRange()
  {
    var p := s.producers[i];
    var t := p.todo[0];
    var at := (pc: ProducerPc) => s.producers[i := p.(pc := pc)];
    match p.pc
    case AwaitEmpty => s.(empty := s.empty - 1, producers := at(ProducerPc.AwaitMutex))
    case AwaitMutex => s.(mutex := s.mutex - 1, producers := at(ProducerPc.WriteSlot), holder := Held(ProducerId(i)))
    case WriteSlot => s.(memory := s.memory.WriteSlot(t.lane, t), producers := at(ProducerPc.MoveTail))
    case MoveTail => s.(memory := s.memory.MoveTail(t.lane), producers := at(ProducerPc.RaiseCount))
    case RaiseCount => s.(memory := s.memory.RaiseCount(t.lane), producers := at(ProducerPc.Unlock))
    case Unlock => s.(mutex := s.mutex + 1, producers := at(PostFull), holder := Free)
    case PostFull => s.(full := s.full + 1, producers := s.producers[i := Producer(AwaitEmpty, p.todo[1..])])
  }

  function ConsumerNext(s: System, i: nat): (s': System)
    requires s.memory.InRange() && Enabled(s, ConsumerId(i))
    ensures s'.memory.InRange()
  {
    var c := s.consumers[i];
    var at := (pc: ConsumerPc) => s.consumers[i := c.(pc := pc)];
    match c.pc
    case AwaitFull => s.(full := s.full - 1, consumers := at(ConsumerPc.AwaitMutex))
    case AwaitMutex => s.(mutex := s.mutex - 1, consumers := at(TestPriority), holder := Held(ConsumerId(i)))
    case TestPriority =>
      var source := if s.memory.priority.count > 0 then Priority else Normal;
      s.(consumers := s.consumers[i := c.(pc := CopyTask, source := source)])
    case CopyTask =>
      s.(consumers := s.consumers[i := c.(pc := ConsumerPc.MoveHead, taken := s.memory.OldestIn(c.source))])
    case MoveHead => s.(memory := s.memory.MoveHead(c.source), consumers := at(ConsumerPc.LowerCount))
    case LowerCount => s.(memory := s.memory.LowerCount(c.source), consumers := at(ConsumerPc.Unlock))
    case Unlock => s.(mutex := s.mutex + 1, consumers := at(PostEmpty), holder := Free)
    case PostEmpty => s.(empty := s.empty + 1, consumers := at(AwaitFull))
  }

  function ManagerNext(s: System): (s': System)
    requires s.memory.InRange() && Enabled(s, ManagerId)
    ensures s'.memory.InRange()
  {
    var m := s.manager;
    match m.pc
    case AwaitMutex => s.(mutex := s.mutex - 1, manager := m.(pc := TestNormal), holder := Held(ManagerId))
    case TestNormal => s.(manager := m.(pc := if s.memory.normal.count > 0 then CopyOldest else ReadEmpty))
    case CopyOldest => s.(manager := m.(pc := ManagerPc.MoveHead, agingTask := s.memory.OldestIn(Normal)))
    case MoveHead => s.(memory := s.memory.MoveHead(Normal), manager := m.(pc := ManagerPc.LowerCount))
    case LowerCount => s.(memory := s.memory.LowerCount(Normal), manager := m.(pc := ManagerPc.WriteSlot))
    case WriteSlot => s.(memory := s.memory.WriteSlot(Priority, m.agingTask), manager := m.(pc := ManagerPc.MoveTail))
    case MoveTail => s.(memory := s.memory.MoveTail(Priority), manager := m.(pc := ManagerPc.RaiseCount))
    case RaiseCount => s.(memory := s.memory.RaiseCount(Priority), manager := m.(pc := ReadEmpty))
    case ReadEmpty => s.(manager := m.(pc := ReadFull, emptyVal := s.empty))
    case ReadFull => s.(manager := m.(pc := ReadTotal, fullVal := s.full))
    case ReadTotal => s.(manager := m.(pc := Compare, total := s.memory.priority.count + s.memory.normal.count))
    case Compare => s.(manager := m.(pc := ManagerPc.Unlock, warned := m.total != m.fullVal))
    case Unlock => s.(mutex := s.mutex + 1, manager := m.(pc := ManagerPc.AwaitMutex), holder := Free)
  }

  function Next(s: System, pid: Pid): (s': System)
    requires s.memory.InRange()
    ensures s'.memory.InRange()
  {
    if !Enabled(s, pid) then s
    else match pid
      case ProducerId(i) => ProducerNext(s, i)
      case ConsumerId(i) => ConsumerNext(s, i)
      case ManagerId => ManagerNext(s)
  }

  /** The queue operation that a step completes, if it completes one: an insertion when the
      count is raised, a removal when the head moves on, an ageing when the moved task is
      counted in the priority queue or when there is nothing to move. */
  function Effect(s: System, pid: Pid): seq<Action> {
    if !Enabled(s, pid) then []
    else match pid
      case ProducerId(i) =>
        if s.producers[i].pc == ProducerPc.RaiseCount then [Insert(s.producers[i].todo[0])] else []
      case ConsumerId(i) =>
        if s.consumers[i].pc == ConsumerPc.MoveHead then [Remove(s.consumers[i].taken)] else []
      case ManagerId =>
        if s.manager.pc == ManagerPc.RaiseCount || (s.manager.pc == TestNormal && s.memory.normal.count <= 0)
        then [Age] else []
  }

  // ---------------------------------------------------------------- invariant

  function ProducerPhase(p: Producer): Phase {
    if p.todo == [] then Rest
    else match p.pc
      case MoveTail => Written(p.todo[0])
      case RaiseCount => TailMoved(p.todo[0])
      case _ => Rest
  }

  function ConsumerPhase(c: Consumer): Phase {
    match c.pc
    case CopyTask => Chosen(c.source)
    case MoveHead => Copied(c.source, c.taken)
    case LowerCount => HeadMoved(c.source)
    case _ => Rest
  }

  function ManagerPhase(m: Manager): Phase {
    match m.pc
    case CopyOldest => AgeChosen
    case MoveHead => AgeCopied(m.agingTask)
    case LowerCount => AgeHeadMoved(m.agingTask)
    case WriteSlot => AgeCarrying(m.agingTask)
    case MoveTail => AgeWritten(m.agingTask)
    case RaiseCount => AgeTailMoved(m.agingTask)
    case _ => Rest
  }

  /** How far the critical section in progress has come, if there is one. */
  function PhaseOf(s: System): Phase {
    match s.holder
    case Free => Rest
    case Held(ProducerId(i)) => if i < |s.producers| then ProducerPhase(s.producers[i]) else Rest
    case Held(ConsumerId(i)) => if i < |s.consumers| then ConsumerPhase(s.consumers[i]) else Rest
    case Held(ManagerId) => ManagerPhase(s.manager)
  }

  predicate ProducerInside(p: Producer) {
    p.pc.WriteSlot? || p.pc.MoveTail? || p.pc.RaiseCount? || p.pc.Unlock?
  }

  predicate ConsumerInside(c: Consumer) {
    c.pc.TestPriority? || c.pc.CopyTask? || c.pc.MoveHead? || c.pc.LowerCount? || c.pc.Unlock?
  }

  /** Mutual exclusion: exactly the recorded holder is inside its critical section. */
  ghost predicate Exclusive(s: System) {
    && s.mutex == (if s.holder == Free then 1 else 0)
    && (forall i: nat :: i < |s.producers| ==> (ProducerInside(s.producers[i]) <==> s.holder == Held(ProducerId(i))))
    && (forall i: nat :: i < |s.consumers| ==> (ConsumerInside(s.consumers[i]) <==> s.holder == Held(ConsumerId(i))))
    && (!s.manager.pc.AwaitMutex? <==> s.holder == Held(ManagerId))
    && (forall i: nat :: s.holder == Held(ProducerId(i)) ==> i < |s.producers|)
    && (forall i: nat :: s.holder == Held(ConsumerId(i)) ==> i < |s.consumers|)
    && (forall i: nat :: i < |s.producers| && s.producers[i].todo == [] ==> s.producers[i].pc == AwaitEmpty)
  }

  /** One for a producer that took an `empty` token and has not inserted its task yet. */
  function Reserved(p: Producer): int {
    if p.pc.AwaitMutex? || p.pc.WriteSlot? || p.pc.MoveTail? || p.pc.RaiseCount? then 1 else 0
  }

  /** One for a producer that inserted its task and has not posted `full` yet. */
  function Unposted(p: Producer): int {
    if p.pc.Unlock? || p.pc.PostFull? then 1 else 0
  }

  /** One for a consumer that took a `full` token and has not removed a task yet. */
  function Claimed(c: Consumer): int {
    if c.pc.AwaitMutex? || c.pc.TestPriority? || c.pc.CopyTask? || c.pc.MoveHead? then 1 else 0
  }

  /** One for a consumer that removed a task and has not posted `empty` yet. */
  function Freed(c: Consumer): int {
    if c.pc.LowerCount? || c.pc.Unlock? || c.pc.PostEmpty? then 1 else 0
  }

  /** Every buffered task and every free place belongs to a semaphore or to a process. */
  predicate Accounted(s: System, tasks: int) {
    && 0 <= s.empty && 0 <= s.full
    && tasks == s.full + Total(s.producers, Unposted) + Total(s.consumers, Claimed)
    && tasks + s.empty + Total(s.producers, Reserved) + Total(s.consumers, Freed) == |s.memory.priority.slots|
  }

  ghost predicate Inv(s: System) {
    && Exclusive(s)
    && MemoryOk(s.memory, PhaseOf(s))
    && |s.memory.priority.slots| == |s.memory.normal.slots|
    && Accounted(s, Size(Buffered(s)))
  }

  /** The two task queues that a state stands for. */
  function Buffered(s: System): Queues
    requires InOrder(s.memory, PhaseOf(s))
  {
    View(s.memory, PhaseOf(s))
  }

  lemma InitInv(k: nat, jobs: seq<seq<Task>>, consumers: nat)
    requires k > 0
    ensures Inv(Init(k, jobs, consumers)) && Buffered(Init(k, jobs, consumers)) == EMPTY
    ensures |Init(k, jobs, consumers).memory.priority.slots| == k
    ensures |Init(k, jobs, consumers).producers| == |jobs| && |Init(k, jobs, consumers).consumers| == consumers
  {
    var s := Init(k, jobs, consumers);
    TotalZero(s.producers, Unposted);
    TotalZero(s.producers, Reserved);
    TotalZero(s.consumers, Claimed);
    TotalZero(s.consumers, Freed);
  }

  /** A producer on its way to the insertion finds room, and a consumer on its way to the
      removal finds a task, whoever else is under way. */
  lemma TokensPromise(s: System)
    requires Inv(s)
    ensures Size(Buffered(s)) <= |s.memory.priority.slots|
    ensures forall i :: 0 <= i < |s.producers| && Reserved(s.producers[i]) == 1 ==>
              Size(Buffered(s)) < |s.memory.priority.slots|
    ensures forall i :: 0 <= i < |s.consumers| && Claimed(s.consumers[i]) == 1 ==> Size(Buffered(s)) > 0
  {
    TotalBounds(s.producers, Reserved);
    TotalBounds(s.producers, Unposted);
    TotalBounds(s.consumers, Claimed);
    TotalBounds(s.consumers, Freed);
  }

  // ---------------------------------------------------------------- mutual exclusion

  lemma ProducerExcludes(s: System, i: nat)
    requires Exclusive(s) && s.memory.InRange() && Enabled(s, ProducerId(i))
    ensures Exclusive(ProducerNext(s, i))
  {
  }

  lemma ConsumerExcludes(s: System, i: nat)
    requires Exclusive(s) && s.memory.InRange() && Enabled(s, ConsumerId(i))
    ensures Exclusive(ConsumerNext(s, i))
  {
  }

  lemma ManagerExcludes(s: System)
    requires Exclusive(s) && s.memory.InRange() && Enabled(s, ManagerId)
    ensures Exclusive(ManagerNext(s))
  {
  }

  // ---------------------------------------------------------------- memory and effect

  ghost predicate StepRealizes(s: System, s': System, effect: seq<Action>) {
    Realizes(s.memory, PhaseOf(s), s'.memory, PhaseOf(s'), effect)
  }

  lemma ProducerSignals(s: System, i: nat)
    requires Exclusive(s) && MemoryOk(s.memory, PhaseOf(s)) && Enabled(s, ProducerId(i))
    requires s.producers[i].pc in {AwaitEmpty, ProducerPc.AwaitMutex, ProducerPc.Unlock, PostFull}
    ensures StepRealizes(s, ProducerNext(s, i), [])
  {
    hide Realizes, View;
    assert PhaseOf(ProducerNext(s, i)) == PhaseOf(s);
    NothingChanges(s.memory, PhaseOf(s));
  }

  lemma ProducerAssigns(s: System, i: nat)
    requires s.holder == Held(ProducerId(i)) && MemoryOk(s.memory, PhaseOf(s)) && Enabled(s, ProducerId(i))
    requires s.producers[i].pc in {ProducerPc.WriteSlot, ProducerPc.MoveTail, ProducerPc.RaiseCount}
    requires Size(Buffered(s)) < |s.memory.priority.slots| == |s.memory.normal.slots|
    ensures StepRealizes(s, ProducerNext(s, i), Effect(s, ProducerId(i)))
  {
    hide Realizes, MemoryOk, View, InOrder;
    var t := s.producers[i].todo[0];
    match s.producers[i].pc {
      case WriteSlot => InsertWrites(s.memory, t);
      case MoveTail => InsertMovesTail(s.memory, t);
      case RaiseCount => InsertCounts(s.memory, t);
    }
  }

  lemma ConsumerSignals(s: System, i: nat)
    requires Exclusive(s) && MemoryOk(s.memory, PhaseOf(s)) && Enabled(s, ConsumerId(i))
    requires s.consumers[i].pc in {AwaitFull, ConsumerPc.AwaitMutex, ConsumerPc.Unlock, PostEmpty}
    ensures StepRealizes(s, ConsumerNext(s, i), [])
  {
    hide Realizes, View;
    assert PhaseOf(ConsumerNext(s, i)) == PhaseOf(s);
    NothingChanges(s.memory, PhaseOf(s));
  }

  lemma ConsumerPicks(s: System, i: nat)
    requires s.holder == Held(ConsumerId(i)) && MemoryOk(s.memory, PhaseOf(s)) && Enabled(s, ConsumerId(i))
    requires s.consumers[i].pc in {TestPriority, CopyTask}
    requires Size(Buffered(s)) > 0
    ensures StepRealizes(s, ConsumerNext(s, i), [])
  {
    hide Realizes, MemoryOk, View, InOrder;
    if s.consumers[i].pc == TestPriority {
      RemoveChooses(s.memory);
    } else {
      RemoveCopies(s.memory, s.consumers[i].source);
    }
  }

  lemma ConsumerTakes(s: System, i: nat)
    requires s.holder == Held(ConsumerId(i)) && MemoryOk(s.memory, PhaseOf(s)) && Enabled(s, ConsumerId(i))
    requires s.consumers[i].pc in {ConsumerPc.MoveHead, ConsumerPc.LowerCount}
    ensures StepRealizes(s, ConsumerNext(s, i), Effect(s, ConsumerId(i)))
  {
    hide Realizes, MemoryOk, View, InOrder;
    var c := s.consumers[i];
    if c.pc == ConsumerPc.MoveHead {
      RemoveMovesHead(s.memory, c.source, c.taken);
    } else {
      RemoveCounts(s.memory, c.source);
    }
  }

  lemma ManagerMonitors(s: System)
    requires Exclusive(s) && MemoryOk(s.memory, PhaseOf(s)) && Enabled(s, ManagerId)
    requires s.manager.pc in {ManagerPc.AwaitMutex, ReadEmpty, ReadFull, ReadTotal, Compare, ManagerPc.Unlock}
    ensures StepRealizes(s, ManagerNext(s), [])
  {
    hide Realizes, View;
    NothingChanges(s.memory, Rest);
  }

  lemma ManagerTakes(s: System)
    requires s.holder == Held(ManagerId) && MemoryOk(s.memory, PhaseOf(s)) && Enabled(s, ManagerId)
    requires s.manager.pc in {TestNormal, CopyOldest, ManagerPc.MoveHead, ManagerPc.LowerCount}
    ensures StepRealizes(s, ManagerNext(s), Effect(s, ManagerId))
  {
    hide Realizes, MemoryOk, View, InOrder;
    match s.manager.pc {
      case TestNormal => AgeChooses(s.memory);
      case CopyOldest => AgeCopies(s.memory);
      case MoveHead => AgeMovesHead(s.memory, s.manager.agingTask);
      case LowerCount => AgeLowers(s.memory, s.manager.agingTask);
    }
  }

  lemma ManagerAppends(s: System)
    requires s.holder == Held(ManagerId) && MemoryOk(s.memory, PhaseOf(s)) && Enabled(s, ManagerId)
    requires s.manager.pc in {ManagerPc.WriteSlot, ManagerPc.MoveTail, ManagerPc.RaiseCount}
    requires Size(Buffered(s)) <= |s.memory.priority.slots|
    ensures StepRealizes(s, ManagerNext(s), Effect(s, ManagerId))
  {
    hide Realizes, MemoryOk;
    match s.manager.pc {
      case WriteSlot => AgeWrites(s.memory, s.manager.agingTask);
      case MoveTail => AgeMovesTail(s.memory, s.manager.agingTask);
      case RaiseCount => AgeCounts(s.memory, s.manager.agingTask);
    }
  }

  // ---------------------------------------------------------------- token accounting

  /** Each process moves its own token along with its step. */
  lemma ProducerAccounts(s: System, i: nat, tasks: int)
    requires Accounted(s, tasks) && s.memory.InRange() && Enabled(s, ProducerId(i))
    requires |ProducerNext(s, i).memory.priority.slots| == |s.memory.priority.slots|
    ensures Accounted(ProducerNext(s, i), tasks + |Effect(s, ProducerId(i))|)
  {
    hide Total;
    var p' := ProducerNext(s, i).producers[i];
    TotalUpdate(s.producers, i, p', Reserved);
    TotalUpdate(s.producers, i, p', Unposted);
  }

  lemma ConsumerAccounts(s: System, i: nat, tasks: int)
    requires Accounted(s, tasks) && s.memory.InRange() && Enabled(s, ConsumerId(i))
    requires |ConsumerNext(s, i).memory.priority.slots| == |s.memory.priority.slots|
    ensures Accounted(ConsumerNext(s, i), tasks - |Effect(s, ConsumerId(i))|)
  {
    hide Total;
    var c' := ConsumerNext(s, i).consumers[i];
    TotalUpdate(s.consumers, i, c', Claimed);
    TotalUpdate(s.consumers, i, c', Freed);
  }

  // ---------------------------------------------------------------- every step

  lemma ProducerKeeps(s: System, i: nat)
    requires Inv(s) && Enabled(s, ProducerId(i))
    ensures Inv(ProducerNext(s, i)) && StepRealizes(s, ProducerNext(s, i), Effect(s, ProducerId(i)))
  {
    assert s.memory.InRange();
    hide Realizes, View, Total, MemoryOk;
    TokensPromise(s);
    ProducerExcludes(s, i);
    if ProducerInside(s.producers[i]) && !s.producers[i].pc.Unlock? {
      ProducerAssigns(s, i);
    } else {
      ProducerSignals(s, i);
    }
    EffectSize(s, ProducerNext(s, i), Effect(s, ProducerId(i)));
    ProducerAccounts(s, i, Size(Buffered(s)));
  }

  lemma ConsumerKeeps(s: System, i: nat)
    requires Inv(s) && Enabled(s, ConsumerId(i))
    ensures Inv(ConsumerNext(s, i)) && StepRealizes(s, ConsumerNext(s, i), Effect(s, ConsumerId(i)))
  {
    assert s.memory.InRange();
    hide Realizes, View, Total, MemoryOk;
    TokensPromise(s);
    ConsumerExcludes(s, i);
    match s.consumers[i].pc {
      case TestPriority => ConsumerPicks(s, i);
      case CopyTask => ConsumerPicks(s, i);
      case MoveHead => ConsumerTakes(s, i);
      case LowerCount => ConsumerTakes(s, i);
      case _ => ConsumerSignals(s, i);
    }
    EffectSize(s, ConsumerNext(s, i), Effect(s, ConsumerId(i)));
    ConsumerAccounts(s, i, Size(Buffered(s)));
  }

  lemma ManagerKeeps(s: System)
    requires Inv(s) && Enabled(s, ManagerId)
    ensures Inv(ManagerNext(s)) && StepRealizes(s, ManagerNext(s), Effect(s, ManagerId))
  {
    assert s.memory.InRange();
    hide Realizes, View, Total, MemoryOk;
    TokensPromise(s);
    ManagerExcludes(s);
    match s.manager.pc {
      case TestNormal => ManagerTakes(s);
      case CopyOldest => ManagerTakes(s);
      case MoveHead => ManagerTakes(s);
      case LowerCount => ManagerTakes(s);
      case WriteSlot => ManagerAppends(s);
      case MoveTail => ManagerAppends(s);
      case RaiseCount => ManagerAppends(s);
      case _ => ManagerMonitors(s);
    }
    EffectSize(s, ManagerNext(s), Effect(s, ManagerId));
  }

  lemma EffectSize(s: System, s': System, effect: seq<Action>)
    requires StepRealizes(s, s', effect)
    ensures MemoryOk(s'.memory, PhaseOf(s'))
    ensures |s'.memory.priority.slots| == |s.memory.priority.slots|
    ensures |s'.memory.normal.slots| == |s.memory.normal.slots|
    ensures effect == [] ==> Size(Buffered(s')) == Size(Buffered(s))
    ensures effect != [] ==>
              Size(Buffered(s')) - Size(Buffered(s))
              == if effect[0].Insert? then 1 else if effect[0].Remove? then -1 else 0
  {
    hide View;
  }

  /** The invariant is kept by every step of every process, and every step does to the two
      queues exactly the one legal operation that it completes, or nothing. */
  lemma StepKeeps(s: System, pid: Pid)
    requires Inv(s)
    ensures Inv(Next(s, pid)) && StepRealizes(s, Next(s, pid), Effect(s, pid))
  {
    if !Enabled(s, pid) {
      NothingChanges(s.memory, PhaseOf(s));
    } else {
      match pid {
        case ProducerId(i) => ProducerKeeps(s, i);
        case ConsumerId(i) => ConsumerKeeps(s, i);
        case ManagerId => ManagerKeeps(s);
      }
    }
  }
}
