/** Whole runs of the lab5/zad3 processes, from fresh semaphores and zeroed memory. */
module BufferRuns {
  import opened BoundedBuffer
  import opened CriticalSections
  import opened Rings
  import opened TaskQueues
  import opened Totals

  /** The state after the processes named by the schedule have been given their turns. */
  function Run(s: System, schedule: seq<Pid>): (s': System)
    requires s.memory.InRange()
    ensures s'.memory.InRange()
    decreases |schedule|
  {
    if schedule == [] then s else Run(Next(s, schedule[0]), schedule[1..])
  }

  /** The queue operations completed along the way. */
  function Trace(s: System, schedule: seq<Pid>): seq<Action>
    requires s.memory.InRange()
    decreases |schedule|
  {
    if schedule == [] then [] else Effect(s, schedule[0]) + Trace(Next(s, schedule[0]), schedule[1..])
  }

  function Capacity(s: System): nat {
    |s.memory.priority.slots|
  }

  lemma {:induction false} RunConcat(s: System, xs: seq<Pid>, ys: seq<Pid>)
    requires s.memory.InRange()
    ensures Run(s, xs + ys) == Run(Run(s, xs), ys)
    ensures Trace(s, xs + ys) == Trace(s, xs) + Trace(Run(s, xs), ys)
    decreases |xs|
  {
    hide Next, Effect;
    if xs == [] {
      assert xs + ys == ys;
    } else {
      RunConcat(Next(s, xs[0]), xs[1..], ys);
      assert (xs + ys)[1..] == xs[1..] + ys;
      assert (xs + ys)[0] == xs[0];
    }
  }

  // ---------------------------------------------------------------- refinement

  lemma OneEffect(q: Queues, effect: seq<Action>, capacity: nat)
    requires |effect| <= 1
    ensures effect == [] ==> ApplyAll(q, effect) == q && LegalAll(q, effect, capacity)
    ensures effect != [] ==> ApplyAll(q, effect) == Apply(q, effect[0]) &&
                             (LegalAll(q, effect, capacity) <==> Legal(q, effect[0], capacity))
  {
    if effect != [] {
      assert effect[..0] == [];
    }
  }

  lemma StepRefines(s: System, pid: Pid)
    requires Inv(s)
    ensures Inv(Next(s, pid)) && Capacity(Next(s, pid)) == Capacity(s)
    ensures LegalAll(Buffered(s), Effect(s, pid), Capacity(s))
    ensures Buffered(Next(s, pid)) == ApplyAll(Buffered(s), Effect(s, pid))
  {
    StepKeeps(s, pid);
    OneEffect(Buffered(s), Effect(s, pid), Capacity(s));
  }

  /** Every interleaving of the semaphore operations and assignments simulates the two task
      queues: what it completes is a legal run of the queues, and where it ends up stands
      for where that run ends up. */
  lemma {:induction false} RunRefines(s: System, schedule: seq<Pid>)
    requires Inv(s)
    ensures Inv(Run(s, schedule)) && Capacity(Run(s, schedule)) == Capacity(s)
    ensures LegalAll(Buffered(s), Trace(s, schedule), Capacity(s))
    ensures Buffered(Run(s, schedule)) == ApplyAll(Buffered(s), Trace(s, schedule))
    decreases |schedule|
  {
    if schedule != [] {
      var s1 := Next(s, schedule[0]);
      StepRefines(s, schedule[0]);
      hide Next, Effect, MemoryOk, View;
      RunRefines(s1, schedule[1..]);
      ApplyConcat(Buffered(s), Effect(s, schedule[0]), Trace(s1, schedule[1..]), Capacity(s));
    }
  }

  // ---------------------------------------------------------------- order and starvation

  /** In every run from the start, whatever the interleaving, the tasks of a lane leave in
      the order in which they were inserted, and the ones not yet gone are still buffered. */
  lemma ServedInOrder(k: nat, jobs: seq<seq<Task>>, consumers: nat, schedule: seq<Pid>, lane: Lane)
    requires k > 0
    ensures var s := Init(k, jobs, consumers);
            var end := Run(s, schedule);
            Inv(end) &&
            Removed(Trace(s, schedule), lane) + Backlog(Buffered(end), lane) == Inserted(Trace(s, schedule), lane) &&
            NormalPure(Buffered(end))
  {
    var s := Init(k, jobs, consumers);
    InitInv(k, jobs, consumers);
    EmptyBacklog(lane);
    RunRefines(s, schedule);
    hide *;
    LaneOrder(EMPTY, Trace(s, schedule), lane, k);
  }

  lemma EmptyBacklog(lane: Lane)
    ensures NormalPure(EMPTY) && Backlog(EMPTY, lane) == []
  {
  }

  lemma {:induction false} CountsConcat(xs: seq<Action>, ys: seq<Action>)
    ensures Ages(xs + ys) == Ages(xs) + Ages(ys)
    ensures Removals(xs + ys) == Removals(xs) + Removals(ys)
  {
    if ys == [] {
      assert xs + ys == xs;
    } else {
      CountsConcat(xs, ys[..|ys| - 1]);
      assert (xs + ys)[..|xs + ys| - 1] == xs + ys[..|ys| - 1];
    }
  }

  /** The rounds of the manager: the turns in which it takes the mutex. */
  function Rounds(s: System, schedule: seq<Pid>): nat
    requires s.memory.InRange()
    decreases |schedule|
  {
    if schedule == [] then 0
    else (if schedule[0] == ManagerId && s.manager.pc.AwaitMutex? && s.mutex > 0 then 1 else 0)
         + Rounds(Next(s, schedule[0]), schedule[1..])
  }

  /** One for a round that has not aged yet. */
  function AgeDue(m: Manager): nat {
    match m.pc
    case AwaitMutex => 0
    case ReadEmpty => 0
    case ReadFull => 0
    case ReadTotal => 0
    case Compare => 0
    case Unlock => 0
    case _ => 1
  }

  /** The services of the consumers: the turns in which one of them takes the mutex. */
  function Services(s: System, schedule: seq<Pid>): nat
    requires s.memory.InRange()
    decreases |schedule|
  {
    if schedule == [] then 0
    else (if TakesMutex(s, schedule[0]) then 1 else 0) + Services(Next(s, schedule[0]), schedule[1..])
  }

  predicate TakesMutex(s: System, pid: Pid) {
    pid.ConsumerId? && pid.i < |s.consumers| && s.consumers[pid.i].pc.AwaitMutex? && s.mutex > 0
  }

  /** One for a consumer inside its critical section that has not removed its task yet. */
  function RemovalDue(c: Consumer): int {
    if c.pc.TestPriority? || c.pc.CopyTask? || c.pc.MoveHead? then 1 else 0
  }

  lemma OneCount(effect: seq<Action>)
    requires |effect| <= 1
    ensures Ages(effect) == if effect != [] && effect[0].Age? then 1 else 0
    ensures Removals(effect) == if effect != [] && effect[0].Remove? then 1 else 0
  {
    if effect != [] {
      assert effect[..0] == [];
    }
  }

  lemma ManagerCounts(s: System)
    requires s.memory.InRange() && Enabled(s, ManagerId)
    ensures Ages(Effect(s, ManagerId)) + AgeDue(ManagerNext(s).manager)
         == AgeDue(s.manager) + if s.manager.pc.AwaitMutex? then 1 else 0
    ensures Removals(Effect(s, ManagerId)) == 0 && ManagerNext(s).consumers == s.consumers
  {
    OneCount(Effect(s, ManagerId));
    hide Ages, Removals;
  }

  lemma ConsumerCounts(s: System, i: nat)
    requires s.memory.InRange() && Enabled(s, ConsumerId(i))
    ensures Removals(Effect(s, ConsumerId(i))) + RemovalDue(ConsumerNext(s, i).consumers[i])
         == RemovalDue(s.consumers[i]) + if s.consumers[i].pc.AwaitMutex? then 1 else 0
    ensures Ages(Effect(s, ConsumerId(i))) == 0 && ConsumerNext(s, i).manager == s.manager
    ensures ConsumerNext(s, i).consumers == s.consumers[i := ConsumerNext(s, i).consumers[i]]
  {
    OneCount(Effect(s, ConsumerId(i)));
    hide Ages, Removals;
  }

  lemma ProducerCounts(s: System, i: nat)
    requires s.memory.InRange() && Enabled(s, ProducerId(i))
    ensures Ages(Effect(s, ProducerId(i))) == 0 && Removals(Effect(s, ProducerId(i))) == 0
    ensures ProducerNext(s, i).manager == s.manager && ProducerNext(s, i).consumers == s.consumers
  {
    OneCount(Effect(s, ProducerId(i)));
    hide Ages, Removals;
  }

  /** Taking the mutex makes an operation due; performing it settles that. */
  lemma StepCounts(s: System, pid: Pid)
    requires s.memory.InRange()
    ensures Ages(Effect(s, pid)) + AgeDue(Next(s, pid).manager)
         == AgeDue(s.manager) + if pid == ManagerId && s.manager.pc.AwaitMutex? && s.mutex > 0 then 1 else 0
    ensures Removals(Effect(s, pid)) + Total(Next(s, pid).consumers, RemovalDue)
         == Total(s.consumers, RemovalDue) + if TakesMutex(s, pid) then 1 else 0
  {
    hide Total, ProducerNext, ConsumerNext, ManagerNext, AgeDue, RemovalDue;
    if Enabled(s, pid) {
      hide Effect, Ages, Removals;
      match pid {
        case ProducerId(i) => ProducerCounts(s, i);
        case ConsumerId(i) =>
          ConsumerCounts(s, i);
          TotalUpdate(s.consumers, i, ConsumerNext(s, i).consumers[i], RemovalDue);
        case ManagerId => ManagerCounts(s);
      }
    }
  }

  /** Every round of the manager ages once, and every service of a consumer removes once: the
      ageings of a run are its rounds, and its removals its services, up to those still due at
      either end. */
  lemma {:induction false} RoundsAge(s: System, schedule: seq<Pid>)
    requires s.memory.InRange()
    ensures Ages(Trace(s, schedule)) + AgeDue(Run(s, schedule).manager) == Rounds(s, schedule) + AgeDue(s.manager)
    ensures Removals(Trace(s, schedule)) + Total(Run(s, schedule).consumers, RemovalDue)
         == Services(s, schedule) + Total(s.consumers, RemovalDue)
    decreases |schedule|
  {
    hide Next, Effect, Ages, Removals, AgeDue, RemovalDue, TakesMutex, Total;
    if schedule == [] {
      NoCounts();
    } else {
      var pid, s1 := schedule[0], Next(s, schedule[0]);
      StepCounts(s, pid);
      RoundsAge(s1, schedule[1..]);
      CountsConcat(Effect(s, pid), Trace(s1, schedule[1..]));
    }
  }

  lemma NoCounts()
    ensures Ages([]) == 0 && Removals([]) == 0
  {
  }

  lemma DueBounds(s: System)
    ensures Total(s.consumers, RemovalDue) >= 0
  {
    TotalBounds(s.consumers, RemovalDue);
  }

  /** From any reachable state, a task that is buffered there has been taken after enough rounds
      of the manager and enough services of the consumers, whatever the other processes do in
      between: a normal task at place `index` needs `index + 1` rounds that have aged, and then
      `K` services that have removed. */
  lemma BufferedTaskIsServed(s: System, spot: Spot, t: Task, ageing: seq<Pid>, serving: seq<Pid>)
    requires Inv(s) && Holds(Buffered(s), spot, t)
    requires spot.lane == Normal ==> spot.index + AgeDue(Run(s, ageing).manager) < Rounds(s, ageing)
    requires Capacity(s) + Total(Run(Run(s, ageing), serving).consumers, RemovalDue)
          <= Services(Run(s, ageing), serving)
    ensures FollowAll(Buffered(s), spot, Trace(s, ageing + serving)) == Gone
    ensures Remove(t) in Trace(s, ageing + serving)
  {
    assert s.memory.InRange() && InOrder(s.memory, PhaseOf(s));
    hide Next, Effect, MemoryOk, View, Exclusive, Accounted, Run, Trace;
    hide FollowAll, LegalAll, Holds, Ages, Removals, Total;
    TokensPromise(s);
    RunConcat(s, ageing, serving);
    RunRefines(s, ageing + serving);
    RoundsAge(s, ageing);
    RoundsAge(Run(s, ageing), serving);
    DueBounds(Run(s, ageing));
    NoStarvation(Buffered(s), spot, t, Trace(s, ageing), Trace(Run(s, ageing), serving), Capacity(s));
  }

  // ---------------------------------------------------------------- what the tokens guarantee

  /** One more task counted than buffered while a removal is half done, one fewer while the
      manager has a task in hand. */
  function Miscounted(phase: Phase): int {
    match phase
    case HeadMoved(_) => 1
    case AgeCarrying(_) => -1
    case AgeWritten(_) => -1
    case AgeTailMoved(_) => -1
    case _ => 0
  }

  /** The global token law, for any number of processes: every one of the `K` tokens is in a
      semaphore or with a process, and the two counters together exceed `full` by exactly
      the tasks inserted and not yet posted plus those claimed and not yet removed. */
  lemma TokenLaw(s: System)
    requires Inv(s)
    ensures s.empty + s.full
            + Total(s.producers, Reserved) + Total(s.producers, Unposted)
            + Total(s.consumers, Claimed) + Total(s.consumers, Freed) == Capacity(s)
    ensures s.memory.priority.count + s.memory.normal.count
         == s.full + Total(s.producers, Unposted) + Total(s.consumers, Claimed) + Miscounted(PhaseOf(s))
  {
  }

  /** The slot at the tail holds none of the tasks that the ring counts. */
  predicate TailIsFree(r: Ring) {
    && 0 <= r.count < |r.slots|
    && 0 <= r.tail < |r.slots|
    && forall i :: 0 <= i < r.count ==> Slot(r.head, i, |r.slots|) != r.tail
  }

  /** No insertion and no ageing overwrites a task, and no removal reads an empty ring: the
      unguarded accesses of the critical sections are safe in every reachable state, the
      consumer's `else` branch included. */
  lemma AccessesAreSafe(s: System)
    requires Inv(s)
    ensures forall i :: 0 <= i < |s.producers| && s.producers[i].pc.WriteSlot? ==>
              s.producers[i].todo != [] && TailIsFree(s.memory.Of(s.producers[i].todo[0].lane))
    ensures s.manager.pc.WriteSlot? ==> TailIsFree(s.memory.priority)
    ensures s.manager.pc.CopyOldest? ==> s.memory.normal.count > 0
    ensures forall i :: 0 <= i < |s.consumers| && s.consumers[i].pc.CopyTask? ==>
              s.memory.Of(s.consumers[i].source).count > 0
    ensures forall i, j :: 0 <= i < |s.producers| && 0 <= j < |s.consumers| ==>
              !(ProducerInside(s.producers[i]) && ConsumerInside(s.consumers[j]))
  {
    TokensPromise(s);
    forall i | 0 <= i < |s.producers| && s.producers[i].pc.WriteSlot?
      ensures s.producers[i].todo != [] && TailIsFree(s.memory.Of(s.producers[i].todo[0].lane))
    {
      assert s.holder == Held(ProducerId(i));
      assert Reserved(s.producers[i]) == 1;
    }
    forall i | 0 <= i < |s.consumers| && s.consumers[i].pc.CopyTask?
      ensures s.memory.Of(s.consumers[i].source).count > 0
    {
      assert s.holder == Held(ConsumerId(i));
    }
  }

  // ---------------------------------------------------------------- the manager's monitor

  /** While the manager holds the mutex nobody else touches the rings. */
  lemma {:induction false} OthersLeaveMemory(s: System, schedule: seq<Pid>)
    requires Inv(s) && s.holder == Held(ManagerId) && ManagerId !in schedule
    ensures Inv(Run(s, schedule))
    ensures Run(s, schedule).memory == s.memory
    ensures Run(s, schedule).manager == s.manager && Run(s, schedule).holder == s.holder
    decreases |schedule|
  {
    if schedule != [] {
      OtherLeavesMemory(s, schedule[0]);
      StepRefines(s, schedule[0]);
      hide Next, Inv;
      OthersLeaveMemory(Next(s, schedule[0]), schedule[1..]);
    }
  }

  lemma OtherLeavesMemory(s: System, pid: Pid)
    requires Inv(s) && s.holder == Held(ManagerId) && pid != ManagerId
    ensures Next(s, pid).memory == s.memory
    ensures Next(s, pid).manager == s.manager && Next(s, pid).holder == s.holder
  {
    hide MemoryOk, View;
  }

  /** Tasks inserted and not yet posted, and tasks claimed and not yet removed. */
  function InFlight(s: System): int {
    Total(s.producers, Unposted) + Total(s.consumers, Claimed)
  }

  /** One round of the monitor, from reading `empty` to comparing, with any turns of the other
      processes between its steps. */
  function MonitorReads(s: System, a: seq<Pid>): System
    requires s.memory.InRange()
  {
    Run(Next(s, ManagerId), a)
  }

  /** The monitor's report, exactly: the total it counts exceeds the `full` it read by the
      tasks in flight at the moment of that reading, so the warning appears if and only if
      some were; and what the total and the `empty` it read leave of `K` is held, at that reading,
      by producers that have not inserted yet and consumers that have not posted yet. */
  lemma MonitorLaw(s: System, a: seq<Pid>, b: seq<Pid>, c: seq<Pid>)
    requires Inv(s) && s.manager.pc.ReadEmpty?
    requires ManagerId !in a && ManagerId !in b && ManagerId !in c
    ensures var atFull := MonitorReads(s, a);
            var end := MonitorReads(MonitorReads(MonitorReads(atFull, b), c), []);
            && end.manager.pc.Unlock?
            && end.manager.total - end.manager.fullVal == InFlight(atFull) >= 0
            && (end.manager.warned <==> InFlight(atFull) != 0)
            && end.manager.emptyVal + end.manager.total <= Capacity(s)
            && end.manager.emptyVal + end.manager.total
               + Total(s.producers, Reserved) + Total(s.consumers, Freed) == Capacity(s)
  {
    hide Next, MemoryOk, View, Run, Exclusive, Total;
    EmptyFits(s);
    MonitorStep(s, a);
    var atFull := MonitorReads(s, a);
    FullCounts(atFull);
    MonitorStep(atFull, b);
    var atTotal := MonitorReads(atFull, b);
    MonitorStep(atTotal, c);
    MonitorStep(MonitorReads(atTotal, c), []);
  }

  /** One step of the monitor and the turns of the others up to its next one. */
  lemma MonitorStep(s: System, others: seq<Pid>)
    requires Inv(s) && ManagerId !in others
    requires s.manager.pc in {ReadEmpty, ReadFull, ReadTotal, Compare}
    ensures Inv(MonitorReads(s, others))
    ensures MonitorReads(s, others).memory == s.memory
    ensures MonitorReads(s, others).manager == MonitorLocals(s)
  {
    StepRefines(s, ManagerId);
    OthersLeaveMemory(Next(s, ManagerId), others);
  }

  function MonitorLocals(s: System): Manager {
    var m := s.manager;
    match m.pc
    case ReadEmpty => m.(pc := ReadFull, emptyVal := s.empty)
    case ReadFull => m.(pc := ReadTotal, fullVal := s.full)
    case ReadTotal => m.(pc := Compare, total := s.memory.priority.count + s.memory.normal.count)
    case Compare => m.(pc := ManagerPc.Unlock, warned := m.total != m.fullVal)
    case _ => m
  }

  lemma FullCounts(s: System)
    requires Inv(s) && s.manager.pc.ReadFull?
    ensures s.memory.priority.count + s.memory.normal.count - s.full == InFlight(s) >= 0
  {
    TokenLaw(s);
    TotalBounds(s.producers, Unposted);
    TotalBounds(s.consumers, Claimed);
  }

  lemma EmptyFits(s: System)
    requires Inv(s) && s.manager.pc.ReadEmpty?
    ensures s.memory.priority.count + s.memory.normal.count + s.empty <= Capacity(s)
    ensures s.memory.priority.count + s.memory.normal.count + s.empty
            + Total(s.producers, Reserved) + Total(s.consumers, Freed) == Capacity(s)
  {
    TotalBounds(s.producers, Reserved);
    TotalBounds(s.consumers, Freed);
  }

  function Turns(pid: Pid, n: nat): seq<Pid> {
    if n == 0 then [] else Turns(pid, n - 1) + [pid]
  }

  lemma OneMoreTurn(s: System, pid: Pid, n: nat)
    requires s.memory.InRange()
    ensures Run(s, Turns(pid, n + 1)) == Next(Run(s, Turns(pid, n)), pid)
  {
    RunConcat(s, Turns(pid, n), [pid]);
    assert [pid][1..] == [];
  }

  /** The state after the first `n` turns of the only producer of a task, for `n <= 6`. */
  function Inserting(k: nat, t: Task, n: nat): System
    requires k > 0 && n <= 6
  {
    var s := Init(k, [[t]], 0);
    var inside := 2 <= n <= 5;
    var pc := [AwaitEmpty, ProducerPc.AwaitMutex, ProducerPc.WriteSlot, ProducerPc.MoveTail,
               ProducerPc.RaiseCount, ProducerPc.Unlock, PostFull][n];
    var r := s.memory.priority;
    s.(producers := [Producer(pc, [t])],
       empty := if n >= 1 then k - 1 else k,
       mutex := if inside then 0 else 1,
       holder := if inside then Held(ProducerId(0)) else Free,
       memory := s.memory.(priority := Ring(
         if n >= 3 then r.slots[0 := t] else r.slots, 0, if n >= 4 then 1 % k else 0, if n >= 5 then 1 else 0)))
  }

  lemma InsertingStep(k: nat, t: Task, n: nat)
    requires k > 0 && n < 6 && t.lane == Priority
    ensures Inserting(k, t, n).memory.InRange()
    ensures Next(Inserting(k, t, n), ProducerId(0)) == Inserting(k, t, n + 1)
  {
    NextSlot(0, k);
    var s := Inserting(k, t, n);
    assert s.producers[0 := Inserting(k, t, n + 1).producers[0]] == Inserting(k, t, n + 1).producers;
  }

  lemma {:induction false} InsertsWithoutPosting(k: nat, t: Task, n: nat)
    requires k > 0 && t.lane == Priority && n <= 6
    ensures Run(Init(k, [[t]], 0), Turns(ProducerId(0), n)) == Inserting(k, t, n)
  {
    if n == 0 {
      assert Init(k, [[t]], 0).producers == [Producer(AwaitEmpty, [t])];
    } else {
      InsertsWithoutPosting(k, t, n - 1);
      InsertingStep(k, t, n - 1);
      InitInv(k, [[t]], 0);
      hide Init, Inserting, Next;
      OneMoreTurn(Init(k, [[t]], 0), ProducerId(0), n - 1);
    }
  }

  /** A round of the manager with nothing to age, up to its `n`-th turn, for `n <= 6`. */
  function Monitoring(s: System, n: nat): System
    requires n <= 6
  {
    var m := s.manager;
    var total := s.memory.priority.count + s.memory.normal.count;
    var pc := [ManagerPc.AwaitMutex, TestNormal, ReadEmpty, ReadFull, ReadTotal, Compare, ManagerPc.Unlock][n];
    s.(mutex := if n >= 1 then s.mutex - 1 else s.mutex,
       holder := if n >= 1 then Held(ManagerId) else s.holder,
       manager := Manager(pc, m.agingTask, if n >= 3 then s.empty else m.emptyVal, if n >= 4 then s.full else m.fullVal,
                          if n >= 5 then total else m.total, if n == 6 then total != s.full else m.warned))
  }

  lemma {:induction false} ManagerMonitorsRound(s: System, n: nat)
    requires s.memory.InRange() && s.manager.pc.AwaitMutex? && s.mutex > 0 && s.memory.normal.count == 0 && n <= 6
    ensures Run(s, Turns(ManagerId, n)) == Monitoring(s, n)
  {
    if n > 0 {
      ManagerMonitorsRound(s, n - 1);
      MonitoringStep(s, n - 1);
      hide Next, Monitoring;
      OneMoreTurn(s, ManagerId, n - 1);
    }
  }

  lemma MonitoringStep(s: System, n: nat)
    requires s.memory.InRange() && s.manager.pc.AwaitMutex? && s.mutex > 0 && s.memory.normal.count == 0 && n < 6
    ensures Monitoring(s, n).memory.InRange() && Next(Monitoring(s, n), ManagerId) == Monitoring(s, n + 1)
  {
  }

  lemma MonitoredState(k: nat, t: Task)
    requires k > 0 && t.lane == Priority
    ensures var mid := Inserting(k, t, 6);
            mid.memory.InRange() && mid.manager.pc.AwaitMutex? && mid.mutex > 0 && mid.memory.normal.count == 0
    ensures var end := Monitoring(Inserting(k, t, 6), 6);
            end.manager.warned && InOrder(end.memory, PhaseOf(end)) && Buffered(end) == Queues([t], [])
  {
    NextSlot(0, k);
    var end := Monitoring(Inserting(k, t, 6), 6);
    assert PhaseOf(end) == Rest;
    assert Window(end.memory.priority.slots, 0, 1) == [t];
  }

  /** The monitor warns of an inconsistency in a run in which nothing is inconsistent: a
      producer has inserted its task and left the critical section, but has not posted
      `full` yet.  `MonitorLaw` says exactly when this happens. */
  lemma WarningWithoutFault(k: nat, t: Task) returns (schedule: seq<Pid>)
    requires k > 0 && t.lane == Priority
    ensures var end := Run(Init(k, [[t]], 0), schedule);
            end.manager.warned && Inv(end) && Buffered(end) == Queues([t], [])
  {
    var s0 := Init(k, [[t]], 0);
    InitInv(k, [[t]], 0);
    assert s0.memory.InRange();
    hide *;
    var inserting, warning := Turns(ProducerId(0), 6), Turns(ManagerId, 6);
    schedule := inserting + warning;
    RunConcat(s0, inserting, warning);
    RunRefines(s0, schedule);
    InsertsWithoutPosting(k, t, 6);
    MonitoredState(k, t);
    ManagerMonitorsRound(Inserting(k, t, 6), 6);
  }
}
