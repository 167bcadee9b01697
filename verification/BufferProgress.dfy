/** The lab5/zad3 processes cannot deadlock, and once the producers have run out of tasks
    every task has been taken by a consumer exactly once. */
module BufferProgress {
  import opened BoundedBuffer
  import opened BufferRuns
  import opened CriticalSections
  import opened TaskQueues
  import opened Totals

  // ---------------------------------------------------------------- remaining work

  function ProducerSteps(pc: ProducerPc): int {
    match pc
    case AwaitEmpty => 0
    case AwaitMutex => 1
    case WriteSlot => 2
    case MoveTail => 3
    case RaiseCount => 4
    case Unlock => 5
    case PostFull => 6
  }

  /** A task costs its producer seven steps and, by way of the `full` token, a consumer eight. */
  function ProducerWork(p: Producer): int {
    15 * |p.todo| - ProducerSteps(p.pc)
  }

  function ConsumerWork(c: Consumer): int {
    match c.pc
    case AwaitFull => 0
    case AwaitMutex => 7
    case TestPriority => 6
    case CopyTask => 5
    case MoveHead => 4
    case LowerCount => 3
    case Unlock => 2
    case PostEmpty => 1
  }

  /** The number of producer and consumer steps still to come. */
  function Work(s: System): int {
    Total(s.producers, ProducerWork) + 8 * s.full + Total(s.consumers, ConsumerWork)
  }

  /** The steps that the manager needs to leave its critical section. */
  function ManagerLeft(m: Manager): nat {
    match m.pc
    case AwaitMutex => 0
    case TestNormal => 12
    case CopyOldest => 11
    case MoveHead => 10
    case LowerCount => 9
    case WriteSlot => 8
    case MoveTail => 7
    case RaiseCount => 6
    case ReadEmpty => 5
    case ReadFull => 4
    case ReadTotal => 3
    case Compare => 2
    case Unlock => 1
  }

  /** Every step of a producer or a consumer uses up exactly one unit of work. */
  lemma ProducerWorks(s: System, i: nat)
    requires s.memory.InRange() && Enabled(s, ProducerId(i))
    ensures Work(ProducerNext(s, i)) == Work(s) - 1
  {
    hide Total;
    TotalUpdate(s.producers, i, ProducerNext(s, i).producers[i], ProducerWork);
  }

  lemma ConsumerWorks(s: System, i: nat)
    requires s.memory.InRange() && Enabled(s, ConsumerId(i))
    ensures Work(ConsumerNext(s, i)) == Work(s) - 1
  {
    hide Total;
    TotalUpdate(s.consumers, i, ConsumerNext(s, i).consumers[i], ConsumerWork);
  }

  lemma StepWorks(s: System, pid: Pid)
    requires s.memory.InRange()
    ensures Work(Next(s, pid)) == Work(s) - if Enabled(s, pid) && pid != ManagerId then 1 else 0
    ensures |Next(s, pid).consumers| == |s.consumers|
  {
    hide Total;
    if Enabled(s, pid) {
      match pid {
        case ProducerId(i) => ProducerWorks(s, i);
        case ConsumerId(i) => ConsumerWorks(s, i);
        case ManagerId =>
      }
    }
  }

  /** The turns of the schedule in which a producer or a consumer moved. */
  function WorkerMoves(s: System, schedule: seq<Pid>): nat
    requires s.memory.InRange()
    decreases |schedule|
  {
    if schedule == [] then 0
    else (if Enabled(s, schedule[0]) && schedule[0] != ManagerId then 1 else 0)
         + WorkerMoves(Next(s, schedule[0]), schedule[1..])
  }

  lemma {:induction false} MovesUseUpWork(s: System, schedule: seq<Pid>)
    requires s.memory.InRange()
    ensures Work(Run(s, schedule)) + WorkerMoves(s, schedule) == Work(s)
    decreases |schedule|
  {
    hide Work, Next, Enabled;
    if schedule != [] {
      StepWorks(s, schedule[0]);
      MovesUseUpWork(Next(s, schedule[0]), schedule[1..]);
    }
  }

  lemma WorkIsNatural(s: System)
    requires Inv(s)
    ensures 0 <= Total(s.producers, ProducerWork) && 0 <= Total(s.consumers, ConsumerWork)
    ensures Work(s) >= 0
  {
    hide MemoryOk, View;
    ProducerWorkBounds(s.producers);
    TotalBounds(s.consumers, ConsumerWork);
  }

  lemma {:induction false} ProducerWorkBounds(ps: seq<Producer>)
    requires forall i :: 0 <= i < |ps| ==> (ps[i].todo == [] ==> ps[i].pc == AwaitEmpty)
    ensures 0 <= Total(ps, ProducerWork)
    ensures Total(ps, ProducerWork) == 0 ==> forall i :: 0 <= i < |ps| ==> ps[i].todo == []
  {
    if ps != [] {
      ProducerWorkBounds(ps[..|ps| - 1]);
      assert forall i :: 0 <= i < |ps| - 1 ==> ps[i] == ps[..|ps| - 1][i];
    }
  }

  // ---------------------------------------------------------------- deadlock freedom

  /** Who waits for what: a producer only for a place or for the mutex, a consumer only for a task
      or for the mutex, the manager only for the mutex; and the mutex is taken exactly while
      somebody is inside a critical section. */
  lemma WaitsIff(s: System, i: nat)
    requires Inv(s)
    ensures i < |s.producers| ==>
              (!Enabled(s, ProducerId(i)) <==>
                var p := s.producers[i];
                || p.todo == []
                || (p.pc.AwaitEmpty? && s.empty == 0)
                || (p.pc.AwaitMutex? && s.holder != Free))
    ensures i < |s.consumers| ==>
              (!Enabled(s, ConsumerId(i)) <==>
                var c := s.consumers[i];
                || (c.pc.AwaitFull? && s.full == 0)
                || (c.pc.AwaitMutex? && s.holder != Free))
    ensures !Enabled(s, ManagerId) <==> s.manager.pc.AwaitMutex? && s.holder != Free
  {
    hide MemoryOk, View, Total;
  }

  /** As long as there is work left and somebody to consume, some producer or consumer can
      move, or the manager is inside its critical section and can. */
  lemma NoDeadlock(s: System) returns (pid: Pid)
    requires Inv(s) && Work(s) > 0 && |s.consumers| > 0
    ensures Enabled(s, pid)
    ensures pid == ManagerId ==> s.holder == Held(ManagerId)
  {
    hide MemoryOk, View, Total;
    if s.holder != Free {
      pid := s.holder.pid;
      HolderMoves(s);
    } else if i: nat :| i < |s.producers| && s.producers[i].pc != AwaitEmpty {
      pid := ProducerId(i);
    } else if j: nat :| j < |s.consumers| && s.consumers[j].pc != AwaitFull {
      pid := ConsumerId(j);
    } else if s.full > 0 {
      pid := ConsumerId(0);
    } else {
      TotalZero(s.producers, Reserved);
      TotalZero(s.producers, Unposted);
      TotalZero(s.consumers, Claimed);
      TotalZero(s.consumers, Freed);
      TotalZero(s.consumers, ConsumerWork);
      var i := TotalWitness(s.producers, ProducerWork);
      pid := ProducerId(i);
      RoomLeft(s);
    }
  }

  lemma HolderMoves(s: System)
    requires Inv(s) && s.holder != Free
    ensures Enabled(s, s.holder.pid)
  {
    hide MemoryOk, View, Total;
    match s.holder.pid {
      case ProducerId(i) => 
      case ConsumerId(i) =>
      case ManagerId =>
    }
  }

  lemma RoomLeft(s: System)
    requires Inv(s) && s.full == 0
    requires Total(s.producers, Reserved) == 0 && Total(s.producers, Unposted) == 0
    requires Total(s.consumers, Claimed) == 0 && Total(s.consumers, Freed) == 0
    ensures s.empty > 0
  {
    hide Total;
  }

  /** From every reachable state all the work can be finished, in no more turns than there is
      work plus what the manager needs to leave its critical section. */
  lemma {:induction false} CanFinish(s: System) returns (schedule: seq<Pid>)
    requires Inv(s) && |s.consumers| > 0
    ensures Work(Run(s, schedule)) == 0
    ensures |schedule| <= Work(s) + ManagerLeft(s.manager)
    decreases Work(s) + ManagerLeft(s.manager)
  {
    WorkIsNatural(s);
    if Work(s) == 0 {
      schedule := [];
    } else {
      var pid := NoDeadlock(s);
      StepWorks(s, pid);
      ManagerLeaves(s, pid);
      StepRefines(s, pid);
      WorkIsNatural(Next(s, pid));
      hide Inv, Next, Work, ManagerLeft;
      var rest := CanFinish(Next(s, pid));
      schedule := [pid] + rest;
      assert schedule[1..] == rest;
    }
  }

  lemma ManagerLeaves(s: System, pid: Pid)
    requires Inv(s) && Enabled(s, pid) && (pid == ManagerId ==> s.holder == Held(ManagerId))
    ensures ManagerLeft(Next(s, pid).manager) <= ManagerLeft(s.manager) - if pid == ManagerId then 1 else 0
  {
    hide MemoryOk, View, Total;
  }

  /** The manager inside its critical section can finish its round on its own. */
  lemma {:induction false} ManagerFinishes(s: System) returns (schedule: seq<Pid>)
    requires Inv(s) && s.holder == Held(ManagerId)
    ensures Run(s, schedule).manager.pc.AwaitMutex?
    ensures Rounds(s, schedule) == 0
    decreases ManagerLeft(s.manager)
  {
    assert s.memory.InRange();
    HolderMoves(s);
    ManagerLeaves(s, ManagerId);
    ManagerInside(s);
    StepRefines(s, ManagerId);
    hide Inv, Next, ManagerLeft, Enabled;
    var s1 := Next(s, ManagerId);
    var rest := [];
    if s1.holder == Held(ManagerId) {
      rest := ManagerFinishes(s1);
    }
    schedule := [ManagerId] + rest;
    assert schedule[1..] == rest;
  }

  lemma ManagerInside(s: System)
    requires Inv(s) && s.holder == Held(ManagerId)
    ensures !s.manager.pc.AwaitMutex?
    ensures Next(s, ManagerId).holder == Held(ManagerId) || Next(s, ManagerId).manager.pc.AwaitMutex?
  {
    hide MemoryOk, View, Total;
  }

  /** Whoever is inside a critical section can leave it without the manager starting a round. */
  lemma {:induction false} HolderLeaves(s: System) returns (schedule: seq<Pid>)
    requires Inv(s) && s.holder != Free && s.holder != Held(ManagerId)
    ensures Run(s, schedule).holder == Free && Run(s, schedule).manager == s.manager
    ensures Rounds(s, schedule) == 0
    decreases Work(s)
  {
    assert s.memory.InRange();
    var pid := s.holder.pid;
    HolderMoves(s);
    StepWorks(s, pid);
    WorkIsNatural(s);
    HolderStays(s);
    StepRefines(s, pid);
    WorkIsNatural(Next(s, pid));
    hide Inv, Next, Work, Enabled;
    var s1 := Next(s, pid);
    var rest := [];
    if s1.holder != Free {
      rest := HolderLeaves(s1);
    }
    schedule := [pid] + rest;
    assert schedule[1..] == rest;
  }

  lemma HolderStays(s: System)
    requires Inv(s) && s.holder != Free && s.holder != Held(ManagerId)
    ensures Next(s, s.holder.pid).holder in {Free, s.holder} && Next(s, s.holder.pid).manager == s.manager
  {
    hide MemoryOk, View, Total;
  }

  /** From every reachable state a whole round of the manager can be reached: it ages. */
  lemma ManagerCanAge(s: System) returns (schedule: seq<Pid>)
    requires Inv(s) && s.manager.pc.AwaitMutex?
    ensures Run(s, schedule).manager.pc.AwaitMutex?
    ensures Rounds(s, schedule) == 1 && Ages(Trace(s, schedule)) == 1
  {
    assert s.memory.InRange() && s.holder != Held(ManagerId);
    var first := [];
    if s.holder != Free {
      first := HolderLeaves(s);
    }
    RunRefines(s, first);
    var s1 := Run(s, first);
    ManagerEnters(s1);
    StepRefines(s1, ManagerId);
    var last := ManagerFinishes(Next(s1, ManagerId));
    hide Inv, Next, Enabled;
    RoundsConcat(s, first, [ManagerId] + last);
    assert ([ManagerId] + last)[1..] == last;
    RunConcat(s, first, [ManagerId] + last);
    schedule := first + ([ManagerId] + last);
    RoundsAge(s, schedule);
  }

  lemma ManagerEnters(s: System)
    requires Inv(s) && s.holder == Free && s.manager.pc.AwaitMutex?
    ensures s.mutex > 0 && Next(s, ManagerId).holder == Held(ManagerId)
  {
    hide MemoryOk, View, Total;
  }

  lemma {:induction false} RoundsConcat(s: System, xs: seq<Pid>, ys: seq<Pid>)
    requires s.memory.InRange()
    ensures Rounds(s, xs + ys) == Rounds(s, xs) + Rounds(Run(s, xs), ys)
    decreases |xs|
  {
    hide Next;
    if xs == [] {
      assert xs + ys == ys;
    } else {
      RoundsConcat(Next(s, xs[0]), xs[1..], ys);
      assert (xs + ys)[1..] == xs[1..] + ys;
      assert (xs + ys)[0] == xs[0];
    }
  }

  // ---------------------------------------------------------------- every task exactly once

  /** The tasks that a producer has still to insert. */
  function ToInsert(p: Producer): multiset<Task> {
    multiset(if Unposted(p) == 1 && p.todo != [] then p.todo[1..] else p.todo)
  }

  function AllToInsert(ps: seq<Producer>): multiset<Task> {
    if ps == [] then multiset{} else AllToInsert(ps[..|ps| - 1]) + ToInsert(ps[|ps| - 1])
  }

  lemma Swap<T>(a: multiset<T>, b: multiset<T>, last: multiset<T>, x: multiset<T>, y: multiset<T>)
    requires b + x == a + y
    ensures (b + last) + x == (a + last) + y
  {
    assert (b + last) + x == (b + x) + last;
  }

  lemma {:induction false} AllToInsertUpdate(ps: seq<Producer>, i: nat, p: Producer)
    requires i < |ps|
    ensures AllToInsert(ps[i := p]) + ToInsert(ps[i]) == AllToInsert(ps) + ToInsert(p)
  {
    var n := |ps| - 1;
    if i == n {
      assert ps[i := p][..n] == ps[..n];
    } else {
      AllToInsertUpdate(ps[..n], i, p);
      assert ps[i := p][..n] == ps[..n][i := p];
      hide ToInsert;
      Swap(AllToInsert(ps[..n]), AllToInsert(ps[..n][i := p]), ToInsert(ps[n]), ToInsert(ps[i]), ToInsert(p));
    }
  }

  function InsertedTasks(actions: seq<Action>): multiset<Task> {
    multiset(Inserted(actions, Priority)) + multiset(Inserted(actions, Normal))
  }

  lemma {:induction false} InsertedConcat(xs: seq<Action>, ys: seq<Action>, lane: Lane)
    ensures Inserted(xs + ys, lane) == Inserted(xs, lane) + Inserted(ys, lane)
  {
    if ys == [] {
      assert xs + ys == xs;
    } else {
      var n := |ys| - 1;
      InsertedConcat(xs, ys[..n], lane);
      LastInserted(xs + ys, lane);
      LastInserted(ys, lane);
      hide Inserted, InsertedBy;
      assert (xs + ys)[..|xs + ys| - 1] == xs + ys[..n];
      Associative(Inserted(xs, lane), Inserted(ys[..n], lane), InsertedBy(ys[n], lane));
    }
  }

  lemma LastInserted(xs: seq<Action>, lane: Lane)
    requires xs != []
    ensures Inserted(xs, lane) == Inserted(xs[..|xs| - 1], lane) + InsertedBy(xs[|xs| - 1], lane)
  {
  }

  lemma Associative<T>(a: seq<T>, b: seq<T>, c: seq<T>)
    ensures (a + b) + c == a + (b + c)
  {
  }

  lemma OneInsertedInLane(e: seq<Action>, lane: Lane)
    requires |e| == 1
    ensures Inserted(e, lane) == InsertedBy(e[0], lane)
  {
    assert e[..0] == [];
  }

  lemma OneInserted(e: seq<Action>)
    requires |e| <= 1
    ensures InsertedTasks(e) == if e != [] && e[0].Insert? then multiset{e[0].task} else multiset{}
  {
    if e != [] {
      OneInsertedInLane(e, Priority);
      OneInsertedInLane(e, Normal);
      hide Inserted;
    }
  }

  lemma ProducerMoves(s: System, i: nat)
    requires s.memory.InRange() && Enabled(s, ProducerId(i))
    ensures var p, p' := s.producers[i], ProducerNext(s, i).producers[i];
            && p.todo != []
            && (p.pc.PostFull? ==> p' == Producer(AwaitEmpty, p.todo[1..]))
            && (!p.pc.PostFull? ==> p'.todo == p.todo)
            && (p.pc.RaiseCount? ==> Unposted(p) == 0 && Unposted(p') == 1)
            && (!p.pc.RaiseCount? && !p.pc.PostFull? ==> Unposted(p') == Unposted(p))
  {
  }

  lemma ProducerInserts(s: System, i: nat)
    requires s.memory.InRange() && Enabled(s, ProducerId(i))
    ensures ToInsert(s.producers[i])
         == ToInsert(ProducerNext(s, i).producers[i])
            + if s.producers[i].pc.RaiseCount? then multiset{s.producers[i].todo[0]} else multiset{}
  {
    ProducerMoves(s, i);
    var p, p' := s.producers[i], ProducerNext(s, i).producers[i];
    hide ProducerNext, Enabled;
    if p.pc.RaiseCount? {
      HeadAndRest(p.todo);
    } else {
      assert ToInsert(p') == ToInsert(p);
    }
  }

  lemma StepInserts(s: System, pid: Pid)
    requires s.memory.InRange()
    ensures AllToInsert(Next(s, pid).producers) + InsertedTasks(Effect(s, pid)) == AllToInsert(s.producers)
  {
    hide InsertedTasks, AllToInsert, ToInsert;
    OneInserted(Effect(s, pid));
    if Enabled(s, pid) && pid.ProducerId? {
      var p' := ProducerNext(s, pid.i).producers[pid.i];
      ProducerInserts(s, pid.i);
      AllToInsertUpdate(s.producers, pid.i, p');
      Cancel(AllToInsert(s.producers), AllToInsert(s.producers[pid.i := p']), ToInsert(p'),
             InsertedTasks(Effect(s, pid)));
    }
  }

  lemma Cancel<T>(a: multiset<T>, b: multiset<T>, y: multiset<T>, e: multiset<T>)
    requires b + (y + e) == a + y
    ensures b + e == a
  {
    assert forall t :: b[t] + y[t] + e[t] == (b + (y + e))[t] == (a + y)[t] == a[t] + y[t];
  }

  lemma {:induction false} InsertedAreTaken(s: System, schedule: seq<Pid>)
    requires Inv(s)
    ensures AllToInsert(Run(s, schedule).producers) + InsertedTasks(Trace(s, schedule)) == AllToInsert(s.producers)
    decreases |schedule|
  {
    if schedule != [] {
      var s1 := Next(s, schedule[0]);
      StepInserts(s, schedule[0]);
      StepRefines(s, schedule[0]);
      hide Inv, Next, Effect, AllToInsert;
      InsertedAreTaken(s1, schedule[1..]);
      InsertedConcat(Effect(s, schedule[0]), Trace(s1, schedule[1..]), Priority);
      InsertedConcat(Effect(s, schedule[0]), Trace(s1, schedule[1..]), Normal);
    }
  }

  function AllJobs(jobs: seq<seq<Task>>): multiset<Task> {
    if jobs == [] then multiset{} else AllJobs(jobs[..|jobs| - 1]) + multiset(jobs[|jobs| - 1])
  }

  function JobCount(jobs: seq<seq<Task>>): nat {
    if jobs == [] then 0 else JobCount(jobs[..|jobs| - 1]) + |jobs[|jobs| - 1]|
  }

  lemma {:induction false} JobsOfInit(ps: seq<Producer>, jobs: seq<seq<Task>>)
    requires |ps| == |jobs| && forall i :: 0 <= i < |ps| ==> ps[i] == Producer(AwaitEmpty, jobs[i])
    ensures AllToInsert(ps) == AllJobs(jobs)
    ensures Total(ps, ProducerWork) == 15 * JobCount(jobs)
  {
    if ps != [] {
      JobsOfInit(ps[..|ps| - 1], jobs[..|jobs| - 1]);
    }
  }

  /** What a run that has finished its work has achieved. */
  lemma FinishedState(s: System)
    requires Inv(s) && Work(s) == 0
    ensures Buffered(s) == EMPTY && s.empty == Capacity(s) && s.full == 0
    ensures AllToInsert(s.producers) == multiset{}
  {
    WorkIsNatural(s);
    ProducerWorkBounds(s.producers);
    TotalBounds(s.consumers, ConsumerWork);
    TotalZero(s.producers, Unposted);
    TotalZero(s.producers, Reserved);
    TotalZero(s.consumers, Claimed);
    TotalZero(s.consumers, Freed);
    NothingToInsert(s.producers);
  }

  lemma {:induction false} NothingToInsert(ps: seq<Producer>)
    requires forall i :: 0 <= i < |ps| ==> ps[i].todo == []
    ensures AllToInsert(ps) == multiset{}
  {
    if ps != [] {
      NothingToInsert(ps[..|ps| - 1]);
    }
  }

  /** Total correctness of the bounded buffer.  In every run, for any `K`, any number of
      processes and any lists of tasks, the producers and consumers together make at most
      fifteen moves per task; once they have made them all, the consumers have taken
      exactly the produced tasks, each once, those of each lane in insertion order, and
      every place is free again. */
  lemma EveryTaskServedOnce(k: nat, jobs: seq<seq<Task>>, consumers: nat, schedule: seq<Pid>)
    requires k > 0
    ensures var s := Init(k, jobs, consumers);
            var end, trace := Run(s, schedule), Trace(s, schedule);
            WorkerMoves(s, schedule) <= 15 * JobCount(jobs) &&
            (WorkerMoves(s, schedule) == 15 * JobCount(jobs) ==>
               && multiset(Removed(trace, Priority)) + multiset(Removed(trace, Normal)) == AllJobs(jobs)
               && Removed(trace, Priority) == Inserted(trace, Priority)
               && Removed(trace, Normal) == Inserted(trace, Normal)
               && end.empty == k && end.full == 0)
  {
    var s := Init(k, jobs, consumers);
    var end, trace := Run(s, schedule), Trace(s, schedule);
    InitInv(k, jobs, consumers);
    JobsOfInit(s.producers, jobs);
    TotalZero(s.consumers, ConsumerWork);
    assert Work(s) == 15 * JobCount(jobs);
    MovesUseUpWork(s, schedule);
    RunRefines(s, schedule);
    WorkIsNatural(end);
    InsertedAreTaken(s, schedule);
    hide Inv, Init, Run, Trace, Work, WorkerMoves, AllToInsert, AllJobs, JobCount, Inserted, Removed;
    if Work(end) == 0 {
      FinishedState(end);
      NeverOvertaken(trace, Priority, k);
      NeverOvertaken(trace, Normal, k);
    }
  }

  /** And with one consumer there is a run in which they make them all. */
  lemma SomeRunServesAll(k: nat, jobs: seq<seq<Task>>, consumers: nat) returns (schedule: seq<Pid>)
    requires k > 0 && consumers > 0
    ensures WorkerMoves(Init(k, jobs, consumers), schedule) == 15 * JobCount(jobs)
  {
    var s := Init(k, jobs, consumers);
    InitInv(k, jobs, consumers);
    JobsOfInit(s.producers, jobs);
    TotalZero(s.consumers, ConsumerWork);
    assert s.full == 0 && s.memory.InRange();
    hide Init, Inv, Run, WorkerMoves, Total, JobCount, ProducerWork, ConsumerWork;
    schedule := CanFinish(s);
    MovesUseUpWork(s, schedule);
  }
}
