/** The task buffer of lab5/zad3 as its users see it: two first-in-first-out queues that
    together hold at most `capacity` tasks.  Producers insert, consumers remove with the
    priority queue first, and the manager ages the oldest normal task into the priority
    queue.  What the shared rings and semaphores do is shown to be this. */
module TaskQueues {
  import opened Totals

  datatype Lane = Priority | Normal

  /** A task carries the lane it was produced for; no queue operation but the insertion
      looks at it, so it stays readable after the task has been aged. */
  datatype Task = Task(text: string, lane: Lane)

  datatype Queues = Queues(priority: seq<Task>, normal: seq<Task>)

  datatype Action = Insert(task: Task) | Remove(task: Task) | Age

  const EMPTY := Queues([], [])

  function Size(q: Queues): nat {
    |q.priority| + |q.normal|
  }

  /** The task a consumer takes: the oldest priority task, or else the oldest normal one. */
  function Head(q: Queues): Task
    requires Size(q) > 0
  {
    if q.priority != [] then q.priority[0] else q.normal[0]
  }

  predicate Legal(q: Queues, a: Action, capacity: nat) {
    match a
    case Insert(_) => Size(q) < capacity
    case Remove(t) => Size(q) > 0 && t == Head(q)
    case Age => true
  }

  function Apply(q: Queues, a: Action): Queues {
    match a
    case Insert(t) =>
      if t.lane == Priority then q.(priority := q.priority + [t]) else q.(normal := q.normal + [t])
    case Remove(_) =>
      if q.priority != [] then q.(priority := q.priority[1..])
      else if q.normal != [] then q.(normal := q.normal[1..])
      else q
    case Age =>
      if q.normal == [] then q else Queues(q.priority + [q.normal[0]], q.normal[1..])
  }

  function ApplyAll(q: Queues, actions: seq<Action>): Queues {
    if actions == [] then q
    else Apply(ApplyAll(q, actions[..|actions| - 1]), actions[|actions| - 1])
  }

  predicate LegalAll(q: Queues, actions: seq<Action>, capacity: nat) {
    actions == [] ||
    (var before := actions[..|actions| - 1];
     LegalAll(q, before, capacity) && Legal(ApplyAll(q, before), actions[|actions| - 1], capacity))
  }

  lemma {:induction false} ApplyConcat(q: Queues, xs: seq<Action>, ys: seq<Action>, capacity: nat)
    ensures ApplyAll(q, xs + ys) == ApplyAll(ApplyAll(q, xs), ys)
    ensures LegalAll(q, xs + ys, capacity) <==>
            LegalAll(q, xs, capacity) && LegalAll(ApplyAll(q, xs), ys, capacity)
  {
    if ys == [] {
      assert xs + ys == xs;
    } else {
      ApplyConcat(q, xs, ys[..|ys| - 1], capacity);
      assert (xs + ys)[..|xs + ys| - 1] == xs + ys[..|ys| - 1];
    }
  }

  /** The two queues never hold more than `capacity` tasks between them. */
  lemma {:induction false} CapacityKept(q: Queues, actions: seq<Action>, capacity: nat)
    requires Size(q) <= capacity && LegalAll(q, actions, capacity)
    ensures Size(ApplyAll(q, actions)) <= capacity
  {
    if actions != [] {
      CapacityKept(q, actions[..|actions| - 1], capacity);
    }
  }

  // ---------------------------------------------------------------- order per lane

  /** The tasks of one lane that an action inserts or removes, and that a run does. */
  function InsertedBy(a: Action, lane: Lane): seq<Task> {
    if a.Insert? && a.task.lane == lane then [a.task] else []
  }

  function RemovedBy(a: Action, lane: Lane): seq<Task> {
    if a.Remove? && a.task.lane == lane then [a.task] else []
  }

  function Inserted(actions: seq<Action>, lane: Lane): seq<Task> {
    if actions == [] then []
    else Inserted(actions[..|actions| - 1], lane) + InsertedBy(actions[|actions| - 1], lane)
  }

  function Removed(actions: seq<Action>, lane: Lane): seq<Task> {
    if actions == [] then []
    else Removed(actions[..|actions| - 1], lane) + RemovedBy(actions[|actions| - 1], lane)
  }

  function OfLane(tasks: seq<Task>, lane: Lane): seq<Task> {
    Select(tasks, (t: Task) => t.lane == lane)
  }

  /** The tasks of a lane still buffered, in the order in which they will leave. */
  function Backlog(q: Queues, lane: Lane): seq<Task> {
    OfLane(q.priority, lane) + OfLane(q.normal, lane)
  }

  ghost predicate NormalPure(q: Queues) {
    forall i :: 0 <= i < |q.normal| ==> q.normal[i].lane == Normal
  }

  lemma OfLaneAppend(tasks: seq<Task>, t: Task, lane: Lane)
    ensures OfLane(tasks + [t], lane) == OfLane(tasks, lane) + if t.lane == lane then [t] else []
  {
    assert (tasks + [t])[..|tasks|] == tasks;
  }

  lemma OfLaneHead(tasks: seq<Task>, lane: Lane)
    requires tasks != []
    ensures OfLane(tasks, lane) == (if tasks[0].lane == lane then [tasks[0]] else []) + OfLane(tasks[1..], lane)
  {
    SelectHead(tasks, (t: Task) => t.lane == lane);
  }

  lemma {:induction false} NoneOfOther(tasks: seq<Task>, lane: Lane)
    requires forall i :: 0 <= i < |tasks| ==> tasks[i].lane != lane
    ensures OfLane(tasks, lane) == []
  {
    if tasks != [] {
      NoneOfOther(tasks[..|tasks| - 1], lane);
    }
  }

  lemma InsertionOrder(q: Queues, t: Task, lane: Lane)
    requires NormalPure(q)
    ensures Backlog(Apply(q, Insert(t)), lane) == Backlog(q, lane) + InsertedBy(Insert(t), lane)
  {
    hide Select;
    var aged, waiting := OfLane(q.priority, lane), OfLane(q.normal, lane);
    var x := InsertedBy(Insert(t), lane);
    if t.lane == Normal {
      OfLaneAppend(q.normal, t, lane);
      assert aged + (waiting + x) == (aged + waiting) + x;
    } else {
      OfLaneAppend(q.priority, t, lane);
      if lane == Priority {
        NoneOfOther(q.normal, lane);
      }
      assert (aged + x) + waiting == (aged + waiting) + x;
    }
  }

  lemma AgeingOrder(q: Queues, lane: Lane)
    ensures Backlog(Apply(q, Age), lane) == Backlog(q, lane)
  {
    if q.normal != [] {
      var h := q.normal[0];
      OfLaneHead(q.normal, lane);
      OfLaneAppend(q.priority, h, lane);
      var x := if h.lane == lane then [h] else [];
      var aged, rest := OfLane(q.priority, lane), OfLane(q.normal[1..], lane);
      assert (aged + x) + rest == aged + (x + rest);
    }
  }

  lemma RemovalOrder(q: Queues, lane: Lane)
    requires Size(q) > 0
    ensures RemovedBy(Remove(Head(q)), lane) + Backlog(Apply(q, Remove(Head(q))), lane) == Backlog(q, lane)
  {
    var aged, waiting := OfLane(q.priority, lane), OfLane(q.normal, lane);
    var x := RemovedBy(Remove(Head(q)), lane);
    if q.priority != [] {
      OfLaneHead(q.priority, lane);
      var rest := OfLane(q.priority[1..], lane);
      assert x + (rest + waiting) == (x + rest) + waiting;
    } else {
      OfLaneHead(q.normal, lane);
      assert aged == [];
      assert x + (aged + OfLane(q.normal[1..], lane)) == aged + waiting;
    }
  }

  /** One action keeps "removed so far, then still buffered" equal to "inserted so far". */
  lemma OrderKept(q: Queues, a: Action, lane: Lane, capacity: nat)
    requires NormalPure(q) && Legal(q, a, capacity)
    ensures NormalPure(Apply(q, a))
    ensures RemovedBy(a, lane) + Backlog(Apply(q, a), lane) == Backlog(q, lane) + InsertedBy(a, lane)
  {
    match a {
      case Insert(t) => InsertionOrder(q, t, lane);
      case Remove(t) => RemovalOrder(q, lane);
      case Age => AgeingOrder(q, lane);
    }
  }

  lemma Splice<T>(out0: seq<T>, out1: seq<T>, start: seq<T>, mid: seq<T>, end: seq<T>, in0: seq<T>, in1: seq<T>)
    requires out0 + mid == start + in0 && out1 + end == mid + in1
    ensures (out0 + out1) + end == start + (in0 + in1)
  {
    calc {
      (out0 + out1) + end;
      out0 + (out1 + end);
      out0 + (mid + in1);
      (out0 + mid) + in1;
      (start + in0) + in1;
      start + (in0 + in1);
    }
  }

  /** Ageing and priority service keep the order within each lane, in every run: what left
      a lane followed by what is still buffered of it is what was buffered at first
      followed by what was inserted since. */
  lemma {:induction false} LaneOrder(q: Queues, actions: seq<Action>, lane: Lane, capacity: nat)
    requires NormalPure(q) && LegalAll(q, actions, capacity)
    ensures NormalPure(ApplyAll(q, actions))
    ensures Removed(actions, lane) + Backlog(ApplyAll(q, actions), lane)
         == Backlog(q, lane) + Inserted(actions, lane)
  {
    if actions == [] {
      assert Backlog(q, lane) + [] == Backlog(q, lane);
    } else {
      var before, a := actions[..|actions| - 1], actions[|actions| - 1];
      var mid := ApplyAll(q, before);
      LaneOrder(q, before, lane, capacity);
      OrderKept(mid, a, lane, capacity);
      Splice(Removed(before, lane), RemovedBy(a, lane), Backlog(q, lane), Backlog(mid, lane),
             Backlog(Apply(mid, a), lane), Inserted(before, lane), InsertedBy(a, lane));
    }
  }

  /** No task is overtaken by a later one of its own lane: from empty queues, the tasks of
      a lane leave in exactly the order in which they were inserted. */
  lemma NeverOvertaken(actions: seq<Action>, lane: Lane, capacity: nat)
    requires LegalAll(EMPTY, actions, capacity)
    ensures Removed(actions, lane) <= Inserted(actions, lane)
    ensures Size(ApplyAll(EMPTY, actions)) == 0 ==> Removed(actions, lane) == Inserted(actions, lane)
  {
    LaneOrder(EMPTY, actions, lane, capacity);
    assert Backlog(EMPTY, lane) == [];
    var end := ApplyAll(EMPTY, actions);
    assert Removed(actions, lane) + Backlog(end, lane) == Inserted(actions, lane);
    if Size(end) == 0 {
      assert end == EMPTY;
    }
  }

  // ---------------------------------------------------------------- starvation bound

  /** Where one particular buffered task is; `Gone` once a consumer has taken it. */
  datatype Spot = At(lane: Lane, index: nat) | Gone

  predicate Holds(q: Queues, spot: Spot, t: Task) {
    match spot
    case At(Priority, i) => i < |q.priority| && q.priority[i] == t
    case At(Normal, i) => i < |q.normal| && q.normal[i] == t
    case Gone => false
  }

  function Follow(q: Queues, spot: Spot, a: Action): Spot {
    match (spot, a)
    case (At(Priority, i), Remove(_)) => if i == 0 then Gone else At(Priority, i - 1)
    case (At(Normal, i), Remove(_)) =>
      if q.priority != [] then spot else if i == 0 then Gone else At(Normal, i - 1)
    case (At(Normal, i), Age) => if i == 0 then At(Priority, |q.priority|) else At(Normal, i - 1)
    case _ => spot
  }

  function FollowAll(q: Queues, spot: Spot, actions: seq<Action>): Spot {
    if actions == [] then spot
    else
      var before := actions[..|actions| - 1];
      Follow(ApplyAll(q, before), FollowAll(q, spot, before), actions[|actions| - 1])
  }

  /** The spot of the task that the next removal takes. */
  function HeadSpot(q: Queues): Spot {
    if q.priority != [] then At(Priority, 0) else At(Normal, 0)
  }

  /** Following a spot follows the task: it stays at its spot, never moves back within a
      lane, and is gone exactly when a consumer removes what is at that very spot. */
  lemma FollowIsTheTask(q: Queues, spot: Spot, t: Task, a: Action, capacity: nat)
    requires Holds(q, spot, t) && Legal(q, a, capacity)
    ensures Follow(q, spot, a) == Gone <==> a.Remove? && spot == HeadSpot(q)
    ensures Follow(q, spot, a) == Gone ==> a == Remove(t)
    ensures Follow(q, spot, a) != Gone ==> Holds(Apply(q, a), Follow(q, spot, a), t)
    ensures spot.lane == Priority && Follow(q, spot, a) != Gone ==>
              Follow(q, spot, a).lane == Priority && Follow(q, spot, a).index <= spot.index
    ensures spot.lane == Normal && Follow(q, spot, a) != Gone && Follow(q, spot, a).lane == Normal ==>
              Follow(q, spot, a).index <= spot.index
  {
  }

  function Ages(actions: seq<Action>): nat {
    if actions == [] then 0
    else Ages(actions[..|actions| - 1]) + if actions[|actions| - 1].Age? then 1 else 0
  }

  function Removals(actions: seq<Action>): nat {
    if actions == [] then 0
    else Removals(actions[..|actions| - 1]) + if actions[|actions| - 1].Remove? then 1 else 0
  }

  /** After `n` rounds of the manager, a normal task is `n` places closer to being aged,
      unless it has been aged or taken already. */
  lemma {:induction false} AgeingPromotes(q: Queues, spot: Spot, t: Task, actions: seq<Action>, capacity: nat)
    requires Holds(q, spot, t) && LegalAll(q, actions, capacity)
    ensures var now := FollowAll(q, spot, actions);
            now != Gone ==> Holds(ApplyAll(q, actions), now, t) &&
                            (now.lane == Normal ==> spot.lane == Normal && now.index + Ages(actions) <= spot.index)
  {
    if actions != [] {
      var before := actions[..|actions| - 1];
      AgeingPromotes(q, spot, t, before, capacity);
      var mid := FollowAll(q, spot, before);
      if mid != Gone {
        FollowIsTheTask(ApplyAll(q, before), mid, t, actions[|actions| - 1], capacity);
      }
    }
  }

  /** After `n` removals, a priority task is `n` places closer to the front. */
  lemma {:induction false} RemovalsDrain(q: Queues, spot: Spot, t: Task, actions: seq<Action>, capacity: nat)
    requires Holds(q, spot, t) && spot.lane == Priority && LegalAll(q, actions, capacity)
    ensures var now := FollowAll(q, spot, actions);
            now != Gone ==> Holds(ApplyAll(q, actions), now, t) && now.lane == Priority &&
                            now.index + Removals(actions) <= spot.index
  {
    if actions != [] {
      var before := actions[..|actions| - 1];
      RemovalsDrain(q, spot, t, before, capacity);
      var mid := FollowAll(q, spot, before);
      if mid != Gone {
        FollowIsTheTask(ApplyAll(q, before), mid, t, actions[|actions| - 1], capacity);
      }
    }
  }

  lemma {:induction false} FollowConcat(q: Queues, spot: Spot, xs: seq<Action>, ys: seq<Action>, capacity: nat)
    ensures FollowAll(q, spot, xs + ys) == FollowAll(ApplyAll(q, xs), FollowAll(q, spot, xs), ys)
  {
    if ys == [] {
      assert xs + ys == xs;
    } else {
      var before := ys[..|ys| - 1];
      FollowConcat(q, spot, xs, before, capacity);
      ApplyConcat(q, xs, before, capacity);
      assert (xs + ys)[..|xs + ys| - 1] == xs + before;
    }
  }

  lemma {:induction false} GoneStaysGone(q: Queues, actions: seq<Action>)
    ensures FollowAll(q, Gone, actions) == Gone
  {
    if actions != [] {
      GoneStaysGone(q, actions[..|actions| - 1]);
    }
  }

  /** A task that is gone has been taken: at turn `n` it was at the head and a consumer removed it. */
  lemma {:induction false} GoneWasTaken(q: Queues, spot: Spot, t: Task, actions: seq<Action>, capacity: nat)
    returns (n: nat)
    requires Holds(q, spot, t) && LegalAll(q, actions, capacity)
    requires FollowAll(q, spot, actions) == Gone
    ensures n < |actions| && actions[n] == Remove(t)
    ensures FollowAll(q, spot, actions[..n]) == HeadSpot(ApplyAll(q, actions[..n]))
    ensures FollowAll(q, spot, actions[..n + 1]) == Gone
  {
    n := |actions| - 1;
    var before := actions[..n];
    if FollowAll(q, spot, before) == Gone {
      n := GoneWasTaken(q, spot, t, before, capacity);
      assert before[..n] == actions[..n] && before[..n + 1] == actions[..n + 1];
    } else {
      AgeingPromotes(q, spot, t, before, capacity);
      FollowIsTheTask(ApplyAll(q, before), FollowAll(q, spot, before), t, actions[n], capacity);
      assert actions[..n + 1] == actions;
    }
  }

  /** The starvation bound.  A task at place `index` of the normal queue is taken once the
      manager has been round `index + 1` times and the consumers have then removed
      `capacity` tasks: its removal is one of the actions, whatever is inserted, removed or
      aged in between.  A task in the priority queue does not need the manager. */
  lemma NoStarvation(q: Queues, spot: Spot, t: Task, ageing: seq<Action>, serving: seq<Action>, capacity: nat)
    requires Size(q) <= capacity && Holds(q, spot, t)
    requires LegalAll(q, ageing + serving, capacity)
    requires spot.lane == Normal ==> spot.index < Ages(ageing)
    requires capacity <= Removals(serving)
    ensures FollowAll(q, spot, ageing + serving) == Gone
    ensures Remove(t) in ageing + serving
  {
    ApplyConcat(q, ageing, serving, capacity);
    FollowConcat(q, spot, ageing, serving, capacity);
    AgeingPromotes(q, spot, t, ageing, capacity);
    CapacityKept(q, ageing, capacity);
    var mid := FollowAll(q, spot, ageing);
    if mid == Gone {
      GoneStaysGone(ApplyAll(q, ageing), serving);
    } else {
      RemovalsDrain(ApplyAll(q, ageing), mid, t, serving, capacity);
    }
    var n := GoneWasTaken(q, spot, t, ageing + serving, capacity);
  }
}
