/** Whole rounds of lab3/zad1: every order of the processes' steps gets to the same result, after
    the same number of steps, and leaves nothing behind. */
module PipeRuns {
  import opened Integrator
  import opened PipeFork
  import opened Totals

  lemma KeepsRange(s: System, a: Actor)
    requires InRange(s)
    ensures InRange(Next(s, a))
  {
  }

  function Run(s: System, schedule: seq<Actor>): (s': System)
    requires InRange(s)
    ensures InRange(s')
    decreases |schedule|
  {
    if schedule == [] then s
    else
      KeepsRange(s, schedule[0]);
      Run(Next(s, schedule[0]), schedule[1..])
  }

  lemma {:induction false} RunKeeps(s: System, schedule: seq<Actor>)
    requires Inv(s)
    ensures Inv(Run(s, schedule))
    ensures |Run(s, schedule).children| == |s.children| && Run(s, schedule).partials == s.partials
    decreases |schedule|
  {
    hide Next, ParentOk, ChildrenOk, PipesOk, SumsOk;
    if schedule != [] {
      StepKeeps(s, schedule[0]);
      Keeps(s, schedule[0]);
      RunKeeps(Next(s, schedule[0]), schedule[1..]);
    }
  }

  // ---------------------------------------------------------------- remaining work

  function ParentWork(pc: ParentPc, k: nat): int {
    match pc
    case MakePipe(i) => 3 * (k - i) + 3 * k
    case Fork(i) => 3 * (k - i) - 1 + 3 * k
    case CloseWrite(i) => 3 * (k - i) - 2 + 3 * k
    case Read(i) => 3 * (k - i)
    case CloseRead(i) => 3 * (k - i) - 1
    case Wait(i) => 3 * (k - i) - 2
    case Done => 0
  }

  /** A later child has more read ends to close. */
  function ChildWork(c: Child): int {
    match c.pc
    case Unborn => c.id + 4
    case CloseOwnRead => c.id + 4
    case CloseInherited(j) => c.id - j + 3
    case Write => 3
    case CloseWrite => 2
    case Exit => 1
    case _ => 0
  }

  function Work(s: System): int {
    ParentWork(s.parent, |s.children|) + Total(s.children, ChildWork)
  }

  /** Every step, whoever takes it, uses up one unit of work. */
  lemma StepWorks(s: System, a: Actor)
    requires Inv(s)
    ensures Work(Next(s, a)) == Work(s) - if Enabled(s, a) then 1 else 0
  {
    hide Total, InOrder, ParentOk, PipesOk, SumsOk, Held;
    if Enabled(s, a) {
      match a {
        case Parent =>
          if s.parent.Fork? {
            var i := s.parent.i;
            assert ChildOk(s, s.children[i], i);
            TotalUpdate(s.children, i, Next(s, a).children[i], ChildWork);
          }
        case ChildOf(i) =>
          assert ChildOk(s, s.children[i], i);
          if s.children[i].pc.Write? {
            WritesFindAReader(s, i);
          }
          TotalUpdate(s.children, i, Next(s, a).children[i], ChildWork);
      }
    }
  }

  lemma {:induction false} FreshWork(children: seq<Child>)
    requires forall i :: 0 <= i < |children| ==> children[i] == Child(i, Unborn, {})
    ensures 2 * Total(children, ChildWork) == |children| * (|children| + 7)
  {
    var n := |children|;
    if n > 0 {
      FreshWork(children[..n - 1]);
      assert n * (n + 7) == (n - 1) * (n - 1 + 7) + 2 * (n - 1 + 4);
    }
  }

  lemma {:induction false} WorkLeft(children: seq<Child>)
    requires forall i :: 0 <= i < |children| ==> ChildWork(children[i]) >= 0
    ensures Total(children, ChildWork) >= 0
  {
    if children != [] {
      WorkLeft(children[..|children| - 1]);
    }
  }

  lemma WorkIsNatural(s: System)
    requires Inv(s)
    ensures Work(s) >= 0
  {
    hide Total, ParentOk, PipesOk, SumsOk;
    forall i | 0 <= i < |s.children| ensures ChildWork(s.children[i]) >= 0 {
      assert ChildOk(s, s.children[i], i);
    }
    WorkLeft(s.children);
  }

  /** The turns of the schedule that were steps. */
  function Moves(s: System, schedule: seq<Actor>): nat
    requires InRange(s)
    decreases |schedule|
  {
    if schedule == [] then 0
    else
      KeepsRange(s, schedule[0]);
      (if Enabled(s, schedule[0]) then 1 else 0) + Moves(Next(s, schedule[0]), schedule[1..])
  }

  lemma {:induction false} MovesUseUpWork(s: System, schedule: seq<Actor>)
    requires Inv(s)
    ensures Work(Run(s, schedule)) + Moves(s, schedule) == Work(s)
    decreases |schedule|
  {
    hide Work, Next, Enabled, ParentOk, ChildrenOk, PipesOk, SumsOk;
    if schedule != [] {
      StepWorks(s, schedule[0]);
      StepKeeps(s, schedule[0]);
      MovesUseUpWork(Next(s, schedule[0]), schedule[1..]);
    }
  }

  // ---------------------------------------------------------------- the end

  ghost predicate Stuck(s: System)
    requires InRange(s)
  {
    forall a :: !Enabled(s, a)
  }

  /** Nothing is left of the round but its total. */
  predicate Clean(s: System) {
    && s.parentEnds == {} && s.zombies == 0 && s.reaped == |s.children|
    && (forall i :: 0 <= i < |s.children| ==> s.children[i] == Child(i, Exited, {}))
    && (forall i :: 0 <= i < |s.pipes| ==> s.pipes[i] == [])
  }

  lemma {:induction false} AllEnded(children: seq<Child>)
    ensures Total(children, Ended) <= |children|
    ensures Total(children, Ended) == |children| <==> forall i :: 0 <= i < |children| ==> Ended(children[i]) == 1
  {
    if children != [] {
      var n := |children| - 1;
      AllEnded(children[..n]);
      assert forall i :: 0 <= i < n ==> children[i] == children[..n][i];
    }
  }

  lemma DoneIsClean(s: System)
    requires Inv(s) && s.parent.Done?
    ensures Clean(s) && Stuck(s) && s.total == InOrder(s.partials, |s.partials|)
  {
    hide Total, InOrder;
    AllEnded(s.children);
    forall i | 0 <= i < |s.children|
      ensures s.children[i] == Child(i, Exited, {}) && s.pipes[i] == []
    {
      assert ChildOk(s, s.children[i], i) && PipeOk(s, i);
      assert Ended(s.children[i]) == 1;
      assert s.children[i].ends == {};
    }
    assert s.parentEnds == {};
  }

  /** Who waits for what: the parent for the result of the child whose turn it is, or for some child
      to end; a child for nothing at all. */
  lemma WaitsIff(s: System, i: nat)
    requires Inv(s) && i < |s.children|
    ensures !Enabled(s, Parent) <==>
              || s.parent.Done?
              || (s.parent.Read? && !Sent(s.children[s.parent.i].pc))
              || (s.parent.Wait? && Total(s.children, Ended) == s.parent.i)
    ensures !Enabled(s, ChildOf(i)) <==> Born(s.parent, |s.children|) <= i || s.children[i].pc.Exited?
  {
    hide Total, InOrder, ParentOk, PipesOk;
    assert ChildOk(s, s.children[i], i);
    if s.parent.Read? {
      ReadsFindTheResult(s, s.parent.i);
    }
  }

  /** In every reachable state, either the round is over or some process can take a step. */
  lemma StuckIsDone(s: System)
    requires Inv(s)
    ensures Stuck(s) <==> s.parent.Done?
  {
    if s.parent.Done? {
      DoneIsClean(s);
    } else if s.parent.Read? {
      var i := s.parent.i;
      ReadsFindTheResult(s, i);
      assert ChildOk(s, s.children[i], i);
      assert Enabled(s, Parent) || Enabled(s, ChildOf(i));
    } else if s.parent.Wait? {
      SomeoneToWaitFor(s);
    } else {
      assert Enabled(s, Parent);
    }
  }

  lemma SomeoneToWaitFor(s: System)
    requires Inv(s) && s.parent.Wait?
    ensures !Stuck(s)
  {
    hide Total, InOrder, ParentOk, PipesOk;
    if !Enabled(s, Parent) {
      AllEnded(s.children);
      var i :| 0 <= i < |s.children| && Ended(s.children[i]) != 1;
      assert ChildOk(s, s.children[i], i);
      assert Enabled(s, ChildOf(i));
    }
  }

  /** From every reachable state the round can be brought to its end. */
  lemma {:induction false} CanFinish(s: System) returns (schedule: seq<Actor>)
    requires Inv(s)
    ensures Run(s, schedule).parent.Done?
    decreases Work(s)
  {
    hide Next, Enabled, ParentOk, ChildrenOk, PipesOk, SumsOk, Work;
    StuckIsDone(s);
    if s.parent.Done? {
      schedule := [];
    } else {
      var a :| Enabled(s, a);
      StepKeeps(s, a);
      StepWorks(s, a);
      WorkIsNatural(s);
      WorkIsNatural(Next(s, a));
      var rest := CanFinish(Next(s, a));
      schedule := [a] + rest;
      assert schedule[1..] == rest;
    }
  }

  /** Whatever the order of the steps: a round of `k` processes takes `k * (k + 19) / 2` of them
      and no more, it gets stuck nowhere before its end, and at its end the parent's total is the
      sum of the children's results in the order of the slices, with every descriptor closed,
      every pipe drained and every child waited for. */
  lemma EveryRoundAddsUp(s: System, schedule: seq<Actor>)
    requires Init(s)
    ensures var s', k := Run(s, schedule), |s.children|;
            && 2 * Moves(s, schedule) <= k * (k + 19)
            && (Stuck(s') <==> 2 * Moves(s, schedule) == k * (k + 19))
            && (Stuck(s') ==> Clean(s') && s'.parent.Done? && s'.total == InOrder(s.partials, k))
  {
    hide Next, Enabled, ParentOk, ChildrenOk, PipesOk, SumsOk, InOrder, Init;
    InitInv(s);
    var s' := Run(s, schedule);
    RunKeeps(s, schedule);
    MovesUseUpWork(s, schedule);
    WorkIsNatural(s');
    InitialWork(s);
    StuckIsDone(s');
    if s'.parent.Done? {
      DoneIsClean(s');
      CleanHasNoWork(s');
    } else {
      SomeWork(s');
    }
  }

  lemma InitialWork(s: System)
    requires Init(s)
    ensures 2 * Work(s) == |s.children| * (|s.children| + 19)
  {
    hide Total;
    var k := |s.children|;
    FreshWork(s.children);
    assert k * (k + 19) == 12 * k + k * (k + 7);
  }

  lemma CleanHasNoWork(s: System)
    requires Clean(s) && s.parent.Done?
    ensures Work(s) == 0
  {
    hide Total;
    TotalZero(s.children, ChildWork);
  }

  lemma SomeWork(s: System)
    requires Inv(s) && !s.parent.Done?
    ensures Work(s) > 0
  {
    hide Next, Enabled, ParentOk, ChildrenOk, PipesOk, SumsOk, Work;
    StuckIsDone(s);
    var a :| Enabled(s, a);
    StepKeeps(s, a);
    StepWorks(s, a);
    WorkIsNatural(Next(s, a));
  }

  /** A round can begin with any results to compute, and runs to its end. */
  lemma SomeRoundAddsUp(partials: seq<real>) returns (s: System, schedule: seq<Actor>)
    requires partials != []
    ensures Init(s) && s.partials == partials
    ensures Run(s, schedule).parent.Done? && Run(s, schedule).total == InOrder(partials, |partials|)
  {
    var k := |partials|;
    s := System(partials, MakePipe(0), {}, 0.0, 0,
                seq(k, i requires 0 <= i < k => Child(i, Unborn, {})), 0, seq(k, _ => []));
    InitInv(s);
    hide Init, Inv, Run, InOrder;
    schedule := CanFinish(s);
    RunKeeps(s, schedule);
    DoneIsClean(Run(s, schedule));
  }

  // ---------------------------------------------------------------- the integral

  lemma {:induction false} InOrderIsSplitSum(partials: seq<real>, n: nat, k: nat, dx: real)
    requires k > 0 && dx > 0.0 && n <= |partials|
    requires forall i :: 0 <= i < |partials| ==> partials[i] == Partial(i, k, dx)
    ensures InOrder(partials, n) == SplitSum(n, k, dx)
  {
    hide Partial;
    if n > 0 {
      InOrderIsSplitSum(partials, n - 1, k, dx);
    }
  }

  /** A round whose children integrate their slices ends with a total that is independent of the
      schedule and within `4 * k * dx` of the integral, from above. */
  lemma RoundIntegrates(s: System, schedule: seq<Actor>, dx: real, G: real -> real)
    requires Init(s) && dx > 0.0
    requires forall i :: 0 <= i < |s.partials| ==> s.partials[i] == Partial(i, |s.children|, dx)
    requires Run(s, schedule).parent.Done?
    ensures var k, total := |s.children|, Run(s, schedule).total;
            && total == SplitSum(k, k, dx)
            && (Primitive(G) ==> 0.0 <= total - (G(1.0) - G(0.0)) <= k as real * (4.0 * dx))
  {
    hide Next, ParentOk, ChildrenOk, PipesOk, SumsOk, InOrder, Primitive, Partial, SplitSum;
    InitInv(s);
    RunKeeps(s, schedule);
    DoneIsClean(Run(s, schedule));
    InOrderIsSplitSum(s.partials, |s.partials|, |s.children|, dx);
    if Primitive(G) {
      SplitError(G, |s.children|, dx);
    }
  }
}
