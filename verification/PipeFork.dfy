/** One round of lab3/zad1: the parent forks `k` children, each with a pipe of its own, and adds
    up what they send. Every system call is one step, and any process may take the next one. */
module PipeFork {
  import opened Totals

  // ---------------------------------------------------------------- state

  /** The two ends of pipe `pipe`, as open descriptors. */
  datatype End = ReadEnd(pipe: nat) | WriteEnd(pipe: nat)

  datatype ParentPc =
    | MakePipe(i: nat) | Fork(i: nat) | CloseWrite(i: nat)
    | Read(i: nat) | CloseRead(i: nat) | Wait(i: nat)
    | Done

  datatype ChildPc =
    | Unborn
    | CloseOwnRead | CloseInherited(j: nat) | Write | CloseWrite | Exit
    | Exited
    | Killed

  datatype Child = Child(id: nat, pc: ChildPc, ends: set<End>)

  /** `partials[i]` is the result that child `i` computes; `zombies` counts the children that
      have ended and have not been waited for. */
  datatype System = System(
    partials: seq<real>,
    parent: ParentPc,
    parentEnds: set<End>,
    total: real,
    reaped: nat,
    children: seq<Child>,
    zombies: nat,
    pipes: seq<seq<real>>)

  datatype Actor = Parent | ChildOf(i: nat)

  predicate Init(s: System) {
    && s.parent == MakePipe(0) && s.parentEnds == {}
    && s.total == 0.0 && s.reaped == 0 && s.zombies == 0
    && |s.partials| == |s.children| == |s.pipes| > 0
    && (forall i :: 0 <= i < |s.children| ==> s.children[i] == Child(i, Unborn, {}))
    && (forall i :: 0 <= i < |s.pipes| ==> s.pipes[i] == [])
  }

  // ---------------------------------------------------------------- steps

  /** Some process has this end open. */
  predicate Held(s: System, end: End) {
    end in s.parentEnds || exists i :: 0 <= i < |s.children| && end in s.children[i].ends
  }

  predicate InRange(s: System) {
    && |s.partials| == |s.children| == |s.pipes|
    && (!s.parent.Done? ==> s.parent.i < |s.children|)
  }

  /** The actor has a step to take. A read blocks on an empty pipe that somebody can still write
      to; a wait blocks until some child has ended. */
  predicate Enabled(s: System, a: Actor)
    requires InRange(s)
  {
    match a
    case Parent =>
      (match s.parent
       case Read(i) => s.pipes[i] != [] || !Held(s, WriteEnd(i))
       case Wait(_) => s.zombies > 0
       case Done => false
       case _ => true)
    case ChildOf(i) =>
      i < |s.children| && !s.children[i].pc.Unborn? && !s.children[i].pc.Exited? && !s.children[i].pc.Killed?
  }

  function ParentNext(s: System): System
    requires InRange(s) && Enabled(s, Parent)
  {
    var k := |s.children|;
    match s.parent
    case MakePipe(i) =>
      s.(parent := Fork(i), parentEnds := s.parentEnds + {ReadEnd(i), WriteEnd(i)})
    case Fork(i) =>
      s.(parent := ParentPc.CloseWrite(i), children := s.children[i := Child(i, CloseOwnRead, s.parentEnds)])
    case CloseWrite(i) =>
      s.(parent := if i + 1 < k then MakePipe(i + 1) else Read(0), parentEnds := s.parentEnds - {WriteEnd(i)})
    case Read(i) =>
      // an empty pipe without writers reads as end of file, which adds nothing
      if s.pipes[i] == [] then s.(parent := CloseRead(i))
      else s.(parent := CloseRead(i), total := s.total + s.pipes[i][0], pipes := s.pipes[i := s.pipes[i][1..]])
    case CloseRead(i) =>
      s.(parent := Wait(i), parentEnds := s.parentEnds - {ReadEnd(i)})
    case Wait(i) =>
      s.(parent := if i + 1 < k then Read(i + 1) else Done, zombies := s.zombies - 1, reaped := s.reaped + 1)
  }

  /** Writing to a pipe that nobody can read kills the writer. */
  function ChildMove(s: System, c: Child): Child {
    match c.pc
    case CloseOwnRead =>
      c.(pc := if c.id == 0 then Write else CloseInherited(0), ends := c.ends - {ReadEnd(c.id)})
    case CloseInherited(j) =>
      c.(pc := if j + 1 < c.id then CloseInherited(j + 1) else Write, ends := c.ends - {ReadEnd(j)})
    case Write =>
      if Held(s, ReadEnd(c.id)) then c.(pc := ChildPc.CloseWrite) else c.(pc := Killed, ends := {})
    case CloseWrite => c.(pc := Exit, ends := c.ends - {WriteEnd(c.id)})
    case Exit => c.(pc := Exited, ends := {})
    case _ => c
  }

  function ChildNext(s: System, i: nat): System
    requires InRange(s) && Enabled(s, ChildOf(i))
  {
    var c := ChildMove(s, s.children[i]);
    s.(children := s.children[i := c],
       zombies := if c.pc.Exited? || c.pc.Killed? then s.zombies + 1 else s.zombies,
       pipes := if s.children[i].pc.Write? && !c.pc.Killed?
                then s.pipes[i := s.pipes[i] + [s.partials[i]]] else s.pipes)
  }

  /** A turn of `a`; a blocked or finished process leaves the state as it is. */
  function Next(s: System, a: Actor): System
    requires InRange(s)
  {
    if !Enabled(s, a) then s
    else match a
      case Parent => ParentNext(s)
      case ChildOf(i) => ChildNext(s, i)
  }

  // ---------------------------------------------------------------- invariant

  predicate ParentHolds(pc: ParentPc, k: nat, end: End) {
    match pc
    case MakePipe(i) => end.ReadEnd? && end.pipe < i
    case Fork(i) => end == WriteEnd(i) || (end.ReadEnd? && end.pipe <= i)
    case CloseWrite(i) => end == WriteEnd(i) || (end.ReadEnd? && end.pipe <= i)
    case Read(i) => end.ReadEnd? && i <= end.pipe < k
    case CloseRead(i) => end.ReadEnd? && i <= end.pipe < k
    case Wait(i) => end.ReadEnd? && i < end.pipe < k
    case Done => false
  }

  predicate ChildHolds(id: nat, pc: ChildPc, end: End) {
    match pc
    case CloseOwnRead => end == WriteEnd(id) || (end.ReadEnd? && end.pipe <= id)
    case CloseInherited(j) => end == WriteEnd(id) || (end.ReadEnd? && j <= end.pipe < id)
    case Write => end == WriteEnd(id)
    case CloseWrite => end == WriteEnd(id)
    case _ => false
  }

  /** How many children have been forked. */
  function Born(pc: ParentPc, k: nat): nat {
    match pc
    case MakePipe(i) => i
    case Fork(i) => i
    case CloseWrite(i) => i + 1
    case _ => k
  }

  /** How many results the parent has read. */
  function Collected(pc: ParentPc, k: nat): nat {
    match pc
    case Read(i) => i
    case CloseRead(i) => i + 1
    case Wait(i) => i + 1
    case Done => k
    case _ => 0
  }

  function Waited(pc: ParentPc, k: nat): nat {
    match pc
    case Read(i) => i
    case CloseRead(i) => i
    case Wait(i) => i
    case Done => k
    case _ => 0
  }

  predicate Sent(pc: ChildPc) {
    pc.CloseWrite? || pc.Exit? || pc.Exited?
  }

  function Ended(c: Child): int {
    if c.pc.Exited? || c.pc.Killed? then 1 else 0
  }

  ghost predicate ParentOk(s: System) {
    forall end :: end in s.parentEnds <==> ParentHolds(s.parent, |s.children|, end)
  }

  ghost predicate ChildOk(s: System, c: Child, i: nat) {
    && c.id == i
    && !c.pc.Killed?
    && (c.pc.CloseInherited? ==> c.pc.j < i)
    && (c.pc.Unborn? <==> Born(s.parent, |s.children|) <= i)
    && (forall end :: end in c.ends <==> ChildHolds(i, c.pc, end))
  }

  /** A result is in its pipe from the child's write to the parent's read. */
  predicate PipeOk(s: System, i: nat)
    requires i < |s.children| && InRange(s)
  {
    && s.pipes[i] == (if Sent(s.children[i].pc) && Collected(s.parent, |s.children|) <= i then [s.partials[i]] else [])
    && (i < Collected(s.parent, |s.children|) ==> Sent(s.children[i].pc))
  }

  /** The sum of the first `n` results, in the order of the slices. */
  function InOrder(partials: seq<real>, n: nat): real
    requires n <= |partials|
  {
    if n == 0 then 0.0 else InOrder(partials, n - 1) + partials[n - 1]
  }

  ghost predicate ChildrenOk(s: System) {
    forall i :: 0 <= i < |s.children| ==> ChildOk(s, s.children[i], i)
  }

  predicate PipesOk(s: System)
    requires InRange(s)
  {
    forall i :: 0 <= i < |s.children| ==> PipeOk(s, i)
  }

  predicate SumsOk(s: System)
    requires InRange(s)
  {
    && s.total == InOrder(s.partials, Collected(s.parent, |s.children|))
    && s.reaped == Waited(s.parent, |s.children|)
    && s.reaped + s.zombies == Total(s.children, Ended)
  }

  ghost predicate Inv(s: System) {
    InRange(s) && ParentOk(s) && ChildrenOk(s) && PipesOk(s) && SumsOk(s)
  }

  lemma InitInv(s: System)
    requires Init(s)
    ensures Inv(s)
  {
    hide Total;
    TotalZero(s.children, Ended);
    assert ChildrenOk(s) by {
      forall i | 0 <= i < |s.children| ensures ChildOk(s, s.children[i], i) {
        assert s.children[i] == Child(i, Unborn, {});
      }
    }
    assert PipesOk(s) by {
      forall i | 0 <= i < |s.children| ensures PipeOk(s, i) {
        assert s.children[i] == Child(i, Unborn, {}) && s.pipes[i] == [];
      }
    }
  }

  /** Only child `i` can ever write to pipe `i`, and once the parent has forked them all it can
      write to none. */
  lemma WritersArePrivate(s: System, i: nat, j: nat)
    requires Inv(s) && i < |s.children|
    ensures WriteEnd(j) in s.children[i].ends ==> i == j
    ensures s.parent.Read? || s.parent.CloseRead? || s.parent.Wait? || s.parent.Done? ==> WriteEnd(j) !in s.parentEnds
    ensures Held(s, WriteEnd(j)) && Born(s.parent, |s.children|) == |s.children| && !s.parent.CloseWrite? ==>
              j < |s.children| && WriteEnd(j) in s.children[j].ends
  {
    hide Total, InOrder, PipeOk;
    forall m | 0 <= m < |s.children| && WriteEnd(j) in s.children[m].ends
      ensures m == j
    {
      assert ChildOk(s, s.children[m], m);
    }
  }

  /** The parent never meets an end of file: a pipe it may read holds the child's result. */
  lemma ReadsFindTheResult(s: System, i: nat)
    requires Inv(s) && s.parent == Read(i)
    ensures Enabled(s, Parent) <==> Sent(s.children[i].pc)
    ensures Enabled(s, Parent) ==> s.pipes[i] == [s.partials[i]]
  {
    hide Total, InOrder;
    assert PipeOk(s, i);
    assert ChildOk(s, s.children[i], i);
  }

  /** No child is ever killed by its write, which finds the pipe empty. */
  lemma WritesFindAReader(s: System, i: nat)
    requires Inv(s) && i < |s.children| && s.children[i].pc.Write?
    ensures Held(s, ReadEnd(i)) && s.pipes[i] == []
  {
    hide Total, InOrder;
    assert PipeOk(s, i);
    assert ChildOk(s, s.children[i], i);
    assert ReadEnd(i) in s.parentEnds;
  }

  // ---------------------------------------------------------------- preservation

  lemma ParentKeepsEnds(s: System)
    requires Inv(s) && Enabled(s, Parent)
    ensures InRange(ParentNext(s)) && ParentOk(ParentNext(s))
  {
    hide Total, InOrder, PipeOk, ChildOk;
  }

  lemma ParentKeepsChildren(s: System, i: nat)
    requires Inv(s) && Enabled(s, Parent) && i < |s.children|
    ensures ChildOk(ParentNext(s), ParentNext(s).children[i], i)
  {
    hide Total, InOrder, PipeOk;
    assert ChildOk(s, s.children[i], i);
  }

  lemma ParentKeepsPipes(s: System, i: nat)
    requires Inv(s) && Enabled(s, Parent) && i < |s.children|
    ensures InRange(ParentNext(s)) && PipeOk(ParentNext(s), i)
  {
    hide Total, InOrder, ParentOk;
    assert PipeOk(s, i);
    assert ChildOk(s, s.children[i], i);
    if s.parent == Read(i) {
      ReadsFindTheResult(s, i);
    }
  }

  lemma ParentKeepsSums(s: System)
    requires Inv(s) && Enabled(s, Parent)
    ensures InRange(ParentNext(s)) && SumsOk(ParentNext(s))
  {
    hide Total, PipeOk, ParentOk;
    match s.parent {
      case Fork(i) =>
        assert ChildOk(s, s.children[i], i);
        TotalUpdate(s.children, i, ParentNext(s).children[i], Ended);
      case Read(i) =>
        ReadsFindTheResult(s, i);
      case _ =>
    }
  }

  lemma ParentKeeps(s: System)
    requires Inv(s) && Enabled(s, Parent)
    ensures Inv(ParentNext(s))
  {
    hide ParentNext, ParentOk, ChildOk, PipeOk, SumsOk;
    ParentKeepsEnds(s);
    ParentKeepsSums(s);
    var s' := ParentNext(s);
    Keeps(s, Parent);
    forall i | 0 <= i < |s'.children| ensures ChildOk(s', s'.children[i], i) {
      ParentKeepsChildren(s, i);
    }
    forall i | 0 <= i < |s'.children| ensures PipeOk(s', i) {
      ParentKeepsPipes(s, i);
    }
  }

  lemma Keeps(s: System, a: Actor)
    requires InRange(s)
    ensures |Next(s, a).children| == |s.children| && Next(s, a).partials == s.partials
  {
  }

  lemma ChildKeepsChildren(s: System, i: nat)
    requires Inv(s) && Enabled(s, ChildOf(i))
    ensures InRange(ChildNext(s, i)) && ParentOk(ChildNext(s, i)) && ChildrenOk(ChildNext(s, i))
  {
    hide ParentHolds, PipesOk, SumsOk;
    var s' := ChildNext(s, i);
    assert ChildOk(s, s.children[i], i);
    if s.children[i].pc.Write? {
      WritesFindAReader(s, i);
    }
    assert ChildOk(s', s'.children[i], i);
    forall m | 0 <= m < |s'.children| ensures ChildOk(s', s'.children[m], m) {
      assert ChildOk(s, s.children[m], m);
    }
  }

  lemma ChildKeepsPipes(s: System, i: nat)
    requires Inv(s) && Enabled(s, ChildOf(i))
    ensures InRange(ChildNext(s, i)) && PipesOk(ChildNext(s, i)) && SumsOk(ChildNext(s, i))
  {
    hide Total, InOrder, ParentOk, Held;
    var s' := ChildNext(s, i);
    assert ChildOk(s, s.children[i], i);
    if s.children[i].pc.Write? {
      WritesFindAReader(s, i);
    }
    TotalUpdate(s.children, i, s'.children[i], Ended);
    forall m | 0 <= m < |s'.children| ensures PipeOk(s', m) {
      assert PipeOk(s, m);
    }
  }

  lemma StepKeeps(s: System, a: Actor)
    requires Inv(s)
    ensures Inv(Next(s, a))
  {
    hide ParentNext, ChildNext, Enabled, ParentOk, ChildrenOk, PipesOk, SumsOk;
    if Enabled(s, a) {
      match a {
        case Parent => ParentKeeps(s);
        case ChildOf(i) => ChildKeepsChildren(s, i); ChildKeepsPipes(s, i);
      }
    }
  }
}
