/** A run of the stereo pipeline at the cameras' pace, for every buffer size, in which the two
    frames written together were not accepted together and were taken a whole period apart: the
    writer pops between the synchronizer's two pushes when the rings are full. */
module StereoMismatch {
  import opened Frames
  import opened StereoPipeline
  import opened StereoLaws
  import opened StereoRounds
  import opened StereoTolerance

  ghost predicate Reachable(capacity: nat, s: Pipeline) {
    exists schedule :: Run(Init(capacity), schedule) == s && Paced(Init(capacity), schedule)
  }

  lemma ReachStep(capacity: nat, s: Pipeline, turn: Turn)
    requires Reachable(capacity, s) && OnTime(s, turn)
    ensures Reachable(capacity, Next(s, turn))
  {
    hide Init, Next, OnTime;
    var schedule :| Run(Init(capacity), schedule) == s && Paced(Init(capacity), schedule);
    assert (schedule + [turn])[..|schedule|] == schedule;
    assert Run(Init(capacity), schedule + [turn]) == Next(s, turn);
  }

  /** Turns of the synchronizer and the writer take no time. */
  lemma {:induction false} ReachRepeat(capacity: nat, s: Pipeline, turn: Turn, n: nat)
    requires Reachable(capacity, s) && (turn.Synchronizer? || turn.Writer?)
    ensures Reachable(capacity, Repeat(s, turn, n))
  {
    hide Reachable, Next;
    if n > 0 {
      ReachRepeat(capacity, s, turn, n - 1);
      ReachStep(capacity, Repeat(s, turn, n - 1), turn);
    }
  }

  /** In this run, both cameras take frame number `id` at the end of period `id`. */
  function ClockAt(id: int): Timespec {
    Timespec(id * PERIOD_NS / 1_000_000_000, id * PERIOD_NS % 1_000_000_000)
  }

  lemma ClockTicks(id: int)
    ensures Nanoseconds(ClockAt(id)) == id * PERIOD_NS
  {
  }

  predicate CameraResting(side: Side) {
    && side.camera.LoopTest? && side.cameraHand == []
    && (side.cameraRing.pushed != [] ==>
          side.cameraRing.pushed[|side.cameraRing.pushed| - 1].timestamp == ClockAt(side.nextId - 1))
  }

  lemma NextStampIsRested(side: Side)
    requires CameraResting(side)
    ensures Rested(side.(camera := Stamp), ClockAt(side.nextId))
  {
    hide ClockAt;
    ClockTicks(side.nextId - 1);
    ClockTicks(side.nextId);
    assert Generated(side.(camera := Stamp)) == side.cameraRing.pushed;
  }

  lemma CamerasDeliver(capacity: nat, s: Pipeline)
    requires Reachable(capacity, s) && s.running && s.sync.LoopTest?
    requires CameraResting(s.left) && CameraResting(s.right)
    ensures var l, r := ClockAt(s.left.nextId), ClockAt(s.right.nextId);
            Reachable(capacity, s.(left := Delivered(s.left, l), right := Delivered(s.right, r)))
  {
    hide Reachable, Push, ClockAt;
    CameraRound(s.left, ClockAt(s.left.nextId));
    CameraRound(s.right, ClockAt(s.right.nextId));
    NextStampIsRested(s.left);
    NextStampIsRested(s.right);
    var left, right := ClockAt(s.left.nextId), ClockAt(s.right.nextId);
    var turn := (d: Side) => CameraNext(d, true, true, left);
    var l1 := turn(s.left);
    var l2 := turn(l1);
    var l3 := turn(l2);
    var l4 := turn(l3);
    ReachStep(capacity, s, LeftCamera(left));
    ReachStep(capacity, s.(left := l1), LeftCamera(left));
    ReachStep(capacity, s.(left := l2), LeftCamera(left));
    ReachStep(capacity, s.(left := l3), LeftCamera(left));
    ReachStep(capacity, s.(left := l4), LeftCamera(left));
    var s' := s.(left := turn(l4));
    var other := (d: Side) => CameraNext(d, true, true, right);
    var r1 := other(s.right);
    var r2 := other(r1);
    var r3 := other(r2);
    var r4 := other(r3);
    ReachStep(capacity, s', RightCamera(right));
    ReachStep(capacity, s'.(right := r1), RightCamera(right));
    ReachStep(capacity, s'.(right := r2), RightCamera(right));
    ReachStep(capacity, s'.(right := r3), RightCamera(right));
    ReachStep(capacity, s'.(right := r4), RightCamera(right));
  }

  /** Between two rounds: nothing in hand, nothing left to synchronize, the writer idle. */
  predicate Resting(s: Pipeline) {
    && s.running && s.sync.LoopTest? && s.writer.LoopTest?
    && s.left.nextId == s.right.nextId
    && CameraResting(s.left) && CameraResting(s.right)
    && s.left.cameraRing.live == [] && s.right.cameraRing.live == []
    && s.left.syncHand == [] && s.right.syncHand == []
  }

  /** The `n` first frames of a camera. */
  ghost predicate FirstFrames(fs: seq<Frame>, n: nat) {
    |fs| == n && forall i :: 0 <= i < n ==> fs[i] == Frame(i + 1, ClockAt(i + 1))
  }

  /** After `n` rounds: the second ring holds the first `n` frames and has dropped and given none. */
  ghost predicate SideFilled(side: Side, n: nat, capacity: nat) {
    && CameraResting(side) && side.cameraRing.live == [] && side.nextId == n + 1
    && side.syncRing.capacity == capacity && FirstFrames(side.syncRing.live, n)
    && side.syncRing.dropped == [] && side.syncRing.skips == []
    && side.syncHand == [] && side.writerHand == [] && side.written == []
  }

  /** One side after a camera and a synchronizer round. */
  function Round(side: Side): Side {
    Kept(Delivered(side, ClockAt(side.nextId)))
  }

  lemma RoundFills(side: Side, n: nat, capacity: nat)
    requires n < capacity && SideFilled(side, n, capacity)
    ensures SideFilled(Round(side), n + 1, capacity)
  {
    hide ClockAt;
  }

  ghost predicate Filled(s: Pipeline, n: nat, capacity: nat) {
    SideFilled(s.left, n, capacity) && SideFilled(s.right, n, capacity)
  }

  /** After both cameras have gone round. */
  function Fed(s: Pipeline): Pipeline {
    s.(left := Delivered(s.left, ClockAt(s.left.nextId)), right := Delivered(s.right, ClockAt(s.right.nextId)))
  }

  /** The pair that the synchronizer finds then. */
  function NewPair(s: Pipeline): (Frame, Frame) {
    (Frame(s.left.nextId, ClockAt(s.left.nextId)), Frame(s.right.nextId, ClockAt(s.right.nextId)))
  }

  lemma FedIsReady(s: Pipeline)
    requires Resting(s)
    ensures SyncReady(Fed(s))
    ensures (Fed(s).left.cameraRing.live[0], Fed(s).right.cameraRing.live[0]) == NewPair(s)
    ensures !Apart(NewPair(s).0, NewPair(s).1)
  {
    hide ClockAt;
  }

  /** After the synchronizer has gone round, too. */
  function AfterRound(s: Pipeline): Pipeline {
    s.(left := Round(s.left), right := Round(s.right), accepted := s.accepted + [NewPair(s)])
  }

  lemma PairIsForwarded(capacity: nat, s: Pipeline)
    requires Reachable(capacity, s) && Resting(s)
    ensures Reachable(capacity, AfterRound(s))
  {
    hide Reachable, ClockAt, Push, Apart, Repeat;
    CamerasDeliver(capacity, s);
    FedIsReady(s);
    ReachRepeat(capacity, Fed(s), Synchronizer, 8);
    hide Delivered, Kept;
    SyncGoesRound(Fed(s));
  }

  lemma {:induction false} FillUp(capacity: nat, n: nat) returns (s: Pipeline)
    requires 0 < capacity && n <= capacity
    ensures Reachable(capacity, s) && Resting(s) && Filled(s, n, capacity)
  {
    if n == 0 {
      s := Init(capacity);
      assert Run(Init(capacity), []) == s;
    } else {
      hide Reachable, ClockAt, Round, SideFilled;
      var before := FillUp(capacity, n - 1);
      PairIsForwarded(capacity, before);
      RoundFills(before.left, n - 1, capacity);
      RoundFills(before.right, n - 1, capacity);
      s := AfterRound(before);
      FilledRests(s.left, n, capacity);
      FilledRests(s.right, n, capacity);
    }
  }

  lemma FilledRests(side: Side, n: nat, capacity: nat)
    requires SideFilled(side, n, capacity)
    ensures CameraResting(side) && side.cameraRing.live == [] && side.syncHand == [] && side.nextId == n + 1
  {
  }

  /** Both sides after the synchronizer has pushed its left half only. */
  function Lopsided(s: Pipeline): Pipeline
    requires Fed(s).right.cameraRing.live != []
  {
    s.(sync := PushRight, left := Round(s.left), right := SyncTakes(Fed(s).right),
       accepted := s.accepted + [NewPair(s)])
  }

  lemma LopsidedIsReachable(capacity: nat, s: Pipeline)
    requires Reachable(capacity, s) && Resting(s)
    ensures Fed(s).right.cameraRing.live != [] && Reachable(capacity, Lopsided(s))
  {
    hide Reachable, ClockAt, Push, Pop, Repeat, Nanoseconds, WithinTolerance;
    CamerasDeliver(capacity, s);
    FedIsReady(s);
    var fed := Fed(s);
    ToleranceInNanoseconds(NewPair(s).0, NewPair(s).1);
    ReachRepeat(capacity, fed, Synchronizer, 5);
    SyncTakesPair(fed);
    hide Delivered;
    SideRound(fed.left);
    SideRound(fed.right);
    var s5 := fed.(sync := Compare, left := SyncTakes(fed.left), right := SyncTakes(fed.right));
    ReachStep(capacity, s5, Synchronizer);
    ReachStep(capacity, s5.(sync := PushLeft, accepted := s.accepted + [NewPair(s)]), Synchronizer);
  }

  lemma LeftHasDropped(side: Side, capacity: nat)
    requires 0 < capacity && SideFilled(side, capacity, capacity)
    ensures var d := Round(side);
            && d.writerHand == [] && d.syncRing.live != []
            && WrittenOut(d).written == [Frame(2, ClockAt(2))] && WrittenOut(d).syncRing.skips == [1]
  {
    hide ClockAt;
  }

  lemma RightHasNotDropped(side: Side, capacity: nat)
    requires 0 < capacity && SideFilled(side, capacity, capacity)
    ensures var d := Delivered(side, ClockAt(side.nextId));
            && d.cameraRing.live != []
            && SyncTakes(d).writerHand == [] && SyncTakes(d).syncRing.live != []
            && WrittenOut(SyncTakes(d)).written == [Frame(1, ClockAt(1))]
            && WrittenOut(SyncTakes(d)).syncRing.skips == [0]
  {
    hide ClockAt;
  }

  /** The synchronizer pushes a left half onto a full ring, and then the writer goes round. */
  lemma WritesUnevenly(capacity: nat) returns (s: Pipeline)
    requires capacity > 0
    ensures Reachable(capacity, s)
    ensures s.left.written == [Frame(2, ClockAt(2))] && s.right.written == [Frame(1, ClockAt(1))]
    ensures s.left.syncRing.skips == [1] && s.right.syncRing.skips == [0]
  {
    var s0 := FillUp(capacity, capacity);
    LeftHasDropped(s0.left, capacity);
    RightHasNotDropped(s0.right, capacity);
    hide Reachable, Repeat, ClockAt, SideFilled, Round, SyncTakes, WrittenOut, Delivered, CameraResting;
    LopsidedIsReachable(capacity, s0);
    var s1 := Lopsided(s0);
    ReachRepeat(capacity, s1, Writer, 6);
    WriterGoesRound(s1);
    s := Repeat(s1, Writer, 6);
  }

  /** For every buffer size there is a run that writes two frames as a pair which were not
      accepted as a pair and are not within the tolerance.  `StereoLaws.WrittenPairsMatchIff`
      says exactly when the one happens, `StereoTolerance.PromiseKeptIff` when the other does. */
  lemma MismatchHappens(capacity: nat) returns (schedule: seq<Turn>)
    requires capacity > 0
    ensures Paced(Init(capacity), schedule)
    ensures var s := Run(Init(capacity), schedule);
            && |s.left.written| == |s.right.written| == 1
            && (s.left.written[0], s.right.written[0]) !in s.accepted
            && !WithinTolerance(s.left.written[0], s.right.written[0])
            && Nanoseconds(s.left.written[0].timestamp) - Nanoseconds(s.right.written[0].timestamp) == 40_000_000
  {
    hide Run, Init, Inv, Paced, WithinTolerance;
    var s := WritesUnevenly(capacity);
    schedule :| Run(Init(capacity), schedule) == s && Paced(Init(capacity), schedule);
    RunKeeps(capacity, schedule);
    WrittenPairsMatchIff(s, 0);
    PromiseKeptIff(capacity, schedule, 0);
    ClockTicks(1);
    ClockTicks(2);
  }
}
