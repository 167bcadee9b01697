/** What each thread of the stereo pipeline does in one round of its loop, what it waits for, when
    it finishes, and how the pipeline comes to rest after the interrupt. */
module StereoRounds {
  import opened Frames
  import opened StereoLaws
  import opened StereoPipeline

  // ---------------------------------------------------------------- rounds

  /** `n` turns of the same thread in a row. */
  function Repeat(s: Pipeline, turn: Turn, n: nat): Pipeline {
    if n == 0 then s else Next(Repeat(s, turn, n - 1), turn)
  }

  lemma RepeatOne(s: Pipeline, turn: Turn, n: nat, mid: Pipeline)
    requires Repeat(s, turn, n) == mid
    ensures Repeat(s, turn, n + 1) == Next(mid, turn)
  {
  }

  lemma {:induction false} RepeatIsRun(s: Pipeline, turn: Turn, n: nat)
    ensures Repeat(s, turn, n) == Run(s, seq(n, _ => turn))
  {
    hide Next;
    if n > 0 {
      RepeatIsRun(s, turn, n - 1);
      assert seq(n, _ => turn)[..n - 1] == seq(n - 1, _ => turn);
    }
  }

  /** One side after its camera has gone round once: a frame with the next number and the time
      read from the clock is in the ring, and both counters count it. */
  function Delivered(side: Side, clock: Timespec): Side {
    side.(nextId := side.nextId + 1, total := side.total + 1, recent := side.recent + 1,
          cameraRing := Push(side.cameraRing, Frame(side.nextId, clock)))
  }

  lemma CameraRound(side: Side, clock: Timespec)
    requires side.camera.LoopTest? && side.cameraHand == []
    ensures var turn := (d: Side) => CameraNext(d, true, true, clock);
            turn(turn(turn(turn(turn(side))))) == Delivered(side, clock)
  {
  }

  lemma CameraGoesRound(s: Pipeline, clock: Timespec)
    requires s.running && !s.sync.CheckLeft? && !s.sync.CheckRight?
    ensures s.left.camera.LoopTest? && s.left.cameraHand == [] ==>
              Repeat(s, LeftCamera(clock), 5) == s.(left := Delivered(s.left, clock))
    ensures s.right.camera.LoopTest? && s.right.cameraHand == [] ==>
              Repeat(s, RightCamera(clock), 5) == s.(right := Delivered(s.right, clock))
  {
    hide CameraNext, Push, SyncNext, WriterNext, WatchdogNext;
    var turn := (d: Side) => CameraNext(d, true, true, clock);
    for n := 0 to 5
      invariant Repeat(s, LeftCamera(clock), n) == s.(left := Turned(s.left, clock, n))
      invariant Repeat(s, RightCamera(clock), n) == s.(right := Turned(s.right, clock, n))
    {
    }
    if s.left.camera.LoopTest? && s.left.cameraHand == [] {
      CameraRound(s.left, clock);
      FiveTurned(s.left, clock);
    }
    if s.right.camera.LoopTest? && s.right.cameraHand == [] {
      CameraRound(s.right, clock);
      FiveTurned(s.right, clock);
    }
  }

  function Turned(side: Side, clock: Timespec, n: nat): Side {
    if n == 0 then side else CameraNext(Turned(side, clock, n - 1), true, true, clock)
  }

  lemma FiveTurned(side: Side, clock: Timespec)
    ensures var turn := (d: Side) => CameraNext(d, true, true, clock);
            Turned(side, clock, 5) == turn(turn(turn(turn(turn(side)))))
  {
    hide CameraNext;
    assert Turned(side, clock, 1) == CameraNext(side, true, true, clock);
    assert Turned(side, clock, 2) == CameraNext(Turned(side, clock, 1), true, true, clock);
    assert Turned(side, clock, 3) == CameraNext(Turned(side, clock, 2), true, true, clock);
    assert Turned(side, clock, 4) == CameraNext(Turned(side, clock, 3), true, true, clock);
  }

  /** One side after the synchronizer's pop, when the pair was kept and when it was not. */
  function Kept(side: Side): Side
    requires side.cameraRing.live != []
  {
    side.(cameraRing := Pop(side.cameraRing), syncRing := Push(side.syncRing, side.cameraRing.live[0]))
  }

  function Discarded(side: Side): Side
    requires side.cameraRing.live != []
  {
    side.(cameraRing := Pop(side.cameraRing), rejected := side.rejected + [side.cameraRing.live[0]])
  }

  /** The synchronizer's loop body up to its test, with a frame in either ring. */
  lemma SyncTakesPair(s: Pipeline)
    requires s.running && s.sync.LoopTest? && s.left.cameraRing.live != [] && s.right.cameraRing.live != []
    ensures Repeat(s, Synchronizer, 5) == s.(sync := Compare, left := SyncTakes(s.left), right := SyncTakes(s.right))
  {
    hide WithinTolerance, Push, Pop, Repeat;
    assert Repeat(s, Synchronizer, 0) == s by { RepeatNone(s, Synchronizer); }
    RepeatOne(s, Synchronizer, 0, s);
    RepeatOne(s, Synchronizer, 1, s.(sync := SyncPc.TestLeft));
    RepeatOne(s, Synchronizer, 2, s.(sync := SyncPc.CheckLeft));
    var s3 := s.(sync := SyncPc.TestRight, left := SyncTakes(s.left));
    RepeatOne(s, Synchronizer, 3, s3);
    RepeatOne(s, Synchronizer, 4, s3.(sync := SyncPc.CheckRight));
  }

  lemma RepeatNone(s: Pipeline, turn: Turn)
    ensures Repeat(s, turn, 0) == s
  {
  }

  lemma SyncForwardsPair(s: Pipeline)
    requires s.sync.Compare? && s.left.syncHand != [] && s.right.syncHand != []
    requires !s.writer.CheckLeft? && !s.writer.CheckRight?
    requires WithinTolerance(s.left.syncHand[0], s.right.syncHand[0])
    ensures Repeat(s, Synchronizer, 3)
         == s.(sync := SyncPc.LoopTest, left := Forwards(s.left), right := Forwards(s.right),
               accepted := s.accepted + [(s.left.syncHand[0], s.right.syncHand[0])])
  {
    hide WithinTolerance, Push, Repeat;
    RepeatNone(s, Synchronizer);
    RepeatOne(s, Synchronizer, 0, s);
    var s1 := s.(sync := PushLeft, accepted := s.accepted + [(s.left.syncHand[0], s.right.syncHand[0])]);
    RepeatOne(s, Synchronizer, 1, s1);
    RepeatOne(s, Synchronizer, 2, s1.(sync := PushRight, left := Forwards(s1.left)));
  }

  lemma SideRound(side: Side)
    requires side.syncHand == [] && side.cameraRing.live != []
    ensures SyncTakes(side).syncHand == [side.cameraRing.live[0]]
    ensures Forwards(SyncTakes(side)) == Kept(side) && Rejects(SyncTakes(side)) == Discarded(side)
  {
  }

  lemma SyncRejectsPair(s: Pipeline)
    requires s.sync.Compare? && s.left.syncHand != [] && s.right.syncHand != []
    requires !WithinTolerance(s.left.syncHand[0], s.right.syncHand[0])
    ensures Next(s, Synchronizer) == s.(sync := SyncPc.LoopTest, left := Rejects(s.left), right := Rejects(s.right))
  {
    hide WithinTolerance, Push, Pop;
  }

  lemma {:induction false} RepeatSum(s: Pipeline, turn: Turn, m: nat, n: nat)
    ensures Repeat(s, turn, m + n) == Repeat(Repeat(s, turn, m), turn, n)
  {
    hide Next;
    if n > 0 {
      RepeatSum(s, turn, m, n - 1);
    }
  }

  /** A round of the synchronizer can begin: a frame in either camera ring, the writer out of the way. */
  predicate SyncReady(s: Pipeline) {
    && s.running && s.sync.LoopTest? && s.left.syncHand == [] && s.right.syncHand == []
    && s.left.cameraRing.live != [] && s.right.cameraRing.live != []
    && !s.writer.CheckLeft? && !s.writer.CheckRight?
  }

  lemma SyncKeepsPair(s: Pipeline)
    requires SyncReady(s) && WithinTolerance(s.left.cameraRing.live[0], s.right.cameraRing.live[0])
    ensures Repeat(s, Synchronizer, 8)
         == s.(left := Kept(s.left), right := Kept(s.right),
               accepted := s.accepted + [(s.left.cameraRing.live[0], s.right.cameraRing.live[0])])
  {
    hide WithinTolerance, Repeat, Next, SyncTakes, Forwards, Rejects, Kept, Discarded;
    SideRound(s.left);
    SideRound(s.right);
    SyncTakesPair(s);
    var s5 := s.(sync := Compare, left := SyncTakes(s.left), right := SyncTakes(s.right));
    RepeatSum(s, Synchronizer, 5, 3);
    SyncForwardsPair(s5);
  }

  lemma SyncDiscardsPair(s: Pipeline)
    requires SyncReady(s) && !WithinTolerance(s.left.cameraRing.live[0], s.right.cameraRing.live[0])
    ensures Repeat(s, Synchronizer, 6) == s.(left := Discarded(s.left), right := Discarded(s.right))
  {
    hide WithinTolerance, Repeat, Next, SyncTakes, Forwards, Rejects, Kept, Discarded;
    SideRound(s.left);
    SideRound(s.right);
    SyncTakesPair(s);
    var s5 := s.(sync := Compare, left := SyncTakes(s.left), right := SyncTakes(s.right));
    RepeatOne(s, Synchronizer, 5, s5);
    SyncRejectsPair(s5);
  }

  /** One round of the synchronizer: a pair less than 20 ms apart goes on, left half first, and any
      other is discarded. */
  lemma SyncGoesRound(s: Pipeline)
    requires SyncReady(s)
    ensures var l, r := s.left.cameraRing.live[0], s.right.cameraRing.live[0];
            && (!Apart(l, r) ==>
                  Repeat(s, Synchronizer, 8)
                  == s.(left := Kept(s.left), right := Kept(s.right), accepted := s.accepted + [(l, r)]))
            && (Apart(l, r) ==>
                  Repeat(s, Synchronizer, 6) == s.(left := Discarded(s.left), right := Discarded(s.right)))
  {
    hide WithinTolerance, Repeat, Next, Kept, Discarded, Nanoseconds;
    ToleranceInNanoseconds(s.left.cameraRing.live[0], s.right.cameraRing.live[0]);
    if WithinTolerance(s.left.cameraRing.live[0], s.right.cameraRing.live[0]) {
      SyncKeepsPair(s);
    } else {
      SyncDiscardsPair(s);
    }
  }

  /** One side after the writer has popped and written its frame. */
  function WrittenOut(side: Side): Side
    requires side.syncRing.live != []
  {
    side.(syncRing := Pop(side.syncRing), written := side.written + [side.syncRing.live[0]])
  }

  /** One round of the writer, with a frame in either of its rings. */
  lemma WriterGoesRound(s: Pipeline)
    requires s.running && s.writer.LoopTest? && s.left.writerHand == [] && s.right.writerHand == []
    requires s.left.syncRing.live != [] && s.right.syncRing.live != []
    ensures Repeat(s, Writer, 6) == s.(left := WrittenOut(s.left), right := WrittenOut(s.right))
  {
    hide Pop, Repeat;
    RepeatNone(s, Writer);
    RepeatOne(s, Writer, 0, s);
    RepeatOne(s, Writer, 1, s.(writer := WriterPc.TestLeft));
    RepeatOne(s, Writer, 2, s.(writer := WriterPc.CheckLeft));
    var s3 := s.(writer := WriterPc.TestRight, left := WriterTakes(s.left));
    RepeatOne(s, Writer, 3, s3);
    RepeatOne(s, Writer, 4, s3.(writer := WriterPc.CheckRight));
    RepeatOne(s, Writer, 5, s3.(writer := Write, right := WriterTakes(s.right)));
  }

  /** A side whose recent counter has been read and reset. */
  function ReadOut(side: Side): Side {
    side.(recent := 0, harvested := side.harvested + side.recent)
  }

  lemma WatchdogTakesLeft(s: Pipeline)
    requires s.running && s.watchdog.LoopTest?
    ensures Repeat(s, Watchdog, 3) == s.(watchdog := TakeRight, left := ReadOut(s.left))
  {
    hide Repeat;
    RepeatNone(s, Watchdog);
    RepeatOne(s, Watchdog, 0, s);
    RepeatOne(s, Watchdog, 1, s.(watchdog := SecondTest));
    RepeatOne(s, Watchdog, 2, s.(watchdog := TakeLeft));
  }

  /** One round of the watchdog: it has read both recent counters and reset them. */
  lemma WatchdogGoesRound(s: Pipeline)
    requires s.running && s.watchdog.LoopTest?
    ensures Repeat(s, Watchdog, 4) == s.(left := ReadOut(s.left), right := ReadOut(s.right))
  {
    hide Repeat;
    WatchdogTakesLeft(s);
    RepeatOne(s, Watchdog, 3, s.(watchdog := TakeRight, left := ReadOut(s.left)));
  }

  // ---------------------------------------------------------------- the watchdog's readings

  /** An exchange reads everything counted so far: in every run, after it the harvest is the
      total, less one exactly between the camera's two increments, and nothing is left over. */
  lemma ExchangeReadsAll(capacity: nat, schedule: seq<Turn>)
    requires capacity > 0
    ensures var s := Run(Init(capacity), schedule);
            var s' := Next(s, Watchdog);
            && (s.watchdog.TakeLeft? ==>
                  && s'.left.harvested == s.left.total - (if s.left.camera.AddRecent? then 1 else 0)
                  && s'.left.recent == 0 && s'.watchdog.TakeRight?)
            && (s.watchdog.TakeRight? ==>
                  && s'.right.harvested == s.right.total - (if s.right.camera.AddRecent? then 1 else 0)
                  && s'.right.recent == 0 && s'.watchdog.LoopTest?)
  {
    RunKeeps(capacity, schedule);
    hide Truthful, Run, Init, HandsMatch, ChecksAreSafe, PairsArePushed, PairsAreRejected, SkewIsBounded;
  }

  /** How often the camera of a side has raised its recent counter. */
  function LeftCounts(s: Pipeline, schedule: seq<Turn>): nat {
    if schedule == [] then 0
    else
      var before, turn := schedule[..|schedule| - 1], schedule[|schedule| - 1];
      LeftCounts(s, before) + if turn.LeftCamera? && Run(s, before).left.camera.AddRecent? then 1 else 0
  }

  function RightCounts(s: Pipeline, schedule: seq<Turn>): nat {
    if schedule == [] then 0
    else
      var before, turn := schedule[..|schedule| - 1], schedule[|schedule| - 1];
      RightCounts(s, before) + if turn.RightCamera? && Run(s, before).right.camera.AddRecent? then 1 else 0
  }

  lemma SyncCountsNothing(s: Pipeline)
    ensures SyncNext(s).left.recent == s.left.recent && SyncNext(s).right.recent == s.right.recent
    ensures SyncNext(s).left.harvested == s.left.harvested && SyncNext(s).right.harvested == s.right.harvested
  {
    hide WithinTolerance, Push, Pop;
  }

  lemma WriterCountsNothing(s: Pipeline)
    ensures WriterNext(s).left.recent == s.left.recent && WriterNext(s).right.recent == s.right.recent
    ensures WriterNext(s).left.harvested == s.left.harvested && WriterNext(s).right.harvested == s.right.harvested
  {
    hide Pop;
  }

  lemma OnlyTheCameraCounts(s: Pipeline, turn: Turn)
    requires turn != Watchdog
    ensures Next(s, turn).left.recent
         == s.left.recent + if turn.LeftCamera? && s.left.camera.AddRecent? then 1 else 0
    ensures Next(s, turn).right.recent
         == s.right.recent + if turn.RightCamera? && s.right.camera.AddRecent? then 1 else 0
    ensures Next(s, turn).left.harvested == s.left.harvested && Next(s, turn).right.harvested == s.right.harvested
  {
    hide SyncNext, WriterNext, Push;
    SyncCountsNothing(s);
    WriterCountsNothing(s);
  }

  /** Between two exchanges the recent counters count exactly the cameras' increments. */
  lemma {:induction false} RecentSinceExchange(s: Pipeline, schedule: seq<Turn>)
    requires Watchdog !in schedule
    ensures Run(s, schedule).left.recent == s.left.recent + LeftCounts(s, schedule)
    ensures Run(s, schedule).right.recent == s.right.recent + RightCounts(s, schedule)
    ensures Run(s, schedule).left.harvested == s.left.harvested
    ensures Run(s, schedule).right.harvested == s.right.harvested
  {
    hide Next;
    if schedule != [] {
      var before, turn := schedule[..|schedule| - 1], schedule[|schedule| - 1];
      RecentSinceExchange(s, before);
      OnlyTheCameraCounts(Run(s, before), turn);
    }
  }

  // ---------------------------------------------------------------- rejection

  /** In every run the synchronizer has accepted only pairs less than 20 ms apart, and it has
      rejected only pairs at least 20 ms apart. */
  lemma TestedPairs(capacity: nat, schedule: seq<Turn>)
    requires capacity > 0
    ensures var s := Run(Init(capacity), schedule);
            && (forall i :: 0 <= i < |s.accepted| ==> !Apart(s.accepted[i].0, s.accepted[i].1))
            && |s.left.rejected| == |s.right.rejected|
            && (forall i :: 0 <= i < |s.left.rejected| ==> Apart(s.left.rejected[i], s.right.rejected[i]))
  {
    var s := Run(Init(capacity), schedule);
    RunKeeps(capacity, schedule);
    hide Run, Init, SideOk, WithinTolerance, Nanoseconds, HandsMatch, ChecksAreSafe, SkewIsBounded;
    forall i | 0 <= i < |s.accepted| ensures !Apart(s.accepted[i].0, s.accepted[i].1) {
      ToleranceInNanoseconds(s.accepted[i].0, s.accepted[i].1);
    }
  }

  // ---------------------------------------------------------------- who waits, who finishes

  /** A camera waits only for the mutex of its buffer, which the synchronizer holds from the end
      of its wait loop to the take. */
  lemma CameraWaitsIff(s: Pipeline, clock: Timespec)
    requires Inv(s)
    ensures Next(s, LeftCamera(clock)) == s <==>
            s.left.camera.Finished? || (s.left.camera.PushFrame? && s.sync.CheckLeft?)
    ensures Next(s, RightCamera(clock)) == s <==>
            s.right.camera.Finished? || (s.right.camera.PushFrame? && s.sync.CheckRight?)
  {
    hide Truthful, Numbered, InSequence, SyncConserves, Counted;
    hide HandsMatch, ChecksAreSafe, PairsArePushed, PairsAreRejected, SkewIsBounded, Push;
  }

  /** The synchronizer waits for a frame while the flag is set, and for the writer to give up the
      mutex of a buffer it pushes to. */
  lemma SyncWaitsIff(s: Pipeline)
    requires Inv(s)
    ensures Next(s, Synchronizer) == s <==>
            || s.sync.Finished?
            || (s.sync.TestLeft? && s.left.cameraRing.live == [] && s.running)
            || (s.sync.TestRight? && s.right.cameraRing.live == [] && s.running)
            || (s.sync.PushLeft? && s.writer.CheckLeft?)
            || (s.sync.PushRight? && s.writer.CheckRight?)
  {
    hide SideOk, PairsArePushed, PairsAreRejected, SkewIsBounded, Push, Pop, WithinTolerance;
  }

  lemma WriterWaitsIff(s: Pipeline)
    requires Inv(s)
    ensures Next(s, Writer) == s <==>
            || s.writer.Finished?
            || (s.writer.TestLeft? && s.left.syncRing.live == [] && s.running)
            || (s.writer.TestRight? && s.right.syncRing.live == [] && s.running)
  {
    hide SideOk, PairsArePushed, PairsAreRejected, SkewIsBounded, Push, Pop, WithinTolerance;
  }

  lemma WatchdogWaitsIff(s: Pipeline)
    ensures Next(s, Watchdog) == s <==> s.watchdog.Finished?
  {
    hide WithinTolerance;
  }

  /** A thread finishes exactly when it finds the flag cleared at its loop test, or after a pop
      that gave up, and a pop gives up exactly when it finds the flag cleared and its ring empty. */
  lemma FinishesIff(s: Pipeline, clock: Timespec)
    requires Inv(s)
    ensures !s.sync.Finished? ==>
              (Next(s, Synchronizer).sync.Finished? <==>
                !s.running && (|| s.sync.LoopTest?
                               || (s.sync.CheckLeft? && s.left.cameraRing.live == [])
                               || (s.sync.CheckRight? && s.right.cameraRing.live == [])))
    ensures !s.writer.Finished? ==>
              (Next(s, Writer).writer.Finished? <==>
                !s.running && (|| s.writer.LoopTest?
                               || (s.writer.CheckLeft? && s.left.syncRing.live == [])
                               || (s.writer.CheckRight? && s.right.syncRing.live == [])))
    ensures !s.watchdog.Finished? ==>
              (Next(s, Watchdog).watchdog.Finished? <==>
                !s.running && (s.watchdog.LoopTest? || s.watchdog.SecondTest?))
    ensures !s.left.camera.Finished? ==>
              (Next(s, LeftCamera(clock)).left.camera.Finished? <==> !s.running && s.left.camera.LoopTest?)
    ensures !s.right.camera.Finished? ==>
              (Next(s, RightCamera(clock)).right.camera.Finished? <==> !s.running && s.right.camera.LoopTest?)
  {
    hide SideOk, PairsArePushed, PairsAreRejected, SkewIsBounded, Push, Pop, WithinTolerance;
  }

  // ---------------------------------------------------------------- after the interrupt

  function CameraLeft(pc: CameraPc): nat {
    match pc
    case LoopTest => 1
    case Stamp => 5
    case PushFrame => 4
    case AddTotal => 3
    case AddRecent => 2
    case Finished => 0
  }

  function SyncLeft(pc: SyncPc): nat {
    match pc
    case LoopTest => 1
    case TestLeft => 8
    case CheckLeft => 7
    case TestRight => 6
    case CheckRight => 5
    case Compare => 4
    case PushLeft => 3
    case PushRight => 2
    case Finished => 0
  }

  function WriterLeft(pc: WriterPc): nat {
    match pc
    case LoopTest => 1
    case TestLeft => 6
    case CheckLeft => 5
    case TestRight => 4
    case CheckRight => 3
    case Write => 2
    case Finished => 0
  }

  function WatchdogLeft(pc: WatchdogPc): nat {
    match pc
    case LoopTest => 1
    case SecondTest => 1
    case TakeLeft => 3
    case TakeRight => 2
    case Finished => 0
  }

  /** An upper bound on the steps of all threads once the flag is cleared. */
  function StepsLeft(s: Pipeline): nat {
    CameraLeft(s.left.camera) + CameraLeft(s.right.camera)
    + SyncLeft(s.sync) + WriterLeft(s.writer) + WatchdogLeft(s.watchdog)
  }

  predicate AllFinished(s: Pipeline) {
    && s.left.camera.Finished? && s.right.camera.Finished?
    && s.sync.Finished? && s.writer.Finished? && s.watchdog.Finished?
  }

  lemma CamerasStop(s: Pipeline, turn: Turn)
    requires !s.running && (turn.LeftCamera? || turn.RightCamera?)
    ensures Next(s, turn) == s || StepsLeft(Next(s, turn)) < StepsLeft(s)
  {
    hide Push;
  }

  lemma SyncStops(s: Pipeline)
    requires Inv(s) && !s.running
    ensures Next(s, Synchronizer) == s || StepsLeft(Next(s, Synchronizer)) < StepsLeft(s)
  {
    hide SideOk, PairsArePushed, PairsAreRejected, SkewIsBounded, Push, Pop, WithinTolerance;
  }

  lemma WriterStops(s: Pipeline)
    requires Inv(s) && !s.running
    ensures Next(s, Writer) == s || StepsLeft(Next(s, Writer)) < StepsLeft(s)
  {
    hide SideOk, PairsArePushed, PairsAreRejected, SkewIsBounded, Push, Pop, WithinTolerance;
  }

  lemma FlagStaysCleared(s: Pipeline, turn: Turn)
    requires !s.running || turn == Interrupt
    ensures !Next(s, turn).running
  {
    hide WithinTolerance;
  }

  lemma StepStops(s: Pipeline, turn: Turn)
    requires Inv(s) && !s.running
    ensures Next(s, turn) == s || StepsLeft(Next(s, turn)) < StepsLeft(s)
  {
    hide Inv, CameraNext, SyncNext, WriterNext, StepsLeft;
    match turn {
      case LeftCamera(_) => CamerasStop(s, turn);
      case RightCamera(_) => CamerasStop(s, turn);
      case Synchronizer => SyncStops(s);
      case Writer => WriterStops(s);
      case Watchdog => WatchdogStops(s);
      case Interrupt =>
    }
  }

  lemma WatchdogStops(s: Pipeline)
    requires !s.running
    ensures Next(s, Watchdog) == s || StepsLeft(Next(s, Watchdog)) < StepsLeft(s)
  {
    hide WithinTolerance;
  }

  /** The turns of a schedule in which a thread did something. */
  function Moves(s: Pipeline, schedule: seq<Turn>): nat {
    if schedule == [] then 0
    else
      var before, turn := schedule[..|schedule| - 1], schedule[|schedule| - 1];
      Moves(s, before) + if Next(Run(s, before), turn) == Run(s, before) then 0 else 1
  }

  ghost predicate AtRest(s: Pipeline) {
    forall turn :: Next(s, turn) == s
  }

  lemma {:induction false} StoppedRun(s: Pipeline, schedule: seq<Turn>)
    requires Inv(s) && !s.running
    ensures Inv(Run(s, schedule)) && !Run(s, schedule).running
    ensures Moves(s, schedule) + StepsLeft(Run(s, schedule)) <= StepsLeft(s)
  {
    hide Inv, Next, StepsLeft;
    if schedule != [] {
      var before, turn := schedule[..|schedule| - 1], schedule[|schedule| - 1];
      StoppedRun(s, before);
      StepKeeps(Run(s, before), turn);
      StepStops(Run(s, before), turn);
      FlagStaysCleared(Run(s, before), turn);
    }
  }

  lemma RestIsFinished(s: Pipeline)
    requires Inv(s) && !s.running && AtRest(s)
    ensures AllFinished(s)
  {
    var clock := Timespec(0, 0);
    assert Next(s, Synchronizer) == s && Next(s, Writer) == s && Next(s, Watchdog) == s;
    assert Next(s, LeftCamera(clock)) == s && Next(s, RightCamera(clock)) == s;
    hide Next, Inv, AtRest;
    SyncWaitsIff(s);
    WriterWaitsIff(s);
    WatchdogWaitsIff(s);
    CameraWaitsIff(s, clock);
  }

  /** Shutdown.  After the interrupt, wherever it comes in a run, all threads together take at
      most 27 more steps, and when none of them can take one, all have finished: none is left
      waiting for a frame or for a mutex. */
  lemma ShutdownCompletes(capacity: nat, schedule: seq<Turn>, rest: seq<Turn>)
    requires capacity > 0
    ensures var s := Next(Run(Init(capacity), schedule), Interrupt);
            && Moves(s, rest) <= 27
            && !Run(s, rest).running
            && (AtRest(Run(s, rest)) ==> AllFinished(Run(s, rest)))
  {
    var before := Run(Init(capacity), schedule);
    var s := Next(before, Interrupt);
    assert StepsLeft(s) <= 27;
    RunKeeps(capacity, schedule);
    StepKeeps(before, Interrupt);
    FlagStaysCleared(before, Interrupt);
    hide Run, Next, Init, Inv, StepsLeft, AtRest, AllFinished, Moves;
    StoppedRun(s, rest);
    if AtRest(Run(s, rest)) {
      RestIsFinished(Run(s, rest));
    }
  }
}
