/** When the frames that are written together were taken less than the tolerance apart.  A camera
    sleeps for its period between two frames, and the period is twice the tolerance. */
module StereoTolerance {
  import opened Frames
  import opened StereoLaws
  import opened StereoPipeline

  // ---------------------------------------------------------------- frames of one camera

  /** A later frame was taken at least a period after an earlier one. */
  ghost predicate Spaced(fs: seq<Frame>) {
    forall i, j :: 0 <= i < j < |fs| ==>
      Nanoseconds(fs[i].timestamp) + PERIOD_NS <= Nanoseconds(fs[j].timestamp)
  }

  lemma FarApart(fs: seq<Frame>, f: Frame, g: Frame)
    requires Spaced(fs) && f in fs && g in fs && f != g
    ensures var distance := Nanoseconds(f.timestamp) - Nanoseconds(g.timestamp);
            distance <= -PERIOD_NS || PERIOD_NS <= distance
  {
    var i :| 0 <= i < |fs| && fs[i] == f;
    var j :| 0 <= j < |fs| && fs[j] == g;
  }

  /** Two frames of one camera cannot both be within the tolerance of the same frame. */
  lemma OneMatch(fs: seq<Frame>, f: Frame, g: Frame, other: Frame)
    requires Spaced(fs) && f in fs && g in fs
    requires WithinTolerance(f, other) && WithinTolerance(g, other)
    ensures f == g
  {
    hide Spaced, WithinTolerance, Nanoseconds;
    ToleranceInNanoseconds(f, other);
    ToleranceInNanoseconds(g, other);
    if f != g {
      FarApart(fs, f, g);
    }
  }

  lemma Symmetric(f: Frame, g: Frame)
    ensures WithinTolerance(f, g) <==> WithinTolerance(g, f)
  {
    hide WithinTolerance, Nanoseconds;
    ToleranceInNanoseconds(f, g);
    ToleranceInNanoseconds(g, f);
  }

  // ---------------------------------------------------------------- the exact condition

  /** Every accepted frame was pushed by its camera. */
  lemma SynchronizedWasPushed(side: Side, f: Frame)
    requires SideOk(side) && f in Synchronized(side)
    ensures f in side.cameraRing.pushed
  {
    hide HoldsTheLatest, Conserved, HandsOk, Numbered, InSequence, Counted, Synchronized;
    var c := side.cameraRing;
    assert f in multiset(Synchronized(side));
    assert f in multiset(c.popped);
    var k :| 0 <= k < |c.popped| && c.popped[k] == f;
    assert c.pushed[k + c.skips[k]] == f;
  }

  lemma AcceptedWerePushed(s: Pipeline, i: nat)
    requires Inv(s) && i < |s.accepted|
    ensures s.accepted[i].0 in s.left.cameraRing.pushed && s.accepted[i].1 in s.right.cameraRing.pushed
  {
    hide SideOk, WithinTolerance;
    assert Lefts(s.accepted)[i] in Synchronized(s.left);
    assert Rights(s.accepted)[i] in Synchronized(s.right);
    SynchronizedWasPushed(s.left, s.accepted[i].0);
    SynchronizedWasPushed(s.right, s.accepted[i].1);
  }

  /** A left half and a right half of accepted pairs are within the tolerance if and only if
      they belong to the same pair, as soon as one of the cameras keeps its period. */
  lemma HalvesMatchIff(s: Pipeline, l: nat, r: nat)
    requires Inv(s) && l < |s.accepted| && r < |s.accepted|
    requires Spaced(s.left.cameraRing.pushed) || Spaced(s.right.cameraRing.pushed)
    ensures WithinTolerance(s.accepted[l].0, s.accepted[r].1) <==> l == r
  {
    AcceptedInOrder(s);
    AcceptedWerePushed(s, l);
    AcceptedWerePushed(s, r);
    assert PairsArePushed(s);
    hide Inv, Spaced, WithinTolerance;
    var f, g := s.accepted[l].0, s.accepted[r].1;
    assert WithinTolerance(f, s.accepted[l].1) && WithinTolerance(s.accepted[r].0, g);
    if WithinTolerance(f, g) {
      if Spaced(s.left.cameraRing.pushed) {
        OneMatch(s.left.cameraRing.pushed, f, s.accepted[r].0, g);
        assert Lefts(s.accepted)[l] == Lefts(s.accepted)[r];
      } else {
        Symmetric(f, g);
        Symmetric(f, s.accepted[l].1);
        OneMatch(s.right.cameraRing.pushed, g, s.accepted[l].1, f);
        assert Rights(s.accepted)[l] == Rights(s.accepted)[r];
      }
    }
  }

  /** The two frames written together were taken less than the tolerance apart if and only if
      as many frames had been dropped on the left before the left pop as on the right before
      the right pop. */
  lemma WrittenWithinToleranceIff(s: Pipeline, k: nat)
    requires Inv(s) && k < |s.left.written|
    requires Spaced(s.left.cameraRing.pushed) || Spaced(s.right.cameraRing.pushed)
    ensures |s.right.written| == |s.left.written|
    ensures k < |s.left.syncRing.skips| && k < |s.right.syncRing.skips|
    ensures WithinTolerance(s.left.written[k], s.right.written[k]) <==>
            s.left.syncRing.skips[k] == s.right.syncRing.skips[k]
  {
    hide Inv, Spaced, WithinTolerance;
    PairingLaw(s, k);
    HalvesMatchIff(s, LeftNumber(s, k), RightNumber(s, k));
  }

  // ---------------------------------------------------------------- runs at the cameras' pace

  /** What the sleep at the end of a camera's loop guarantees of its next clock reading. */
  ghost predicate Rested(side: Side, clock: Timespec) {
    side.camera.Stamp? && Generated(side) != [] ==>
      Nanoseconds(Generated(side)[|Generated(side)| - 1].timestamp) + PERIOD_NS <= Nanoseconds(clock)
  }

  ghost predicate OnTime(s: Pipeline, turn: Turn) {
    match turn
    case LeftCamera(clock) => Rested(s.left, clock)
    case RightCamera(clock) => Rested(s.right, clock)
    case _ => true
  }

  /** A run in which both cameras sleep between their frames. */
  ghost predicate Paced(s: Pipeline, schedule: seq<Turn>) {
    schedule == [] ||
    (var before := schedule[..|schedule| - 1];
     Paced(s, before) && OnTime(Run(s, before), schedule[|schedule| - 1]))
  }

  lemma StampIsSpaced(side: Side, running: bool, free: bool, clock: Timespec)
    requires HandsOk(side) && Spaced(Generated(side)) && Rested(side, clock)
    ensures Spaced(Generated(CameraNext(side, running, free, clock)))
  {
    var side' := CameraNext(side, running, free, clock);
    if side.camera.Stamp? {
      assert Generated(side') == Generated(side) + [Frame(side.nextId, clock)];
      hide Generated, Nanoseconds;
    } else {
      assert Generated(side') == Generated(side);
    }
  }

  lemma SyncGeneratesNothing(s: Pipeline)
    ensures Generated(SyncNext(s).left) == Generated(s.left) && Generated(SyncNext(s).right) == Generated(s.right)
  {
    hide WithinTolerance, Push;
  }

  lemma WriterGeneratesNothing(s: Pipeline)
    ensures Generated(WriterNext(s).left) == Generated(s.left) && Generated(WriterNext(s).right) == Generated(s.right)
  {
  }

  /** Only a camera adds to what has been generated on its side. */
  lemma OthersGenerateNothing(s: Pipeline, turn: Turn)
    ensures !turn.LeftCamera? ==> Generated(Next(s, turn).left) == Generated(s.left)
    ensures !turn.RightCamera? ==> Generated(Next(s, turn).right) == Generated(s.right)
  {
    hide CameraNext, SyncNext, WriterNext;
    SyncGeneratesNothing(s);
    WriterGeneratesNothing(s);
  }

  lemma StepIsSpaced(s: Pipeline, turn: Turn)
    requires Inv(s) && OnTime(s, turn)
    requires Spaced(Generated(s.left)) && Spaced(Generated(s.right))
    ensures Spaced(Generated(Next(s, turn).left)) && Spaced(Generated(Next(s, turn).right))
  {
    assert HandsOk(s.left) && HandsOk(s.right);
    hide Inv, Generated, Spaced, Rested, SyncNext, WriterNext, WatchdogNext, CameraNext;
    OthersGenerateNothing(s, turn);
    match turn {
      case LeftCamera(clock) => StampIsSpaced(s.left, s.running, s.sync != SyncPc.CheckLeft, clock);
      case RightCamera(clock) => StampIsSpaced(s.right, s.running, s.sync != SyncPc.CheckRight, clock);
      case _ =>
    }
  }

  lemma {:induction false} PacedIsSpaced(capacity: nat, schedule: seq<Turn>)
    requires capacity > 0 && Paced(Init(capacity), schedule)
    ensures Spaced(Generated(Run(Init(capacity), schedule).left))
    ensures Spaced(Generated(Run(Init(capacity), schedule).right))
  {
    hide Inv, Next, OnTime;
    if schedule != [] {
      var before := schedule[..|schedule| - 1];
      RunKeeps(capacity, before);
      PacedIsSpaced(capacity, before);
      StepIsSpaced(Run(Init(capacity), before), schedule[|schedule| - 1]);
    }
  }

  lemma PrefixSpaced(fs: seq<Frame>, gs: seq<Frame>)
    requires Spaced(fs + gs)
    ensures Spaced(fs)
  {
    assert forall i :: 0 <= i < |fs| ==> fs[i] == (fs + gs)[i];
  }

  /** The promise of the stereo pipeline, exactly: in every run at the cameras' pace, for every
      buffer size, the k-th written pair was taken less than the tolerance apart if and only if
      the drops before its left pop were as many as those before its right pop. */
  lemma PromiseKeptIff(capacity: nat, schedule: seq<Turn>, k: nat)
    requires capacity > 0 && Paced(Init(capacity), schedule)
    requires k < |Run(Init(capacity), schedule).left.written|
    ensures var s := Run(Init(capacity), schedule);
            && |s.right.written| == |s.left.written|
            && k < |s.left.syncRing.skips| && k < |s.right.syncRing.skips|
            && (WithinTolerance(s.left.written[k], s.right.written[k]) <==>
                s.left.syncRing.skips[k] == s.right.syncRing.skips[k])
  {
    hide Run, Init, Inv, Paced, Spaced, WithinTolerance;
    RunKeeps(capacity, schedule);
    PacedIsSpaced(capacity, schedule);
    var s := Run(Init(capacity), schedule);
    PrefixSpaced(s.right.cameraRing.pushed, s.right.cameraHand);
    WrittenWithinToleranceIff(s, k);
  }
}
