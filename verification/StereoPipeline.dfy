/** The threads of lab6 levels 2 and 3 that move camera frames: two cameras, the synchronizer,
    the image writer, the watchdog that harvests the frame counters, and the interrupt that
    stops them.  A schedule names the thread whose turn it is; a thread that would wait for
    a frame or for a buffer's mutex does not move. */
module StereoPipeline {
  import opened Frames

  // ---------------------------------------------------------------- state

  datatype CameraPc = LoopTest | Stamp | PushFrame | AddTotal | AddRecent | Finished

  /** Everything on one side of the stereo pair.  A hand holds at most one frame: the one
      that the camera, the synchronizer or the writer has in a local variable. */
  datatype Side = Side(
    camera: CameraPc, nextId: int, cameraHand: seq<Frame>, cameraRing: Channel,
    total: int, recent: int, harvested: int,
    syncHand: seq<Frame>, rejected: seq<Frame>, syncRing: Channel,
    writerHand: seq<Frame>, written: seq<Frame>)

  datatype SyncPc = LoopTest | TestLeft | CheckLeft | TestRight | CheckRight | Compare | PushLeft | PushRight | Finished

  datatype WriterPc = LoopTest | TestLeft | CheckLeft | TestRight | CheckRight | Write | Finished

  datatype WatchdogPc = LoopTest | SecondTest | TakeLeft | TakeRight | Finished

  /** `accepted` lists the pairs that passed the synchronizer's test; `underflow` records a
      read of an empty buffer. */
  datatype Pipeline = Pipeline(
    running: bool, left: Side, right: Side,
    sync: SyncPc, writer: WriterPc, watchdog: WatchdogPc,
    accepted: seq<(Frame, Frame)>, underflow: bool)

  datatype Turn =
    | Interrupt | LeftCamera(clock: Timespec) | RightCamera(clock: Timespec)
    | Synchronizer | Writer | Watchdog

  function InitSide(capacity: nat): Side {
    Side(CameraPc.LoopTest, 1, [], NewChannel(capacity), 0, 0, 0, [], [], NewChannel(capacity), [], [])
  }

  function Init(capacity: nat): Pipeline {
    Pipeline(true, InitSide(capacity), InitSide(capacity),
             SyncPc.LoopTest, WriterPc.LoopTest, WatchdogPc.LoopTest, [], false)
  }

  // ---------------------------------------------------------------- steps

  /** A camera thread; `free` says that nobody holds the mutex of its buffer. */
  function CameraNext(side: Side, running: bool, free: bool, clock: Timespec): Side {
    match side.camera
    case LoopTest => side.(camera := if running then Stamp else CameraPc.Finished)
    case Stamp => side.(camera := PushFrame, nextId := side.nextId + 1, cameraHand := [Frame(side.nextId, clock)])
    case PushFrame =>
      if free && side.cameraHand != []
      then side.(camera := AddTotal, cameraHand := [], cameraRing := Push(side.cameraRing, side.cameraHand[0]))
      else side
    case AddTotal => side.(camera := AddRecent, total := side.total + 1)
    case AddRecent => side.(camera := CameraPc.LoopTest, recent := side.recent + 1)
    case Finished => side
  }

  /** The take of a pop by the synchronizer and by the writer. */
  function SyncTakes(side: Side): Side
    requires side.cameraRing.live != []
  {
    side.(syncHand := [side.cameraRing.live[0]], cameraRing := Pop(side.cameraRing))
  }

  function WriterTakes(side: Side): Side
    requires side.syncRing.live != []
  {
    side.(writerHand := [side.syncRing.live[0]], syncRing := Pop(side.syncRing))
  }

  function Rejects(side: Side): Side {
    side.(syncHand := [], rejected := side.rejected + side.syncHand)
  }

  function Forwards(side: Side): Side
    requires side.syncHand != []
  {
    side.(syncHand := [], syncRing := Push(side.syncRing, side.syncHand[0]))
  }

  function Writes(side: Side): Side {
    side.(writerHand := [], written := side.written + side.writerHand)
  }

  /** The synchronizer.  From the test of a pop's wait loop to the take it holds the mutex of
      the camera buffer; the flag is read in the test and again in the check after it. */
  function SyncNext(s: Pipeline): Pipeline {
    match s.sync
    case LoopTest => s.(sync := if s.running then SyncPc.TestLeft else SyncPc.Finished)
    case TestLeft => if s.left.cameraRing.live == [] && s.running then s else s.(sync := SyncPc.CheckLeft)
    case CheckLeft =>
      if !s.running && s.left.cameraRing.live == [] then s.(sync := SyncPc.Finished)
      else if s.left.cameraRing.live == [] then s.(underflow := true)
      else s.(sync := SyncPc.TestRight, left := SyncTakes(s.left))
    case TestRight => if s.right.cameraRing.live == [] && s.running then s else s.(sync := SyncPc.CheckRight)
    case CheckRight =>
      if !s.running && s.right.cameraRing.live == [] then s.(sync := SyncPc.Finished)
      else if s.right.cameraRing.live == [] then s.(underflow := true)
      else s.(sync := Compare, right := SyncTakes(s.right))
    case Compare =>
      if s.left.syncHand == [] || s.right.syncHand == [] then s
      else if WithinTolerance(s.left.syncHand[0], s.right.syncHand[0])
      then s.(sync := PushLeft, accepted := s.accepted + [(s.left.syncHand[0], s.right.syncHand[0])])
      else s.(sync := SyncPc.LoopTest, left := Rejects(s.left), right := Rejects(s.right))
    case PushLeft =>
      if s.writer == WriterPc.CheckLeft || s.left.syncHand == [] then s
      else s.(sync := PushRight, left := Forwards(s.left))
    case PushRight =>
      if s.writer == WriterPc.CheckRight || s.right.syncHand == [] then s
      else s.(sync := SyncPc.LoopTest, right := Forwards(s.right))
    case Finished => s
  }

  function WriterNext(s: Pipeline): Pipeline {
    match s.writer
    case LoopTest => s.(writer := if s.running then WriterPc.TestLeft else WriterPc.Finished)
    case TestLeft => if s.left.syncRing.live == [] && s.running then s else s.(writer := WriterPc.CheckLeft)
    case CheckLeft =>
      if !s.running && s.left.syncRing.live == [] then s.(writer := WriterPc.Finished)
      else if s.left.syncRing.live == [] then s.(underflow := true)
      else s.(writer := WriterPc.TestRight, left := WriterTakes(s.left))
    case TestRight => if s.right.syncRing.live == [] && s.running then s else s.(writer := WriterPc.CheckRight)
    case CheckRight =>
      if !s.running && s.right.syncRing.live == [] then s.(writer := WriterPc.Finished)
      else if s.right.syncRing.live == [] then s.(underflow := true)
      else s.(writer := Write, right := WriterTakes(s.right))
    case Write => s.(writer := WriterPc.LoopTest, left := Writes(s.left), right := Writes(s.right))
    case Finished => s
  }

  /** The watchdog exchanges the recent counters for zero, one after the other. */
  function WatchdogNext(s: Pipeline): Pipeline {
    match s.watchdog
    case LoopTest => s.(watchdog := if s.running then SecondTest else WatchdogPc.Finished)
    case SecondTest => s.(watchdog := if s.running then TakeLeft else WatchdogPc.Finished)
    case TakeLeft => s.(watchdog := TakeRight, left := Harvest(s.left))
    case TakeRight => s.(watchdog := WatchdogPc.LoopTest, right := Harvest(s.right))
    case Finished => s
  }

  function Harvest(side: Side): Side {
    side.(recent := 0, harvested := side.harvested + side.recent)
  }

  function Next(s: Pipeline, turn: Turn): Pipeline {
    match turn
    case Interrupt => s.(running := false)
    case LeftCamera(clock) => s.(left := CameraNext(s.left, s.running, s.sync != SyncPc.CheckLeft, clock))
    case RightCamera(clock) => s.(right := CameraNext(s.right, s.running, s.sync != SyncPc.CheckRight, clock))
    case Synchronizer => SyncNext(s)
    case Writer => WriterNext(s)
    case Watchdog => WatchdogNext(s)
  }

  function Run(s: Pipeline, schedule: seq<Turn>): Pipeline {
    if schedule == [] then s else Next(Run(s, schedule[..|schedule| - 1]), schedule[|schedule| - 1])
  }

  // ---------------------------------------------------------------- invariant of one side

  /** Every frame that the camera has stamped, in order. */
  function Generated(side: Side): seq<Frame> {
    side.cameraRing.pushed + side.cameraHand
  }

  /** Every frame that has come through the synchronizer's left or right pop and was not
      rejected, in order. */
  function Synchronized(side: Side): seq<Frame> {
    side.syncRing.pushed + side.syncHand
  }

  ghost predicate Increasing(fs: seq<Frame>) {
    forall i, j :: 0 <= i < j < |fs| ==> fs[i].id < fs[j].id
  }

  ghost predicate HandsOk(side: Side) {
    |side.cameraHand| == (if side.camera.PushFrame? then 1 else 0) && |side.syncHand| <= 1 && |side.writerHand| <= 1
  }

  /** Frames are numbered from one without gaps. */
  ghost predicate Numbered(side: Side) {
    && side.nextId == |Generated(side)| + 1
    && forall i :: 0 <= i < |Generated(side)| ==> Generated(side)[i].id == i + 1
  }

  /** Frames past the synchronizer are in order and older than those still to come. */
  ghost predicate InSequence(side: Side) {
    && Increasing(Synchronized(side))
    && forall i :: 0 <= i < |Synchronized(side)| ==>
         Synchronized(side)[i].id <= |side.cameraRing.popped| + |side.cameraRing.dropped|
  }

  /** Every frame popped by the synchronizer went on, was rejected or is in its hand. */
  ghost predicate SyncConserves(side: Side) {
    multiset(side.cameraRing.popped) == multiset(Synchronized(side)) + multiset(side.rejected)
  }

  ghost predicate Counted(side: Side) {
    && side.total - side.harvested - side.recent == (if side.camera.AddRecent? then 1 else 0)
    && side.total == |side.cameraRing.pushed| - (if side.camera.AddTotal? then 1 else 0)
  }

  ghost predicate SideOk(side: Side) {
    && Truthful(side.cameraRing) && Truthful(side.syncRing)
    && HandsOk(side) && Numbered(side) && InSequence(side) && SyncConserves(side) && Counted(side)
    && side.syncRing.popped == side.written + side.writerHand
  }

  lemma InitSideOk(capacity: nat)
    requires capacity > 0
    ensures SideOk(InitSide(capacity))
  {
  }

  lemma CameraNumbers(side: Side, running: bool, free: bool, clock: Timespec)
    requires Numbered(side) && HandsOk(side)
    ensures Numbered(CameraNext(side, running, free, clock)) && HandsOk(CameraNext(side, running, free, clock))
  {
    var side' := CameraNext(side, running, free, clock);
    if side.camera.Stamp? {
      assert Generated(side') == Generated(side) + [Frame(side.nextId, clock)];
    } else {
      assert Generated(side') == Generated(side);
    }
  }

  lemma CameraKeepsSide(side: Side, running: bool, free: bool, clock: Timespec)
    requires SideOk(side)
    ensures SideOk(CameraNext(side, running, free, clock))
  {
    hide Truthful, Numbered;
    CameraNumbers(side, running, free, clock);
    if side.camera.PushFrame? && free {
      PushIsTruthful(side.cameraRing, side.cameraHand[0]);
    }
  }

  lemma TakeInSequence(side: Side)
    requires InSequence(side) && side.cameraRing.live != [] && side.syncHand == []
    requires side.cameraRing.live[0].id == |side.cameraRing.popped| + |side.cameraRing.dropped| + 1
    ensures InSequence(SyncTakes(side))
  {
    var before := Synchronized(side);
    assert Synchronized(SyncTakes(side)) == before + [side.cameraRing.live[0]];
    hide Synchronized;
  }

  lemma TakeConserves(side: Side)
    requires SyncConserves(side) && side.cameraRing.live != [] && side.syncHand == []
    ensures SyncConserves(SyncTakes(side))
  {
    var f := side.cameraRing.live[0];
    var before := Synchronized(side);
    assert Synchronized(SyncTakes(side)) == before + [f];
    hide Synchronized;
    assert multiset(before + [f]) == multiset(before) + multiset{f};
  }

  lemma SyncTakesKeepsSide(side: Side)
    requires SideOk(side) && side.cameraRing.live != [] && side.syncHand == []
    ensures SideOk(SyncTakes(side))
  {
    TakenIsNext(side);
    hide Truthful, InSequence, SyncConserves;
    PopIsTruthful(side.cameraRing);
    TakeInSequence(side);
    TakeConserves(side);
  }

  /** The synchronizer's pop returns the frame numbered right after all that were popped or
      dropped before. */
  lemma TakenIsNext(side: Side)
    requires HoldsTheLatest(side.cameraRing) && side.cameraRing.live != [] && Numbered(side)
    ensures side.cameraRing.live[0].id == |side.cameraRing.popped| + |side.cameraRing.dropped| + 1
  {
    PopHoldsTheLatest(side.cameraRing);
    assert Generated(side)[|side.cameraRing.popped| + |side.cameraRing.dropped|] == side.cameraRing.live[0];
  }

  lemma RejectsKeepsSide(side: Side)
    requires SideOk(side)
    ensures SideOk(Rejects(side)) && Rejects(side).syncHand == []
  {
    hide Truthful;
    var before := Synchronized(side);
    assert Synchronized(Rejects(side)) == before[..|side.syncRing.pushed|];
    assert multiset(before) == multiset(side.syncRing.pushed) + multiset(side.syncHand);
    assert multiset(side.rejected + side.syncHand) == multiset(side.rejected) + multiset(side.syncHand);
  }

  lemma ForwardsKeepsSide(side: Side)
    requires SideOk(side) && side.syncHand != []
    ensures SideOk(Forwards(side))
  {
    hide Truthful;
    PushIsTruthful(side.syncRing, side.syncHand[0]);
    assert side.syncHand == [side.syncHand[0]];
    assert Synchronized(Forwards(side)) == Synchronized(side);
  }

  lemma WriterTakesKeepsSide(side: Side)
    requires SideOk(side) && side.syncRing.live != [] && side.writerHand == []
    ensures SideOk(WriterTakes(side))
  {
    hide Truthful;
    PopIsTruthful(side.syncRing);
    assert Synchronized(WriterTakes(side)) == Synchronized(side);
  }

  lemma WritesAndHarvestKeepSide(side: Side)
    requires SideOk(side)
    ensures SideOk(Writes(side)) && SideOk(Harvest(side))
  {
    hide Truthful;
  }

  // ---------------------------------------------------------------- invariant of the pair

  /** Which local variables of the two popping threads hold a frame. */
  predicate HandsMatch(s: Pipeline) {
    var l, r := |s.left.syncHand|, |s.right.syncHand|;
    var wl, wr := |s.left.writerHand|, |s.right.writerHand|;
    && (match s.sync
        case TestRight => l == 1 && r == 0
        case CheckRight => l == 1 && r == 0
        case Compare => l == 1 && r == 1
        case PushLeft => l == 1 && r == 1
        case PushRight => l == 0 && r == 1
        case Finished => l <= 1 && r == 0
        case _ => l == 0 && r == 0)
    && (match s.writer
        case TestRight => wl == 1 && wr == 0
        case CheckRight => wl == 1 && wr == 0
        case Write => wl == 1 && wr == 1
        case Finished => wl <= 1 && wr == 0
        case _ => wl == 0 && wr == 0)
  }

  /** A thread past the wait loop finds a frame or a cleared flag, so it never underflows. */
  predicate ChecksAreSafe(s: Pipeline) {
    && !s.underflow
    && (s.sync.CheckLeft? ==> s.left.cameraRing.live != [] || !s.running)
    && (s.sync.CheckRight? ==> s.right.cameraRing.live != [] || !s.running)
    && (s.writer.CheckLeft? ==> s.left.syncRing.live != [] || !s.running)
    && (s.writer.CheckRight? ==> s.right.syncRing.live != [] || !s.running)
  }

  function Lefts(pairs: seq<(Frame, Frame)>): seq<Frame> {
    seq(|pairs|, i requires 0 <= i < |pairs| => pairs[i].0)
  }

  function Rights(pairs: seq<(Frame, Frame)>): seq<Frame> {
    seq(|pairs|, i requires 0 <= i < |pairs| => pairs[i].1)
  }

  /** The accepted pairs are what the synchronizer pushed, half by half; the left halves lead
      by one between its two pushes. */
  ghost predicate PairsArePushed(s: Pipeline) {
    && Lefts(s.accepted) == s.left.syncRing.pushed + (if s.sync.PushLeft? then s.left.syncHand else [])
    && Rights(s.accepted)
         == s.right.syncRing.pushed + (if s.sync.PushLeft? || s.sync.PushRight? then s.right.syncHand else [])
    && forall i :: 0 <= i < |s.accepted| ==> WithinTolerance(s.accepted[i].0, s.accepted[i].1)
  }

  /** Rejected frames were rejected in pairs, and every such pair was too far apart. */
  ghost predicate PairsAreRejected(s: Pipeline) {
    && |s.left.rejected| == |s.right.rejected|
    && forall i :: 0 <= i < |s.left.rejected| ==> Apart(s.left.rejected[i], s.right.rejected[i])
  }

  /** How far the two lossy rings behind the synchronizer can drift apart. */
  ghost predicate SkewIsBounded(s: Pipeline) {
    var l, r := s.left.syncRing, s.right.syncRing;
    && l.capacity == r.capacity
    && |s.left.written| == |s.right.written|
    && -1 <= |l.dropped| - |r.dropped| <= 1
    && |r.skips| <= |l.skips|
    && forall k :: 0 <= k < |r.skips| ==> l.skips[k] <= r.skips[k] + 1
  }

  ghost predicate Inv(s: Pipeline) {
    && SideOk(s.left) && SideOk(s.right)
    && HandsMatch(s) && ChecksAreSafe(s) && PairsArePushed(s) && PairsAreRejected(s) && SkewIsBounded(s)
  }

  lemma InitInv(capacity: nat)
    requires capacity > 0
    ensures Inv(Init(capacity))
  {
    hide SideOk;
    InitSideOk(capacity);
  }

  /** The counts behind the bound: pushes lead by at most one, pops lead by at most one, and
      neither ring holds more than its capacity. */
  lemma LeftDropFits(s: Pipeline)
    requires Inv(s) && s.sync.PushLeft? && |s.left.syncRing.live| == s.left.syncRing.capacity
    ensures |s.left.syncRing.dropped| <= |s.right.syncRing.dropped|
  {
    assert |Lefts(s.accepted)| == |Rights(s.accepted)|;
    hide Conserved, PopsAreNumbered, Numbered, InSequence, SyncConserves, Counted;
  }

  lemma RightDropFits(s: Pipeline)
    requires Inv(s) && s.sync.PushRight? && |s.right.syncRing.live| == s.right.syncRing.capacity
    ensures |s.right.syncRing.dropped| <= |s.left.syncRing.dropped|
  {
    assert |Lefts(s.accepted)| == |Rights(s.accepted)|;
    hide Conserved, PopsAreNumbered, Numbered, InSequence, SyncConserves, Counted;
  }

  // ---------------------------------------------------------------- every step

  /** Steps that push nothing on the rings behind the synchronizer leave the pairs alone. */
  lemma SamePairs(s: Pipeline, s': Pipeline)
    requires PairsArePushed(s) && s'.accepted == s.accepted && s'.sync == s.sync
    requires s'.left.syncHand == s.left.syncHand && s'.left.syncRing.pushed == s.left.syncRing.pushed
    requires s'.right.syncHand == s.right.syncHand && s'.right.syncRing.pushed == s.right.syncRing.pushed
    ensures PairsArePushed(s')
  {
  }

  lemma SameSkew(s: Pipeline, s': Pipeline)
    requires SkewIsBounded(s)
    requires s'.left.syncRing == s.left.syncRing && s'.right.syncRing == s.right.syncRing
    requires |s'.left.written| == |s'.right.written|
    ensures SkewIsBounded(s')
  {
  }

  lemma CameraKeeps(s: Pipeline, turn: Turn)
    requires Inv(s) && (turn.LeftCamera? || turn.RightCamera?)
    ensures Inv(Next(s, turn))
  {
    hide SideOk, PairsArePushed, SkewIsBounded;
    SkewGivesWritten(s);
    SamePairs(s, Next(s, turn));
    SameSkew(s, Next(s, turn));
    if turn.LeftCamera? {
      CameraKeepsSide(s.left, s.running, s.sync != SyncPc.CheckLeft, turn.clock);
    } else {
      CameraKeepsSide(s.right, s.running, s.sync != SyncPc.CheckRight, turn.clock);
    }
  }

  lemma SyncPopsKeep(s: Pipeline)
    requires Inv(s) && (s.sync.CheckLeft? || s.sync.CheckRight?)
    ensures Inv(SyncNext(s))
  {
    hide SideOk;
    if s.sync.CheckLeft? && s.left.cameraRing.live != [] {
      SyncTakesKeepsSide(s.left);
    } else if s.sync.CheckRight? && s.right.cameraRing.live != [] {
      SyncTakesKeepsSide(s.right);
    }
  }

  lemma CompareKeeps(s: Pipeline)
    requires Inv(s) && s.sync.Compare?
    ensures Inv(SyncNext(s))
  {
    hide SideOk, WithinTolerance;
    var l, r := s.left.syncHand[0], s.right.syncHand[0];
    if WithinTolerance(l, r) {
      assert Lefts(s.accepted + [(l, r)]) == Lefts(s.accepted) + [l];
      assert Rights(s.accepted + [(l, r)]) == Rights(s.accepted) + [r];
      assert s.left.syncHand == [l] && s.right.syncHand == [r];
    } else {
      RejectsKeepsSide(s.left);
      RejectsKeepsSide(s.right);
      ToleranceInNanoseconds(l, r);
      assert s.left.syncHand == [l] && s.right.syncHand == [r];
    }
  }

  lemma PushLeftKeeps(s: Pipeline)
    requires Inv(s) && s.sync.PushLeft?
    ensures Inv(SyncNext(s))
  {
    hide SideOk, WithinTolerance, Lefts, Rights;
    ForwardsKeepsSide(s.left);
    assert s.left.syncHand == [s.left.syncHand[0]];
    if |s.left.syncRing.live| == s.left.syncRing.capacity {
      LeftDropFits(s);
    }
  }

  lemma PushRightKeeps(s: Pipeline)
    requires Inv(s) && s.sync.PushRight?
    ensures Inv(SyncNext(s))
  {
    hide SideOk, WithinTolerance, Lefts, Rights;
    ForwardsKeepsSide(s.right);
    assert s.right.syncHand == [s.right.syncHand[0]];
    if |s.right.syncRing.live| == s.right.syncRing.capacity {
      RightDropFits(s);
    }
  }

  lemma SyncKeeps(s: Pipeline)
    requires Inv(s)
    ensures Inv(SyncNext(s))
  {
    match s.sync {
      case CheckLeft => SyncPopsKeep(s);
      case CheckRight => SyncPopsKeep(s);
      case Compare => CompareKeeps(s);
      case PushLeft => PushLeftKeeps(s);
      case PushRight => PushRightKeeps(s);
      case _ => hide SideOk, WithinTolerance, Lefts, Rights;
    }
  }

  lemma SkipsMatchPops(s: Pipeline)
    requires Inv(s)
    ensures |s.left.syncRing.skips| == |s.left.written| + |s.left.writerHand|
    ensures |s.right.syncRing.skips| == |s.right.written| + |s.right.writerHand|
    ensures forall k :: 0 <= k < |s.left.syncRing.skips| ==> s.left.syncRing.skips[k] <= |s.left.syncRing.dropped|
  {
    hide Conserved, Numbered, InSequence, SyncConserves, Counted, PairsArePushed, HandsMatch;
  }

  lemma SkewAfterLeftPop(s: Pipeline)
    requires SkewIsBounded(s) && s.left.syncRing.live != []
    ensures SkewIsBounded(s.(left := WriterTakes(s.left), writer := WriterPc.TestRight))
  {
  }

  lemma SkewAfterRightPop(s: Pipeline)
    requires SkewIsBounded(s) && s.right.syncRing.live != []
    requires |s.right.syncRing.skips| < |s.left.syncRing.skips|
    requires forall k :: 0 <= k < |s.left.syncRing.skips| ==> s.left.syncRing.skips[k] <= |s.left.syncRing.dropped|
    ensures SkewIsBounded(s.(right := WriterTakes(s.right), writer := Write))
  {
  }

  lemma WriterKeepsHands(s: Pipeline)
    requires HandsMatch(s)
    ensures HandsMatch(WriterNext(s))
  {
  }

  lemma WriterKeepsSafe(s: Pipeline)
    requires ChecksAreSafe(s)
    ensures ChecksAreSafe(WriterNext(s))
  {
  }

  lemma WriterLeavesSync(s: Pipeline)
    ensures WriterNext(s).accepted == s.accepted && WriterNext(s).sync == s.sync
    ensures WriterNext(s).left.syncHand == s.left.syncHand && WriterNext(s).right.syncHand == s.right.syncHand
    ensures WriterNext(s).left.rejected == s.left.rejected && WriterNext(s).right.rejected == s.right.rejected
  {
  }

  lemma WriterPushesNothing(s: Pipeline)
    ensures WriterNext(s).left.syncRing.pushed == s.left.syncRing.pushed
    ensures WriterNext(s).right.syncRing.pushed == s.right.syncRing.pushed
  {
  }

  lemma WriterLeavesPairs(s: Pipeline)
    requires PairsArePushed(s) && PairsAreRejected(s)
    ensures PairsArePushed(WriterNext(s)) && PairsAreRejected(WriterNext(s))
  {
    hide PairsArePushed, WriterNext;
    WriterLeavesSync(s);
    WriterPushesNothing(s);
    SamePairs(s, WriterNext(s));
  }

  lemma WriterKeepsSides(s: Pipeline)
    requires SideOk(s.left) && SideOk(s.right) && HandsMatch(s)
    ensures SideOk(WriterNext(s).left) && SideOk(WriterNext(s).right)
  {
    hide SideOk;
    match s.writer {
      case CheckLeft => if s.left.syncRing.live != [] { WriterTakesKeepsSide(s.left); }
      case CheckRight => if s.right.syncRing.live != [] { WriterTakesKeepsSide(s.right); }
      case Write =>
        WritesAndHarvestKeepSide(s.left);
        WritesAndHarvestKeepSide(s.right);
      case _ =>
    }
  }

  lemma WriterKeepsSkew(s: Pipeline)
    requires Inv(s)
    ensures SkewIsBounded(WriterNext(s))
  {
    SkipsMatchPops(s);
    hide SideOk, PairsArePushed, ChecksAreSafe, SkewIsBounded;
    SkewGivesWritten(s);
    if s.writer.CheckLeft? && s.left.syncRing.live != [] {
      SkewAfterLeftPop(s);
    } else if s.writer.CheckRight? && s.right.syncRing.live != [] {
      SkewAfterRightPop(s);
    } else {
      SameSkew(s, WriterNext(s));
    }
  }

  lemma WriterKeeps(s: Pipeline)
    requires Inv(s)
    ensures Inv(WriterNext(s))
  {
    hide SideOk, PairsArePushed, PairsAreRejected, SkewIsBounded, HandsMatch, ChecksAreSafe, WriterNext;
    WriterKeepsHands(s);
    WriterKeepsSafe(s);
    WriterKeepsSides(s);
    WriterKeepsSkew(s);
    WriterLeavesPairs(s);
  }

  lemma SkewGivesWritten(s: Pipeline)
    requires SkewIsBounded(s)
    ensures |s.left.written| == |s.right.written|
  {
  }

  lemma WatchdogKeeps(s: Pipeline)
    requires Inv(s)
    ensures Inv(WatchdogNext(s))
  {
    hide SideOk, PairsArePushed, SkewIsBounded;
    SkewGivesWritten(s);
    SamePairs(s, WatchdogNext(s));
    SameSkew(s, WatchdogNext(s));
    WritesAndHarvestKeepSide(s.left);
    WritesAndHarvestKeepSide(s.right);
  }

  lemma InterruptKeeps(s: Pipeline)
    requires Inv(s)
    ensures Inv(s.(running := false))
  {
    hide SideOk;
  }

  /** The invariant is kept by every step of every thread, for every buffer size. */
  lemma StepKeeps(s: Pipeline, turn: Turn)
    requires Inv(s)
    ensures Inv(Next(s, turn))
  {
    hide Inv, SyncNext, WriterNext, WatchdogNext, CameraNext;
    match turn {
      case LeftCamera(_) => CameraKeeps(s, turn);
      case RightCamera(_) => CameraKeeps(s, turn);
      case Synchronizer => SyncKeeps(s);
      case Writer => WriterKeeps(s);
      case Watchdog => WatchdogKeeps(s);
      case Interrupt => InterruptKeeps(s);
    }
  }

  lemma {:induction false} RunKeeps(capacity: nat, schedule: seq<Turn>)
    requires capacity > 0
    ensures Inv(Run(Init(capacity), schedule))
  {
    hide Inv;
    if schedule == [] {
      InitInv(capacity);
    } else {
      RunKeeps(capacity, schedule[..|schedule| - 1]);
      StepKeeps(Run(Init(capacity), schedule[..|schedule| - 1]), schedule[|schedule| - 1]);
    }
  }
}
