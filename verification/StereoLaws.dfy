/** What holds of every run of the stereo pipeline, for every buffer size and every order of
    turns, with the interrupt at any moment or never. */
module StereoLaws {
  import opened Frames
  import opened StereoPipeline

  /** A pop never reads an empty buffer, although the flag is read twice and may be cleared
      between the two readings. */
  lemma NeverUnderflows(capacity: nat, schedule: seq<Turn>)
    requires capacity > 0
    ensures !Run(Init(capacity), schedule).underflow
  {
    RunKeeps(capacity, schedule);
  }

  /** The skew bound: the two rings behind the synchronizer overflow at different moments,
      but at every moment they have dropped the same number of frames up to one. */
  lemma SkewBound(capacity: nat, schedule: seq<Turn>)
    requires capacity > 0
    ensures var s := Run(Init(capacity), schedule);
            -1 <= |s.left.syncRing.dropped| - |s.right.syncRing.dropped| <= 1
  {
    RunKeeps(capacity, schedule);
  }

  // ---------------------------------------------------------------- pairing at the writer

  /** The number among the accepted pairs of the k-th left and right half that was written. */
  function LeftNumber(s: Pipeline, k: nat): nat
    requires k < |s.left.syncRing.skips|
  {
    k + s.left.syncRing.skips[k]
  }

  function RightNumber(s: Pipeline, k: nat): nat
    requires k < |s.right.syncRing.skips|
  {
    k + s.right.syncRing.skips[k]
  }

  lemma SideNumbers(side: Side, k: nat)
    requires SideOk(side) && k < |side.written|
    ensures k < |side.syncRing.skips| && k + side.syncRing.skips[k] < |side.syncRing.pushed|
    ensures side.written[k] == side.syncRing.pushed[k + side.syncRing.skips[k]]
  {
    hide HoldsTheLatest, Conserved, Numbered, InSequence, SyncConserves, Counted;
    assert side.written[k] == side.syncRing.popped[k];
  }

  /** The pairing law: the k-th left half written is that of accepted pair k plus the number
      of left drops before it was popped, the k-th right half that of pair k plus the right
      drops, and the right half is never more than one pair behind the left. */
  lemma PairingLaw(s: Pipeline, k: nat)
    requires Inv(s) && k < |s.left.written|
    ensures |s.right.written| == |s.left.written|
    ensures k < |s.left.syncRing.skips| && LeftNumber(s, k) < |s.accepted|
    ensures k < |s.right.syncRing.skips| && RightNumber(s, k) < |s.accepted|
    ensures s.left.written[k] == s.accepted[LeftNumber(s, k)].0
    ensures s.right.written[k] == s.accepted[RightNumber(s, k)].1
    ensures LeftNumber(s, k) - 1 <= RightNumber(s, k)
  {
    hide SideOk;
    SideNumbers(s.left, k);
    SideNumbers(s.right, k);
    assert s.left.written[k] == Lefts(s.accepted)[LeftNumber(s, k)];
    assert s.right.written[k] == Rights(s.accepted)[RightNumber(s, k)];
  }

  /** Accepted left frames are pairwise different, and so are accepted right frames. */
  lemma AcceptedInOrder(s: Pipeline)
    requires Inv(s)
    ensures Increasing(Lefts(s.accepted)) && Increasing(Rights(s.accepted))
  {
    hide Truthful, HandsOk, Numbered, SyncConserves, Counted, WithinTolerance, Lefts, Rights;
    assert Lefts(s.accepted) <= Synchronized(s.left);
    assert Rights(s.accepted) <= Synchronized(s.right);
  }

  /** The two frames written together were accepted together, and then lie within the
      tolerance, if and only if as many frames had been dropped on the left before the left
      pop as on the right before the right pop. */
  lemma WrittenPairsMatchIff(s: Pipeline, k: nat)
    requires Inv(s) && k < |s.left.written|
    ensures |s.right.written| == |s.left.written|
    ensures k < |s.left.syncRing.skips| && k < |s.right.syncRing.skips|
    ensures (s.left.written[k], s.right.written[k]) in s.accepted <==>
            s.left.syncRing.skips[k] == s.right.syncRing.skips[k]
    ensures s.left.syncRing.skips[k] == s.right.syncRing.skips[k] ==>
            WithinTolerance(s.left.written[k], s.right.written[k])
  {
    PairingLaw(s, k);
    AcceptedInOrder(s);
    assert PairsArePushed(s);
    hide Inv, WithinTolerance;
    var pair := (s.left.written[k], s.right.written[k]);
    var l, r := LeftNumber(s, k), RightNumber(s, k);
    if pair in s.accepted {
      var j :| 0 <= j < |s.accepted| && s.accepted[j] == pair;
      assert Lefts(s.accepted)[j].id == Lefts(s.accepted)[l].id;
      assert Rights(s.accepted)[j].id == Rights(s.accepted)[r].id;
    }
  }

  /** The writer's k-th pair is the k-th accepted one if and only if nothing had been dropped
      before either of its pops. */
  lemma InStepIff(s: Pipeline, k: nat)
    requires Inv(s) && k < |s.left.written|
    ensures |s.right.written| == |s.left.written| && k < |s.accepted|
    ensures k < |s.left.syncRing.skips| && k < |s.right.syncRing.skips|
    ensures (s.left.written[k], s.right.written[k]) == s.accepted[k] <==>
            s.left.syncRing.skips[k] == 0 && s.right.syncRing.skips[k] == 0
  {
    PairingLaw(s, k);
    AcceptedInOrder(s);
    hide Inv, WithinTolerance;
    var lefts, rights := Lefts(s.accepted), Rights(s.accepted);
    assert s.left.written[k] == lefts[LeftNumber(s, k)] && s.right.written[k] == rights[RightNumber(s, k)];
    assert s.accepted[k] == (lefts[k], rights[k]);
  }

  /** In every run in which neither ring behind the synchronizer has overflowed, however long,
      the writer writes the accepted pairs, in order and each within the tolerance. */
  lemma MatchedWithoutOverflow(capacity: nat, schedule: seq<Turn>, k: nat)
    requires capacity > 0
    requires Run(Init(capacity), schedule).left.syncRing.dropped == []
    requires Run(Init(capacity), schedule).right.syncRing.dropped == []
    requires k < |Run(Init(capacity), schedule).left.written|
    ensures var s := Run(Init(capacity), schedule);
            && k < |s.right.written| && k < |s.accepted|
            && (s.left.written[k], s.right.written[k]) == s.accepted[k]
            && WithinTolerance(s.left.written[k], s.right.written[k])
  {
    hide Run, Init, WithinTolerance;
    var s := Run(Init(capacity), schedule);
    RunKeeps(capacity, schedule);
    InStepIff(s, k);
    assert PairsArePushed(s) && PopsAreNumbered(s.left.syncRing) && PopsAreNumbered(s.right.syncRing);
    hide Inv;
  }

  /** In particular nothing goes wrong until more pairs have been accepted than a buffer holds. */
  lemma MatchedUntilFull(capacity: nat, schedule: seq<Turn>, k: nat)
    requires capacity > 0
    requires |Run(Init(capacity), schedule).accepted| <= capacity
    requires k < |Run(Init(capacity), schedule).left.written|
    ensures var s := Run(Init(capacity), schedule);
            && k < |s.right.written| && k < |s.accepted|
            && (s.left.written[k], s.right.written[k]) == s.accepted[k]
            && WithinTolerance(s.left.written[k], s.right.written[k])
  {
    hide Run, Init, Inv, WithinTolerance;
    RunKeeps(capacity, schedule);
    CapacityKept(capacity, schedule);
    NoDropsYet(Run(Init(capacity), schedule));
    MatchedWithoutOverflow(capacity, schedule, k);
  }

  lemma NoDropsYet(s: Pipeline)
    requires Inv(s) && |s.accepted| <= s.left.syncRing.capacity == s.right.syncRing.capacity
    ensures s.left.syncRing.dropped == [] && s.right.syncRing.dropped == []
  {
    hide Conserved, HandsOk, Numbered, InSequence, SyncConserves, Counted, WithinTolerance;
    assert |Lefts(s.accepted)| == |Rights(s.accepted)| == |s.accepted|;
  }

  /** All four buffers have the same size. */
  predicate Sized(s: Pipeline, capacity: nat) {
    && s.left.cameraRing.capacity == s.right.cameraRing.capacity == capacity
    && s.left.syncRing.capacity == s.right.syncRing.capacity == capacity
  }

  lemma SyncKeepsCapacity(s: Pipeline, capacity: nat)
    requires Sized(s, capacity)
    ensures Sized(SyncNext(s), capacity)
  {
    hide WithinTolerance;
  }

  lemma WriterKeepsCapacity(s: Pipeline, capacity: nat)
    requires Sized(s, capacity)
    ensures Sized(WriterNext(s), capacity)
  {
  }

  lemma StepKeepsCapacity(s: Pipeline, turn: Turn, capacity: nat)
    requires Sized(s, capacity)
    ensures Sized(Next(s, turn), capacity)
  {
    hide SyncNext, WriterNext;
    SyncKeepsCapacity(s, capacity);
    WriterKeepsCapacity(s, capacity);
  }

  lemma {:induction false} CapacityKept(capacity: nat, schedule: seq<Turn>)
    requires capacity > 0
    ensures Sized(Run(Init(capacity), schedule), capacity)
  {
    hide Next;
    if schedule != [] {
      CapacityKept(capacity, schedule[..|schedule| - 1]);
      StepKeepsCapacity(Run(Init(capacity), schedule[..|schedule| - 1]), schedule[|schedule| - 1], capacity);
    }
  }

  // ---------------------------------------------------------------- conservation and order

  /** Where a frame of one side can be. */
  function Places(side: Side): multiset<Frame> {
    multiset(side.cameraHand)
    + multiset(side.cameraRing.live) + multiset(side.cameraRing.dropped)
    + multiset(side.syncHand) + multiset(side.rejected)
    + multiset(side.syncRing.live) + multiset(side.syncRing.dropped)
    + multiset(side.writerHand) + multiset(side.written)
  }

  lemma SideConserves(side: Side)
    requires SideOk(side)
    ensures Places(side) == multiset(Generated(side))
  {
    hide HoldsTheLatest, PopsAreNumbered, HandsOk, Numbered, InSequence, Counted;
    var camera, ring := side.cameraRing, side.syncRing;
    assert multiset(ring.popped) == multiset(side.written) + multiset(side.writerHand);
    assert multiset(Synchronized(side)) == multiset(ring.pushed) + multiset(side.syncHand);
    assert multiset(Generated(side)) == multiset(camera.pushed) + multiset(side.cameraHand);
  }

  lemma {:induction false} NumberedOnce(fs: seq<Frame>, f: Frame)
    requires forall i :: 0 <= i < |fs| ==> fs[i].id == i + 1
    requires f in fs
    ensures multiset(fs)[f] == 1
  {
    var n := |fs| - 1;
    assert fs == fs[..n] + [fs[n]];
    if f == fs[n] {
      assert f !in fs[..n];
    } else {
      NumberedOnce(fs[..n], f);
    }
  }

  /** Conservation: at every moment every frame that a camera has generated is in exactly one
      place: its hand, the first ring, dropped there, the synchronizer's hand, rejected, the
      second ring, dropped there, the writer's hand, or written. */
  lemma EveryFrameInOnePlace(capacity: nat, schedule: seq<Turn>, f: Frame)
    requires capacity > 0
    ensures var s := Run(Init(capacity), schedule);
            && Places(s.left)[f] == (if f in Generated(s.left) then 1 else 0)
            && Places(s.right)[f] == (if f in Generated(s.right) then 1 else 0)
  {
    var s := Run(Init(capacity), schedule);
    RunKeeps(capacity, schedule);
    hide Run, Init, Places;
    OnePlace(s.left, f);
    OnePlace(s.right, f);
  }

  lemma OnePlace(side: Side, f: Frame)
    requires SideOk(side)
    ensures Places(side)[f] == (if f in Generated(side) then 1 else 0)
  {
    SideConserves(side);
    hide Places, Truthful, HandsOk, InSequence, SyncConserves, Counted;
    if f in Generated(side) {
      NumberedOnce(Generated(side), f);
    }
  }

  /** The frames written on a side are in the order in which its camera took them. */
  lemma WrittenInOrder(side: Side)
    requires SideOk(side)
    ensures Increasing(side.written)
  {
    hide HoldsTheLatest, Conserved, HandsOk, Numbered, SyncConserves, Counted;
    forall i, j | 0 <= i < j < |side.written|
      ensures side.written[i].id < side.written[j].id
    {
      assert side.written[i] == side.syncRing.popped[i] && side.written[j] == side.syncRing.popped[j];
      var m, n := i + side.syncRing.skips[i], j + side.syncRing.skips[j];
      assert side.written[i] == Synchronized(side)[m] && side.written[j] == Synchronized(side)[n];
    }
  }

  lemma WrittenInOrderAlways(capacity: nat, schedule: seq<Turn>)
    requires capacity > 0
    ensures Increasing(Run(Init(capacity), schedule).left.written)
    ensures Increasing(Run(Init(capacity), schedule).right.written)
  {
    RunKeeps(capacity, schedule);
    WrittenInOrder(Run(Init(capacity), schedule).left);
    WrittenInOrder(Run(Init(capacity), schedule).right);
  }

  // ---------------------------------------------------------------- lock-free counters

  /** The watchdog's exchanges lose no count: the total is what it has harvested plus what it
      has still to harvest, plus one exactly between the camera's two increments; and when
      the cameras have finished, the report is the number of frames pushed. */
  lemma CountersAgree(capacity: nat, schedule: seq<Turn>)
    requires capacity > 0
    ensures var s := Run(Init(capacity), schedule);
            && s.left.total - s.left.harvested - s.left.recent == (if s.left.camera.AddRecent? then 1 else 0)
            && s.right.total - s.right.harvested - s.right.recent == (if s.right.camera.AddRecent? then 1 else 0)
            && (s.left.camera.Finished? ==>
                  s.left.harvested + s.left.recent == s.left.total == |Generated(s.left)|)
            && (s.right.camera.Finished? ==>
                  s.right.harvested + s.right.recent == s.right.total == |Generated(s.right)|)
  {
    RunKeeps(capacity, schedule);
    hide Truthful, Run, Init;
  }
}
