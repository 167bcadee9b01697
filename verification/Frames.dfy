/** Camera frames of lab6, their timestamps, and the lossy queue that a frame buffer is: a
    bounded first-in-first-out queue that discards its oldest frame to admit a new one. */
module Frames {
  import opened Totals

  datatype Timespec = Timespec(sec: int, nsec: int)

  datatype Frame = Frame(id: int, timestamp: Timespec)

  const SYNC_TOLERANCE_MS := 20.0

  const CAMERA_FREQ_HZ := 25

  /** How long a camera sleeps between two frames, at least. */
  const PERIOD_NS := 1_000_000_000 / CAMERA_FREQ_HZ

  /** Time difference in milliseconds, over exact reals. */
  function TimeDiffMs(start: Timespec, end: Timespec): real {
    var startMs := start.sec as real * 1000.0 + start.nsec as real / 1000000.0;
    var endMs := end.sec as real * 1000.0 + end.nsec as real / 1000000.0;
    endMs - startMs
  }

  /** The synchronizer's test of a left and a right frame. */
  predicate WithinTolerance(left: Frame, right: Frame) {
    var diff := TimeDiffMs(left.timestamp, right.timestamp);
    (if diff < 0.0 then -diff else diff) < SYNC_TOLERANCE_MS
  }

  function Nanoseconds(t: Timespec): int {
    t.sec * 1_000_000_000 + t.nsec
  }

  /** At least 20 ms apart. */
  predicate Apart(f: Frame, g: Frame) {
    var distance := Nanoseconds(f.timestamp) - Nanoseconds(g.timestamp);
    distance <= -20_000_000 || 20_000_000 <= distance
  }

  /** The test is symmetric in the two cameras and accepts a pair exactly when the captures
      are less than twenty million nanoseconds apart. */
  lemma ToleranceInNanoseconds(left: Frame, right: Frame)
    ensures WithinTolerance(left, right) <==>
            -20_000_000 < Nanoseconds(left.timestamp) - Nanoseconds(right.timestamp) < 20_000_000
  {
    var diff := TimeDiffMs(left.timestamp, right.timestamp);
    var ns := Nanoseconds(right.timestamp) - Nanoseconds(left.timestamp);
    assert diff * 1000000.0 == ns as real;
  }

  // ---------------------------------------------------------------- lossy queue

  /** A lossy queue with its history: everything ever pushed, the frames popped and those
      dropped, and for each pop the number of drops that came before it. */
  datatype Channel = Channel(
    capacity: nat, live: seq<Frame>,
    pushed: seq<Frame>, popped: seq<Frame>, dropped: seq<Frame>, skips: seq<nat>)

  function NewChannel(capacity: nat): Channel {
    Channel(capacity, [], [], [], [], [])
  }

  function Push(c: Channel, f: Frame): Channel {
    if c.live != [] && |c.live| == c.capacity
    then c.(live := c.live[1..] + [f], pushed := c.pushed + [f], dropped := c.dropped + [c.live[0]])
    else c.(live := c.live + [f], pushed := c.pushed + [f])
  }

  function PushAll(c: Channel, fs: seq<Frame>): Channel {
    if fs == [] then c else Push(PushAll(c, fs[..|fs| - 1]), fs[|fs| - 1])
  }

  function Pop(c: Channel): Channel
    requires c.live != []
  {
    c.(live := c.live[1..], popped := c.popped + [c.live[0]], skips := c.skips + [|c.dropped|])
  }

  /** The queue holds the latest pushes that were neither popped nor dropped, they fit, and
      nothing was dropped before the queue had been filled. */
  ghost predicate HoldsTheLatest(c: Channel) {
    && 0 < c.capacity && |c.live| <= c.capacity
    && |c.popped| + |c.dropped| <= |c.pushed|
    && c.live == c.pushed[|c.popped| + |c.dropped|..]
    && (c.dropped != [] ==> c.capacity < |c.pushed|)
  }

  /** The k-th pop returned push number k plus the number of drops before it. */
  ghost predicate PopsAreNumbered(c: Channel) {
    && |c.skips| == |c.popped|
    && (forall k :: 0 <= k < |c.skips| ==>
          c.skips[k] <= |c.dropped| && k + c.skips[k] < |c.pushed| && c.popped[k] == c.pushed[k + c.skips[k]])
    && (forall j, k :: 0 <= j < k < |c.skips| ==> c.skips[j] <= c.skips[k])
  }

  /** No frame is lost or duplicated. */
  ghost predicate Conserved(c: Channel) {
    multiset(c.popped) + multiset(c.dropped) + multiset(c.live) == multiset(c.pushed)
  }

  ghost predicate Truthful(c: Channel) {
    HoldsTheLatest(c) && PopsAreNumbered(c) && Conserved(c)
  }

  lemma PushHoldsTheLatest(c: Channel, f: Frame)
    requires HoldsTheLatest(c)
    ensures HoldsTheLatest(Push(c, f))
  {
    var n := |c.popped| + |c.dropped|;
    if c.live != [] && |c.live| == c.capacity {
      assert (c.pushed + [f])[n + 1..] == c.pushed[n..][1..] + [f];
    } else {
      assert (c.pushed + [f])[n..] == c.pushed[n..] + [f];
    }
  }

  lemma PushKeepsNumbers(c: Channel, f: Frame)
    requires PopsAreNumbered(c)
    ensures PopsAreNumbered(Push(c, f))
  {
  }

  lemma PushConserves(c: Channel, f: Frame)
    requires Conserved(c)
    ensures Conserved(Push(c, f))
  {
    var all := multiset(c.popped) + multiset(c.dropped);
    if c.live != [] && |c.live| == c.capacity {
      HeadAndRest(c.live);
      calc {
        multiset(c.popped) + multiset(c.dropped + [c.live[0]]) + multiset(c.live[1..] + [f]);
        all + (multiset{c.live[0]} + multiset(c.live[1..])) + multiset{f};
        multiset(c.pushed) + multiset{f};
        multiset(c.pushed + [f]);
      }
    } else {
      assert all + multiset(c.live + [f]) == all + multiset(c.live) + multiset{f};
    }
  }

  lemma PushIsTruthful(c: Channel, f: Frame)
    requires Truthful(c)
    ensures Truthful(Push(c, f))
  {
    hide HoldsTheLatest, PopsAreNumbered, Conserved, Push;
    PushHoldsTheLatest(c, f);
    PushKeepsNumbers(c, f);
    PushConserves(c, f);
  }

  lemma PopHoldsTheLatest(c: Channel)
    requires HoldsTheLatest(c) && c.live != []
    ensures HoldsTheLatest(Pop(c))
    ensures c.live[0] == c.pushed[|c.popped| + |c.dropped|]
  {
    var n := |c.popped| + |c.dropped|;
    assert c.pushed[n..][1..] == c.pushed[n + 1..];
  }

  lemma PopIsNumbered(c: Channel)
    requires PopsAreNumbered(c) && c.live != []
    requires |c.popped| + |c.dropped| < |c.pushed| && c.live[0] == c.pushed[|c.popped| + |c.dropped|]
    ensures PopsAreNumbered(Pop(c))
  {
  }

  lemma PopConserves(c: Channel)
    requires Conserved(c) && c.live != []
    ensures Conserved(Pop(c))
  {
    HeadAndRest(c.live);
    calc {
      multiset(c.popped + [c.live[0]]) + multiset(c.dropped) + multiset(c.live[1..]);
      multiset(c.popped) + multiset(c.dropped) + (multiset{c.live[0]} + multiset(c.live[1..]));
      multiset(c.pushed);
    }
  }

  lemma PopIsTruthful(c: Channel)
    requires Truthful(c) && c.live != []
    ensures Truthful(Pop(c))
  {
    PopHoldsTheLatest(c);
    hide PopsAreNumbered, Conserved, Pop;
    PopIsNumbered(c);
    PopConserves(c);
  }

  /** A batch of pushes is all in the history, in order. */
  lemma {:induction false} PushAllIsTruthful(c: Channel, fs: seq<Frame>)
    requires Truthful(c)
    ensures Truthful(PushAll(c, fs)) && PushAll(c, fs).capacity == c.capacity
    ensures PushAll(c, fs).pushed == c.pushed + fs
    ensures PushAll(c, fs).popped == c.popped && PushAll(c, fs).skips == c.skips
    ensures fs != [] ==> PushAll(c, fs).live != []
  {
    hide Truthful;
    if fs == [] {
      assert c.pushed + fs == c.pushed;
    } else {
      var n := |fs| - 1;
      PushAllIsTruthful(c, fs[..n]);
      PushIsTruthful(PushAll(c, fs[..n]), fs[n]);
      assert PushAll(c, fs) == Push(PushAll(c, fs[..n]), fs[n]);
      hide PushAll;
      assert fs == fs[..n] + [fs[n]];
      assert c.pushed + fs == (c.pushed + fs[..n]) + [fs[n]];
    }
  }

  /** How many frames are too many for the buffer. */
  function Excess(c: Channel, n: nat): nat {
    if |c.live| + n > c.capacity then |c.live| + n - c.capacity else 0
  }

  lemma LastPush(c: Channel, fs: seq<Frame>)
    requires fs != []
    ensures PushAll(c, fs) == Push(PushAll(c, fs[..|fs| - 1]), fs[|fs| - 1])
  {
  }

  /** A push when `all` has come in and the oldest `e` of it have been dropped. */
  lemma PushToNewest(c: Channel, all: seq<Frame>, e: nat, f: Frame)
    requires 0 < c.capacity && e <= |all| && |all| - e <= c.capacity
    ensures var more, e' := all + [f], if |all| - e == c.capacity then e + 1 else e;
            Push(c.(live := all[e..], dropped := c.dropped + all[..e]), f) ==
            c.(live := more[e'..], dropped := c.dropped + more[..e'], pushed := c.pushed + [f])
  {
    var more := all + [f];
    if |all| - e == c.capacity {
      assert all[e..][1..] + [f] == more[e + 1..];
      assert (c.dropped + all[..e]) + [all[e]] == c.dropped + more[..e + 1];
    } else {
      assert all[e..] + [f] == more[e..];
      assert all[..e] == more[..e];
    }
  }

  lemma JoinLast<T>(xs: seq<T>, ys: seq<T>)
    requires ys != []
    ensures (xs + ys[..|ys| - 1]) + [ys[|ys| - 1]] == xs + ys
  {
  }

  /** What a buffer is after the frames `fs` have come in on top of what it held. */
  function Newest(c: Channel, fs: seq<Frame>): Channel
    requires |c.live| <= c.capacity
  {
    var all, e := c.live + fs, Excess(c, |fs|);
    c.(live := all[e..], dropped := c.dropped + all[..e], pushed := c.pushed + fs)
  }

  lemma NoneIsNewest(c: Channel)
    requires |c.live| <= c.capacity
    ensures Newest(c, []) == c
  {
    assert c.live + [] == c.live && c.pushed + [] == c.pushed && c.dropped + c.live[..0] == c.dropped;
  }

  lemma OneMoreIsNewest(c: Channel, fs: seq<Frame>)
    requires 0 < c.capacity && |c.live| <= c.capacity && fs != []
    ensures Push(Newest(c, fs[..|fs| - 1]), fs[|fs| - 1]) == Newest(c, fs)
  {
    hide Push;
    var n := |fs| - 1;
    PushToNewest(c.(pushed := c.pushed + fs[..n]), c.live + fs[..n], Excess(c, n), fs[n]);
    JoinLast(c.live, fs);
    JoinLast(c.pushed, fs);
  }

  lemma {:induction false} PushAllIsNewest(c: Channel, fs: seq<Frame>)
    requires 0 < c.capacity && |c.live| <= c.capacity
    ensures PushAll(c, fs) == Newest(c, fs)
  {
    hide Newest, Push;
    if fs == [] {
      NoneIsNewest(c);
    } else {
      hide PushAll;
      PushAllIsNewest(c, fs[..|fs| - 1]);
      LastPush(c, fs);
      OneMoreIsNewest(c, fs);
    }
  }

  /** Without pops, a buffer keeps exactly the newest frames that fit and drops exactly the older
      ones, in order; in particular it drops nothing as long as everything fits. */
  lemma KeepsTheNewest(c: Channel, fs: seq<Frame>)
    requires 0 < c.capacity && |c.live| <= c.capacity
    ensures var all, e := c.live + fs, Excess(c, |fs|);
            PushAll(c, fs) == c.(live := all[e..], dropped := c.dropped + all[..e], pushed := c.pushed + fs)
  {
    hide PushAll;
    PushAllIsNewest(c, fs);
  }

  lemma {:induction false} PushAllConcat(c: Channel, xs: seq<Frame>, ys: seq<Frame>)
    ensures PushAll(c, xs + ys) == PushAll(PushAll(c, xs), ys)
  {
    if ys == [] {
      assert xs + ys == xs;
    } else {
      PushAllConcat(c, xs, ys[..|ys| - 1]);
      assert (xs + ys)[..|xs + ys| - 1] == xs + ys[..|ys| - 1];
    }
  }
}
