/** The circular frame buffer of lab6, updated in place.  `head` is the slot to write next and
    `tail` the slot to read next.  The mutex makes each operation atomic, except that a pop
    gives it up while it waits; what the other threads do then is an input of `Pop`. */
module FrameBuffers {
  import opened Frames
  import opened Rings

  /** A pop gets a frame, or gives up because the system is stopping, or is still waiting
      when the supplied wake-ups are used up. */
  datatype PopResult = Popped(frame: Frame) | Stopped | Waiting

  function Flatten<T>(xss: seq<seq<T>>): seq<T> {
    if xss == [] then [] else Flatten(xss[..|xss| - 1]) + xss[|xss| - 1]
  }

  lemma NothingPushed(c: Channel, waits: seq<seq<Frame>>)
    ensures PushAll(c, Flatten(waits[..0])) == c
  {
  }

  lemma MorePushed(c: Channel, waits: seq<seq<Frame>>, n: nat)
    requires n < |waits|
    ensures PushAll(c, Flatten(waits[..n + 1])) == PushAll(PushAll(c, Flatten(waits[..n])), waits[n])
  {
    assert waits[..n + 1][..n] == waits[..n];
    PushAllConcat(c, Flatten(waits[..n]), waits[n]);
  }

  class FrameBuffer {
    const buffer: array<Frame>
    var head: int
    var tail: int
    var count: int
    /** What has happened to the buffer so far. */
    ghost var channel: Channel

    ghost predicate Valid()
      reads this, buffer
    {
      && Linked(buffer[..], tail, head, count)
      && channel.capacity == buffer.Length
      && channel.live == Window(buffer[..], tail, count)
      && Truthful(channel)
    }

    constructor (size: nat)
      requires size > 0
      ensures Valid() && fresh(buffer) && buffer.Length == size
      ensures channel == NewChannel(size)
    {
      buffer := new Frame[size](_ => Frame(0, Timespec(0, 0)));
      head, tail, count := 0, 0, 0;
      channel := NewChannel(size);
    }

    /** Appends the frame; a full buffer loses its oldest frame first. */
    method Push(frame: Frame)
      requires Valid()
      modifies this, buffer
      ensures Valid() && channel == Frames.Push(old(channel), frame)
    {
      hide Truthful, Window;
      var size := buffer.Length;
      if count == size {
        DropOldest(buffer[..], tail, count);
        NextSlot(tail, size);
        tail := (tail + 1) % size;
        count := count - 1;
      }
      WritePast(buffer[..], tail, count, frame);
      NextSlot(head, size);
      buffer[head] := frame;
      head := (head + 1) % size;
      count := count + 1;
      PushIsTruthful(channel, frame);
      channel := Frames.Push(channel, frame);
    }

    /** The part of a pop after the wait loop, when there is a frame. */
    method TakeOldest() returns (frame: Frame)
      requires Valid() && count > 0
      modifies this`tail, this`count, this`channel
      ensures Valid() && old(channel).live != []
      ensures channel == Frames.Pop(old(channel)) && frame == old(channel).live[0]
    {
      hide Truthful;
      DropOldest(buffer[..], tail, count);
      NextSlot(tail, buffer.Length);
      frame := buffer[tail];
      tail := (tail + 1) % buffer.Length;
      count := count - 1;
      PopIsTruthful(channel);
      channel := Frames.Pop(channel);
    }

    /** A blocking pop.  `running(n)` is what the test of the wait loop reads from the flag
        after `n` waits, and `running(n + 1)` what the test after the loop reads; the flag
        may be cleared at any moment and is never set again.  `waits[n]` holds the frames
        that the other threads push during its n-th wait, none after a spurious wake-up.
        It never reads an empty buffer, although the flag may change between the test of
        the wait loop and the test after it: it returns a frame if it finds one, and gives
        up exactly when it finds the buffer empty and the flag cleared. */
    method Pop(running: nat -> bool, waits: seq<seq<Frame>>) returns (r: PopResult, used: nat)
      requires Valid()
      requires forall m: nat, n: nat :: m <= n && running(n) ==> running(m)
      modifies this, buffer
      ensures Valid() && used <= |waits|
      ensures used > 0 ==> old(channel).live == [] && running(0)
      ensures forall n :: 0 <= n < used - 1 ==> waits[n] == []
      ensures var c := PushAll(old(channel), Flatten(waits[..used]));
              match r
              case Popped(f) => c.live != [] && f == c.live[0] && channel == Frames.Pop(c)
              case Stopped => c.live == [] && channel == c && !running(used)
              case Waiting => c.live == [] && channel == c && used == |waits| && running(used)
    {
      hide Truthful, Window, PushAll, Frames.Pop;
      used := 0;
      NothingPushed(channel, waits);
      while count == 0 && running(used)
        invariant Valid() && used <= |waits|
        invariant used > 0 ==> old(channel).live == [] && running(0)
        invariant forall n :: 0 <= n < used - 1 ==> waits[n] == []
        invariant used > 0 && count == 0 ==> waits[used - 1] == []
        invariant channel == PushAll(old(channel), Flatten(waits[..used]))
        decreases |waits| - used
      {
        if used == |waits| {
          r := Waiting;
          return;
        }
        MorePushed(old(channel), waits, used);
        PushAllIsTruthful(channel, waits[used]);
        PushDuringWait(waits[used]);
        used := used + 1;
      }
      if !running(used + 1) && count == 0 {
        r := Stopped;
      } else {
        var frame := TakeOldest();
        r := Popped(frame);
      }
    }

    method PushDuringWait(frames: seq<Frame>)
      requires Valid()
      modifies this, buffer
      ensures Valid() && channel == PushAll(old(channel), frames)
    {
      hide Truthful;
      for n := 0 to |frames|
        invariant Valid() && channel == PushAll(old(channel), frames[..n])
      {
        Push(frames[n]);
        assert frames[..n + 1][..n] == frames[..n];
      }
      assert frames[..|frames|] == frames;
    }
  }
}
