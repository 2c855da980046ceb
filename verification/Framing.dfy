/** Newline-delimited frames cut out of a byte stream: the worker loop of the supervisor and the
    request loop of the managed controller. How the stream was split into reads never shows. */
module Framing {
  newtype byte = b: int | 0 <= b < 256

  const NEWLINE: byte := 10
  const MAX_FRAME := 2_200_000
  const MAX_REQUEST := 600_000
  const CHUNK := 65536

  /** Why a loop ended: the stream did, a frame or remainder was too long, or a frame was the last. */
  datatype End = Closed | TooLarge | Finished

  datatype Outcome = Outcome(frames: seq<seq<byte>>, end: End)

  /** Whether the frames read so far end the loop with the newest of them: a result, a failure, a
      request to shut down, or one delta or tool attempt more than the budgets of the run allow. */
  type Stop = seq<seq<byte>> -> bool

  /** The first newline, or the length when there is none. */
  function Find(s: seq<byte>): (i: nat)
    ensures i <= |s|
    ensures i < |s| ==> s[i] == NEWLINE
    ensures forall k | 0 <= k < i :: s[k] != NEWLINE
  {
    if s == [] || s[0] == NEWLINE then 0 else 1 + Find(s[1..])
  }

  /** What a stream means after the frames in `read`, whatever its reads: frames of at most `max`
      bytes with their newline, up to the first that is longer or the one with which `last` holds of
      all frames read. An open remainder may hold `room` bytes. */
  function Frames(s: seq<byte>, read: seq<seq<byte>>, max: nat, room: nat, last: Stop): Outcome
    decreases |s|
  {
    var i := Find(s);
    if i == |s| then Outcome(read, if |s| <= room then Closed else TooLarge)
    else if i + 1 > max then Outcome(read, TooLarge)
    else if last(read + [s[..i]]) then Outcome(read + [s[..i]], Finished)
    else Frames(s[i + 1..], read + [s[..i]], max, room, last)
  }

  lemma FindIn(s: seq<byte>, t: seq<byte>)
    ensures Find(s) < |s| ==> Find(s + t) == Find(s)
    ensures Find(s) == |s| ==> Find(s + t) >= |s|
  {
    hide Find;
    assert forall k | 0 <= k < |s| :: (s + t)[k] == s[k];
  }

  /** Taking one frame off the front. */
  lemma TakeFrame(pending: seq<byte>, later: seq<byte>, read: seq<seq<byte>>, max: nat, room: nat, last: Stop)
    requires Find(pending) < |pending| && Find(pending) + 1 <= max
    ensures var i := Find(pending);
            var more := read + [pending[..i]];
            Frames(pending + later, read, max, room, last) ==
              if last(more) then Outcome(more, Finished) else Frames(pending[i + 1..] + later, more, max, room, last)
  {
    var i := Find(pending);
    FindIn(pending, later);
    assert (pending + later)[..i] == pending[..i];
    assert (pending + later)[i + 1..] == pending[i + 1..] + later;
  }

  lemma TooLong(pending: seq<byte>, later: seq<byte>, read: seq<seq<byte>>, max: nat, room: nat, last: Stop)
    requires Find(pending) + 1 > max && |pending| > room
    ensures Frames(pending + later, read, max, room, last) == Outcome(read, TooLarge)
  {
    FindIn(pending, later);
  }

  lemma Remainder(pending: seq<byte>, read: seq<seq<byte>>, max: nat, room: nat, last: Stop)
    requires Find(pending) == |pending| <= room
    ensures Frames(pending, read, max, room, last) == Outcome(read, Closed)
  {}

  /** Reading moves bytes from the stream to the buffer. */
  lemma Refill(pending: seq<byte>, stream: seq<byte>, pos: nat, size: nat)
    requires pos + size <= |stream|
    ensures pending + stream[pos..] == (pending + stream[pos..pos + size]) + stream[pos + size..]
  {}

  /** The supervisor's loop. Each read takes what the pipe offers, never more than would make the
      buffer exceed one byte over the limit; `peak` is the largest the buffer has been. */
  method ReadWorker(stream: seq<byte>, last: Stop) returns (r: Outcome, peak: nat)
    ensures r == Frames(stream, [], MAX_FRAME, MAX_FRAME, last)
    ensures peak <= MAX_FRAME + 1
  {
    hide Frames, Find;
    var pending: seq<byte>, frames, pos := [], [], 0;
    peak := 0;
    assert stream[0..] == stream && pending + stream == stream;
    while true
      invariant 0 <= pos <= |stream| && |pending| <= peak <= MAX_FRAME + 1
      invariant Frames(stream, [], MAX_FRAME, MAX_FRAME, last) ==
                Frames(pending + stream[pos..], frames, MAX_FRAME, MAX_FRAME, last)
      decreases |stream| - pos, |pending|
    {
      var newline := Find(pending);
      if newline == |pending| {
        if |pending| > MAX_FRAME {
          TooLong(pending, stream[pos..], frames, MAX_FRAME, MAX_FRAME, last);
          return Outcome(frames, TooLarge), peak;
        }
        if pos == |stream| {
          assert pending + stream[pos..] == pending;
          Remainder(pending, frames, MAX_FRAME, MAX_FRAME, last);
          return Outcome(frames, Closed), peak;
        }
        var offered: nat :| 1 <= offered <= |stream| - pos;
        var room := if CHUNK < MAX_FRAME + 1 - |pending| then CHUNK else MAX_FRAME + 1 - |pending|;
        var size := if offered < room then offered else room;
        Refill(pending, stream, pos, size);
        pending := pending + stream[pos..pos + size];
        pos := pos + size;
        peak := if |pending| > peak then |pending| else peak;
      } else {
        if newline + 1 > MAX_FRAME {
          TooLong(pending, stream[pos..], frames, MAX_FRAME, MAX_FRAME, last);
          return Outcome(frames, TooLarge), peak;
        }
        TakeFrame(pending, stream[pos..], frames, MAX_FRAME, MAX_FRAME, last);
        frames := frames + [pending[..newline]];
        if last(frames) { return Outcome(frames, Finished), peak; }
        pending := pending[newline + 1..];
      }
    }
  }

  /** The controller's loop. Every frame of a read is handled before the next read, and the check
      on what is left comes after them. */
  method ReadController(stream: seq<byte>, last: Stop) returns (r: Outcome, peak: nat)
    ensures r == Frames(stream, [], MAX_REQUEST, MAX_REQUEST - 1, last)
    ensures peak < MAX_REQUEST + CHUNK
  {
    hide Frames, Find;
    var pending: seq<byte>, frames, pos := [], [], 0;
    peak := 0;
    assert stream[0..] == stream && pending + stream == stream;
    while pos < |stream|
      invariant 0 <= pos <= |stream| && |pending| < MAX_REQUEST && peak < MAX_REQUEST + CHUNK
                && Find(pending) == |pending|
      invariant Frames(stream, [], MAX_REQUEST, MAX_REQUEST - 1, last) ==
                Frames(pending + stream[pos..], frames, MAX_REQUEST, MAX_REQUEST - 1, last)
      decreases |stream| - pos
    {
      var size: nat :| 1 <= size <= |stream| - pos && size <= CHUNK;
      Refill(pending, stream, pos, size);
      pending := pending + stream[pos..pos + size];
      pos := pos + size;
      peak := if |pending| > peak then |pending| else peak;
      while Find(pending) < |pending|
        invariant |pending| < MAX_REQUEST + CHUNK
        invariant Frames(stream, [], MAX_REQUEST, MAX_REQUEST - 1, last) ==
                  Frames(pending + stream[pos..], frames, MAX_REQUEST, MAX_REQUEST - 1, last)
        decreases |pending|
      {
        var end := Find(pending);
        if end + 1 > MAX_REQUEST {
          TooLong(pending, stream[pos..], frames, MAX_REQUEST, MAX_REQUEST - 1, last);
          return Outcome(frames, TooLarge), peak;
        }
        TakeFrame(pending, stream[pos..], frames, MAX_REQUEST, MAX_REQUEST - 1, last);
        frames := frames + [pending[..end]];
        if last(frames) { return Outcome(frames, Finished), peak; }
        pending := pending[end + 1..];
      }
      if |pending| >= MAX_REQUEST {
        TooLong(pending, stream[pos..], frames, MAX_REQUEST, MAX_REQUEST - 1, last);
        return Outcome(frames, TooLarge), peak;
      }
    }
    assert pending + stream[pos..] == pending;
    Remainder(pending, frames, MAX_REQUEST, MAX_REQUEST - 1, last);
    return Outcome(frames, Closed), peak;
  }

  // ---------------------------------------------------------------- what the frames are

  function Encode(frames: seq<seq<byte>>): seq<byte> {
    if frames == [] then [] else frames[0] + [NEWLINE] + Encode(frames[1..])
  }

  predicate Sendable(frame: seq<byte>, max: nat) { |frame| + 1 <= max && NEWLINE !in frame }

  lemma HeadFrame(frame: seq<byte>)
    requires NEWLINE !in frame
    ensures Find(frame + [NEWLINE]) == |frame|
  {
    hide Find;
    var head := frame + [NEWLINE];
    assert head[|frame|] == NEWLINE;
    assert forall k | 0 <= k < |frame| :: head[k] == frame[k] && frame[k] in frame;
  }

  /** What was sent as frames is read as those frames, when none of them ends the loop; what follows
      them is read as if it came right after them. */
  lemma {:induction false} FramesRoundTrip(frames: seq<seq<byte>>, tail: seq<byte>, read: seq<seq<byte>>, max: nat,
                                           room: nat, last: Stop)
    requires forall i | 0 <= i < |frames| :: Sendable(frames[i], max)
    requires forall n | 1 <= n <= |frames| :: !last(read + frames[..n])
    ensures Frames(Encode(frames) + tail, read, max, room, last) == Frames(tail, read + frames, max, room, last)
    decreases |frames|
  {
    hide Frames, Find;
    if frames == [] {
      assert Encode(frames) + tail == tail && read + frames == read;
    } else {
      var head, more := frames[0] + [NEWLINE], read + [frames[0]];
      var later := Encode(frames[1..]) + tail;
      var rest := frames[1..];
      forall n | 1 <= n <= |rest| ensures !last(more + rest[..n]) {
        assert more + rest[..n] == read + frames[..n + 1];
      }
      FramesRoundTrip(rest, tail, more, max, room, last);
      assert Encode(frames) + tail == head + later;
      HeadFrame(frames[0]);
      assert head[..|frames[0]|] == frames[0] && head[|frames[0]| + 1..] + later == later;
      TakeFrame(head, later, read, max, room, last);
      assert frames[..1] == [frames[0]];
      assert more + rest == read + frames;
    }
  }

  /** Reading loses nothing: the stream is the frames read, as sent, and a remainder that explains
      the end. `last` holds of the frames only when the loop ended with them. */
  ghost predicate Explains(s: seq<byte>, read: seq<seq<byte>>, r: Outcome, tail: seq<byte>, max: nat, room: nat,
                           last: Stop) {
    && read <= r.frames && s == Encode(r.frames[|read|..]) + tail
    && (forall i | |read| <= i < |r.frames| ::
          Sendable(r.frames[i], max) && (last(r.frames[..i + 1]) <==> r.end == Finished && i == |r.frames| - 1))
    && match r.end
       case Closed => |tail| <= room && NEWLINE !in tail
       case TooLarge => |tail| > room && forall k | 0 <= k < max && k < |tail| :: tail[k] != NEWLINE
       case Finished => |r.frames| > |read|
  }

  lemma {:induction false} ReadingLosesNothing(s: seq<byte>, read: seq<seq<byte>>, max: nat, room: nat, last: Stop)
    requires room <= max <= room + 1
    ensures exists tail :: Explains(s, read, Frames(s, read, max, room, last), tail, max, room, last)
    decreases |s|
  {
    var i := Find(s);
    var r := Frames(s, read, max, room, last);
    if i == |s| || i + 1 > max {
      hide Find;
      assert s == Encode([]) + s;
      assert Explains(s, read, r, s, max, room, last);
    } else {
      hide Find;
      var frame, later := s[..i], s[i + 1..];
      var more := read + [frame];
      assert s == frame + [NEWLINE] + later;
      assert NEWLINE !in frame;
      if last(more) {
        assert r.frames[|read|..] == [frame] && [frame][1..] == [];
        assert Encode([frame]) == frame + [NEWLINE];
        assert r.frames[..|read| + 1] == more;
        assert Explains(s, read, r, later, max, room, last);
      } else {
        ReadingLosesNothing(later, more, max, room, last);
        var tail :| Explains(later, more, r, tail, max, room, last);
        ExplainsMore(frame, later, read, r, tail, max, room, last);
      }
    }
  }

  lemma ExplainsMore(frame: seq<byte>, later: seq<byte>, read: seq<seq<byte>>, r: Outcome, tail: seq<byte>, max: nat,
                     room: nat, last: Stop)
    requires Explains(later, read + [frame], r, tail, max, room, last) && Sendable(frame, max) && !last(read + [frame])
    ensures Explains(frame + [NEWLINE] + later, read, r, tail, max, room, last)
  {
    var rest := r.frames[|read| + 1..];
    assert r.frames[|read|] == (read + [frame])[|read|] == frame;
    assert r.frames[|read|..] == [frame] + rest && ([frame] + rest)[1..] == rest;
    assert Encode(r.frames[|read|..]) == frame + [NEWLINE] + Encode(rest);
    assert r.frames[..|read| + 1] == read + [frame];
  }
}
