/// The older engine's `Sample`: a stream played into a buffer one point at a time, either
/// once or in a loop.
module Sample {
  import opened Wrappers
  import ST = Stream
  import Modulo

  datatype PlayStyle = OneShot | Loop

  /// The point `play` writes at `position`: a loop reads the stream (and fails past its
  /// end); a one-shot writes silence once it has reached the end.
  function Slot(audio: seq<real>, style: PlayStyle, position: nat): (r: Result<real, ST.StreamErr>)
    ensures style.Loop? ==> r == ST.SampleAt(audio, position)
    ensures style.OneShot? ==> r == if position >= |audio| then Ok(0.0) else ST.SampleAt(audio, position)
  {
    match style
    case Loop => ST.SampleAt(audio, position)
    case OneShot => if position >= |audio| then Ok(0.0) else ST.SampleAt(audio, position)
  }

  /// The position after a slot: from the last point (or beyond) a loop goes back to 0 and
  /// a one-shot stays at the end; otherwise it moves on by one. `sample_length - 1` needs a
  /// non-empty stream.
  function Next(len: nat, style: PlayStyle, position: nat): (r: nat)
    requires len > 0
    ensures style.Loop? ==> r < len
    ensures style.OneShot? ==> r <= len
    ensures position < len - 1 ==> r == position + 1
  {
    match style
    case Loop => if position >= len - 1 then 0 else position + 1
    case OneShot => if position >= len - 1 then len else position + 1
  }

  /// A one-shot over an empty stream computes `0 - 1` on an unsigned length as soon as a
  /// slot is played.
  predicate NoUnderflow(audio: seq<real>, style: PlayStyle, n: nat) {
    |audio| > 0 || style.Loop? || n == 0
  }

  /// How far `play` got: the points written, the position, and the error that stopped it.
  datatype Progress = Progress(written: seq<real>, position: nat, error: Option<ST.StreamErr>)

  /// `play` over the first `n` slots of the buffer from `position`.
  function Played(audio: seq<real>, style: PlayStyle, position: nat, n: nat): (r: Progress)
    requires NoUnderflow(audio, style, n)
    ensures |r.written| <= n && (r.error.None? ==> |r.written| == n)
    decreases n
  {
    if n == 0 then Progress([], position, None)
    else
      var p := Played(audio, style, position, n - 1);
      if p.error.Some? then p
      else match Slot(audio, style, p.position)
        case Err(e) => Progress(p.written, p.position, Some(e))
        case Ok(v) => Progress(p.written + [v], Next(|audio|, style, p.position), None)
  }

  /// Once `play` has failed, later slots change nothing.
  lemma {:induction false} ErrorSticks(audio: seq<real>, style: PlayStyle, position: nat, m: nat, n: nat)
    requires m <= n && NoUnderflow(audio, style, n)
    requires Played(audio, style, position, m).error.Some?
    ensures Played(audio, style, position, n) == Played(audio, style, position, m)
    decreases n - m
  {
    if m < n {
      ErrorSticks(audio, style, position, m, n - 1);
    }
  }

  /// A loop from a position within the stream never fails: slot `k` holds the point at
  /// `position + k` wrapped around the stream's length, and so does the final position.
  lemma {:induction false} LoopPlaysModulo(audio: seq<real>, position: nat, n: nat)
    requires position < |audio|
    ensures Played(audio, Loop, position, n).error.None?
    ensures Played(audio, Loop, position, n).position == (position + n) % |audio|
    ensures forall k :: 0 <= k < n ==> Played(audio, Loop, position, n).written[k] == audio[(position + k) % |audio|]
  {
    if n > 0 {
      LoopPlaysModulo(audio, position, n - 1);
      var q := Played(audio, Loop, position, n - 1);
      var len := |audio|;
      Modulo.ModSucc(position + n - 1, len);
      var v := audio[q.position];
      assert Slot(audio, Loop, q.position) == Ok(v);
      var p := Played(audio, Loop, position, n);
      assert p == Progress(q.written + [v], Next(len, Loop, q.position), None);
      forall k | 0 <= k < n
        ensures p.written[k] == audio[(position + k) % len]
      {
        if k < n - 1 {
          assert p.written[k] == q.written[k];
        }
      }
    }
  }

  /// A one-shot from a position within or at the end of the stream never fails: slot `k`
  /// holds the point at `position + k`, or silence past the end, and the position stops at
  /// the end.
  lemma {:induction false} OneShotPlays(audio: seq<real>, position: nat, n: nat)
    requires |audio| > 0 && position <= |audio|
    ensures var p := Played(audio, OneShot, position, n);
      && p.error.None?
      && p.position == (if position + n < |audio| then position + n else |audio|)
      && forall k :: 0 <= k < n ==> p.written[k] == if position + k < |audio| then audio[position + k] else 0.0
  {
    if n > 0 {
      OneShotPlays(audio, position, n - 1);
    }
  }

  /// A loop over an empty stream fails on its first slot, with the position as the index.
  lemma LoopOverNothingFails(position: nat, n: nat)
    requires n > 0
    ensures Played([], Loop, position, n) == Progress([], position, Some(ST.NonExistentIndex(position)))
  {
    assert Played([], Loop, position, 1).error.Some?;
    ErrorSticks([], Loop, position, 1, n);
  }

  /// Writing the slot after the written ones extends them by that point.
  lemma WriteNext(written: seq<real>, rest: seq<real>, v: real)
    requires rest != []
    ensures (written + rest)[|written| := v] == (written + [v]) + rest[1..]
  {
  }

  /// One turn of `play`'s loop: a slot read without error is written at the next index of
  /// the buffer, and the position moves on.
  lemma PlayStep(audio: seq<real>, style: PlayStyle, start: nat, i: nat, size: nat, before: seq<real>, value: real)
    requires NoUnderflow(audio, style, size) && i < size == |before|
    requires Played(audio, style, start, i).error.None?
    requires Slot(audio, style, Played(audio, style, start, i).position) == Ok(value)
    ensures |audio| > 0
    ensures Played(audio, style, start, i + 1) == Progress(Played(audio, style, start, i).written + [value],
      Next(|audio|, style, Played(audio, style, start, i).position), None)
    ensures (Played(audio, style, start, i).written + before[i..])[i := value]
      == Played(audio, style, start, i + 1).written + before[i + 1..]
  {
    var p := Played(audio, style, start, i);
    WriteNext(p.written, before[i..], value);
    assert before[i..][1..] == before[i + 1..];
  }

  class Sample {
    var name: string
    var stream: ST.Stream
    var position: nat
    var playStyle: PlayStyle
    const buffer: ST.Stream
    var speed: real

    /// The sample owns its buffer: it is not the stream it plays.
    predicate Valid()
      reads this
    {
      buffer != stream
    }

    /// `new`: at the start, looping, with an empty buffer of the stream's channel count.
    constructor(name: string, stream: ST.Stream)
      ensures Valid() && this.name == name && this.stream == stream
      ensures position == 0 && playStyle == Loop && speed == 1.0
      ensures buffer.samples == [] && buffer.channels == stream.channels && fresh(buffer)
    {
      this.name := name;
      this.stream := stream;
      buffer := new ST.Stream.Empty(0, stream.channels);
      speed := 1.0;
      position := 0;
      playStyle := Loop;
    }

    /// `play`: fills every slot of the buffer from the stream and moves the position on; a
    /// slot that cannot be read stops it with the error, leaving the earlier slots written.
    method Play() returns (r: Result<seq<real>, ST.StreamErr>)
      requires Valid() && NoUnderflow(stream.samples, playStyle, |buffer.samples|)
      modifies this, buffer
      ensures var p := Played(old(stream.samples), old(playStyle), old(position), |old(buffer.samples)|);
        && buffer.samples == p.written + old(buffer.samples)[|p.written|..]
        && position == p.position
        && r == if p.error.Some? then Err(p.error.value) else Ok(buffer.samples)
      ensures stream == old(stream) && stream.samples == old(stream.samples) && playStyle == old(playStyle)
      ensures name == old(name) && speed == old(speed) && buffer.channels == old(buffer.channels)
      ensures Valid()
    {
      var audio, start, size := stream.samples, position, |buffer.samples|;
      var len := stream.Len();
      var i := 0;
      while i < |buffer.samples|
        invariant 0 <= i <= |buffer.samples| == size && stream.samples == audio
        invariant NoUnderflow(audio, playStyle, size)
        invariant Played(audio, playStyle, start, i).error.None?
        invariant buffer.samples == Played(audio, playStyle, start, i).written + old(buffer.samples)[i..]
        invariant position == Played(audio, playStyle, start, i).position
        invariant stream == old(stream) && playStyle == old(playStyle) && name == old(name)
        invariant speed == old(speed) && buffer.channels == old(buffer.channels)
      {
        ghost var p := Played(audio, playStyle, start, i);
        var s: Result<real, ST.StreamErr>;
        match playStyle {
          case Loop =>
            s := stream.GetSample(position);
          case OneShot =>
            if position >= len {
              s := Ok(0.0);
            } else {
              s := stream.GetSample(position);
            }
        }
        assert s == Slot(audio, playStyle, p.position);
        if s.Err? {
          r := Err(s.error);
          ErrorSticks(audio, playStyle, start, i + 1, size);
          return;
        }
        var value := s.value;
        PlayStep(audio, playStyle, start, i, size, old(buffer.samples), value);
        buffer.samples := buffer.samples[i := value];
        position := Next(len, playStyle, position);
        i := i + 1;
      }
      assert old(buffer.samples)[i..] == [];
      assert buffer.samples == Played(audio, playStyle, start, i).written;
      r := Ok(buffer.samples);
    }

    /// `set_buffer_size`: the buffer cut or padded with 0.0 to `size` points.
    method SetBufferSize(size: nat)
      requires Valid()
      modifies buffer
      ensures buffer.samples == ST.Resized(old(buffer.samples), size)
      ensures buffer.channels == old(buffer.channels)
    {
      buffer.samples := ST.Resized(buffer.samples, size);
    }
  }

  const NinePoints: seq<real> := [0.0, 0.1, 0.2, 0.3, 0.4, 0.5, 0.6, 0.7, 0.8]
  const FivePoints: seq<real> := [0.0, 0.1, 0.2, 0.3, 0.4]

  /// The points a loop over `audio` writes into `n` slots from `position`, and where it ends.
  lemma LoopWrites(audio: seq<real>, position: nat, n: nat, expected: seq<real>, end: nat)
    requires position < |audio| && |expected| == n && end == (position + n) % |audio|
    requires forall k :: 0 <= k < n ==> expected[k] == audio[(position + k) % |audio|]
    ensures Played(audio, Loop, position, n) == Progress(expected, end, None)
  {
    LoopPlaysModulo(audio, position, n);
  }

  /// The loop test with a buffer smaller than the stream, first call of `play`: 5 slots
  /// over 9 points from the start.
  lemma LoopSmallerFirst()
    ensures Played(NinePoints, Loop, 0, 5) == Progress([0.0, 0.1, 0.2, 0.3, 0.4], 5, None)
  {
    LoopWrites(NinePoints, 0, 5, [0.0, 0.1, 0.2, 0.3, 0.4], 5);
  }

  /// The second call goes on from position 5 and wraps to the start.
  lemma LoopSmallerSecond()
    ensures Played(NinePoints, Loop, 5, 5) == Progress([0.5, 0.6, 0.7, 0.8, 0.0], 1, None)
  {
    LoopWrites(NinePoints, 5, 5, [0.5, 0.6, 0.7, 0.8, 0.0], 1);
  }

  /// The third call goes on from position 1.
  lemma LoopSmallerThird()
    ensures Played(NinePoints, Loop, 1, 5) == Progress([0.1, 0.2, 0.3, 0.4, 0.5], 6, None)
  {
    LoopWrites(NinePoints, 1, 5, [0.1, 0.2, 0.3, 0.4, 0.5], 6);
  }

  /// The loop test with a buffer larger than the stream: two calls with 8 slots over 5
  /// points.
  lemma LoopLargerBuffer()
    ensures Played(FivePoints, Loop, 0, 8) == Progress([0.0, 0.1, 0.2, 0.3, 0.4, 0.0, 0.1, 0.2], 3, None)
    ensures Played(FivePoints, Loop, 3, 8) == Progress([0.3, 0.4, 0.0, 0.1, 0.2, 0.3, 0.4, 0.0], 1, None)
  {
    LoopWrites(FivePoints, 0, 8, [0.0, 0.1, 0.2, 0.3, 0.4, 0.0, 0.1, 0.2], 3);
    LoopWrites(FivePoints, 3, 8, [0.3, 0.4, 0.0, 0.1, 0.2, 0.3, 0.4, 0.0], 1);
  }

  /// The one-shot test: 8 slots over 5 points play the stream and then silence, and a
  /// second call is all silence.
  lemma OneShotBuffer()
    ensures var p1 := Played(FivePoints, OneShot, 0, 8);
      var p2 := Played(FivePoints, OneShot, p1.position, 8);
      && p1.error.None? && p1.written == [0.0, 0.1, 0.2, 0.3, 0.4, 0.0, 0.0, 0.0]
      && p2.error.None? && p2.written == [0.0, 0.0, 0.0, 0.0, 0.0, 0.0, 0.0, 0.0]
  {
    OneShotPlays(FivePoints, 0, 8);
    OneShotPlays(FivePoints, 5, 8);
  }
}
