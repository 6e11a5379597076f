/// `Clip` of the `basic` sources: plays the points of a stream one per sample, once or in
/// a loop, and stores each point as its signal in the tracker.
module Clip {
  import opened Wrappers
  import S = AudioSignal
  import CS = CoreStream
  import T = CoreTracker
  import Modulo

  datatype PlayStyle = OneShot | Loop

  /// The fields of a clip.
  datatype ClipState = ClipState(id: nat, audio: CS.Stream, position: nat, playStyle: PlayStyle, speed: real)

  /// The positions a clip can be at: up to the length for one-shot playback (the length
  /// itself once it has finished), below the length for a loop.
  predicate InRange(st: ClipState) {
    match st.playStyle
    case OneShot => st.position <= CS.Len(st.audio)
    case Loop => st.position < CS.Len(st.audio)
  }

  /// `step`: silence at or past the end, otherwise the point at the position; then the
  /// position moves on by one, except at (or past) the last index, where a one-shot clip
  /// stops at the length and a loop returns to 0. `audio_length - 1` underflows on an empty
  /// stream, so the stream must not be empty.
  function ClipStep(st: ClipState): (out: (ClipState, S.Signal))
    requires CS.Len(st.audio) > 0
    ensures out.0 == st.(position := out.0.position)
    ensures st.position >= CS.Len(st.audio) ==> out.1 == S.Silence
    ensures st.position < CS.Len(st.audio) ==> out.1 == S.Mono(CS.PointsOf(st.audio)[st.position])
    ensures InRange(out.0)
    ensures st.position + 1 < CS.Len(st.audio) ==> out.0.position == st.position + 1
    ensures st.position + 1 >= CS.Len(st.audio) ==>
      out.0.position == (if st.playStyle.OneShot? then CS.Len(st.audio) else 0)
  {
    var audioLength := CS.Len(st.audio);
    var signal :=
      if st.position >= audioLength then S.Silence
      else S.Mono(CS.GetPoint(st.audio, st.position).value);
    var position :=
      if st.position >= audioLength - 1 then
        match st.playStyle
        case OneShot => audioLength
        case Loop => 0
      else st.position + 1;
    (st.(position := position), signal)
  }

  /// `n` steps of a clip: the signals it produces, in order, and its fields afterwards.
  function Play(st: ClipState, n: nat): (out: (ClipState, seq<S.Signal>))
    requires CS.Len(st.audio) > 0
    ensures |out.1| == n && out.0.audio == st.audio && out.0.playStyle == st.playStyle
    decreases n
  {
    if n == 0 then (st, [])
    else
      var (next, signal) := ClipStep(st);
      var (last, rest) := Play(next, n - 1);
      (last, [signal] + rest)
  }

  /// A one-shot clip that has reached the end stays there and plays silence.
  lemma {:induction false} FinishedClipIsSilent(st: ClipState, n: nat)
    requires CS.Len(st.audio) > 0 && st.playStyle.OneShot? && st.position == CS.Len(st.audio)
    ensures Play(st, n).0 == st && Play(st, n).1 == seq(n, _ => S.Silence)
  {
    if n > 0 {
      FinishedClipIsSilent(st, n - 1);
      assert [S.Silence] + seq(n - 1, _ => S.Silence) == seq(n, _ => S.Silence);
    }
  }

  /// Step `k` of a run plays what one step from the position reached after `k` steps plays.
  lemma {:induction false} PlayIndex(st: ClipState, n: nat, k: nat)
    requires CS.Len(st.audio) > 0 && k < n
    ensures CS.Len(Play(st, k).0.audio) > 0
    ensures Play(st, n).1[k] == ClipStep(Play(st, k).0).1
    decreases k
  {
    if k > 0 {
      var next := ClipStep(st).0;
      PlayIndex(next, n - 1, k - 1);
    }
  }

  /// A loop at position `p` is at position `(p + n) mod length` after `n` steps.
  lemma {:induction false} PlayPositions(st: ClipState, n: nat)
    requires CS.Len(st.audio) > 0 && st.playStyle.Loop? && st.position < CS.Len(st.audio)
    ensures Play(st, n).0 == st.(position := (st.position + n) % CS.Len(st.audio))
    decreases n
  {
    var len := CS.Len(st.audio);
    if n > 0 {
      var next := ClipStep(st).0;
      PlayPositions(next, n - 1);
      if st.position + 1 < len {
        assert next.position + (n - 1) == st.position + n;
      } else {
        assert st.position + n == len + (n - 1);
        Modulo.ModShift(len, n - 1);
      }
    } else {
      assert st.position % len == st.position;
    }
  }

  /// A looping clip at position `p` plays point `(p + k) mod length` at step `k`.
  lemma LoopPlaysModulo(st: ClipState, n: nat, k: nat)
    requires CS.Len(st.audio) > 0 && st.playStyle.Loop? && st.position < CS.Len(st.audio)
    requires k < n
    ensures Play(st, n).1[k] == S.Mono(CS.PointsOf(st.audio)[(st.position + k) % CS.Len(st.audio)])
  {
    PlayIndex(st, n, k);
    PlayPositions(st, k);
  }

  class Clip {
    const id: nat
    var audio: CS.Stream
    var position: nat
    var playStyle: PlayStyle
    const speed: real

    ghost function State(): ClipState
      reads this
    {
      ClipState(id, audio, position, playStyle, speed)
    }

    /// `Clip::new`: a new id from the tracker, position 0, one-shot playback, speed 1.0.
    constructor (tracker: T.BasicTracker, audio: CS.Stream)
      requires tracker.idPosition < tracker.signals.Length
      modifies tracker, tracker.signals
      ensures State() == ClipState(old(tracker.idPosition), audio, 0, OneShot, 1.0)
      ensures tracker.idPosition == old(tracker.idPosition) + 1
      ensures tracker.signals[..] == old(tracker.signals[..])[id := Some(S.Silence)]
    {
      var newId := tracker.CreateId();
      this.id := newId;
      this.audio := audio;
      this.speed := 1.0;
      this.position := 0;
      this.playStyle := OneShot;
    }

    /// `step`, moving the position field.
    method Step() returns (signal: S.Signal)
      requires CS.Len(audio) > 0
      modifies this
      ensures (State(), signal) == ClipStep(old(State()))
    {
      var audioLength := CS.Len(audio);
      if position >= audioLength {
        signal := S.Silence;
      } else {
        signal := S.Mono(CS.GetPoint(audio, position).value);
      }
      if position >= audioLength - 1 {
        match playStyle {
          case OneShot => position := audioLength;
          case Loop => position := 0;
        }
      } else {
        position := position + 1;
      }
    }

    /// `Source::sample`: the next step is stored as the clip's signal.
    method Sample(tracker: T.BasicTracker)
      requires CS.Len(audio) > 0 && id < tracker.signals.Length
      modifies this, tracker.signals
      ensures State() == ClipStep(old(State())).0
      ensures tracker.signals[..] == old(tracker.signals[..])[id := Some(ClipStep(old(State())).1)]
    {
      var signal := Step();
      tracker.SetSignal(id, signal);
    }

    /// `Source::get_sources`: a clip depends on nothing.
    function GetSources(): (r: seq<nat>)
      ensures r == []
    {
      []
    }
  }

  /// A looping clip at position `p` plays points `p`, `p + 1`, ... wrapping around the end.
  lemma LoopRun(st: ClipState, n: nat)
    requires CS.Len(st.audio) > 0 && st.playStyle.Loop? && st.position < CS.Len(st.audio)
    ensures Play(st, n).1
      == seq(n, k requires 0 <= k < n => S.Mono(CS.PointsOf(st.audio)[(st.position + k) % CS.Len(st.audio)]))
    ensures Play(st, n).0 == st.(position := (st.position + n) % CS.Len(st.audio))
  {
    forall k | 0 <= k < n
      ensures Play(st, n).1[k] == S.Mono(CS.PointsOf(st.audio)[(st.position + k) % CS.Len(st.audio)])
    {
      LoopPlaysModulo(st, n, k);
    }
    PlayPositions(st, n);
  }

  /// The nine points of the looping test.
  const LoopTestPoints: seq<real> := [0.0, 0.1, 0.2, 0.3, 0.4, 0.5, 0.6, 0.7, 0.8]

  /// A clip of `points` played in a loop from `position`, as the looping test builds it.
  function Looping(points: seq<real>, position: nat): ClipState {
    ClipState(0, CS.Points(points), position, Loop, 1.0)
  }

  /// The looping test: 9 points played 5 at a time give 0.0 to 0.4, then 0.5 to 0.8 and 0.0,
  /// then 0.1 to 0.5.
  lemma LoopExample()
    ensures
      var first := Play(Looping(LoopTestPoints, 0), 5);
      var second := Play(first.0, 5);
      var third := Play(second.0, 5);
      first.1 == S.FromPoints([0.0, 0.1, 0.2, 0.3, 0.4])
      && second.1 == S.FromPoints([0.5, 0.6, 0.7, 0.8, 0.0])
      && third.1 == S.FromPoints([0.1, 0.2, 0.3, 0.4, 0.5])
  {
  }

  /// The first call of the looping test: the first five points.
  lemma LoopFirst(points: seq<real>, start: nat)
    requires points == LoopTestPoints && start == 0
    ensures Play(Looping(points, start), 5).1 == S.FromPoints([0.0, 0.1, 0.2, 0.3, 0.4])
    ensures Play(Looping(points, start), 5).0 == Looping(points, 5)
  {
  }

  /// The second call of the looping test: the last four points, then the first.
  lemma LoopSecond(points: seq<real>, start: nat)
    requires points == LoopTestPoints && start == 5
    ensures Play(Looping(points, start), 5).1 == S.FromPoints([0.5, 0.6, 0.7, 0.8, 0.0])
    ensures Play(Looping(points, start), 5).0 == Looping(points, 1)
  {
  }

  /// The third call of the looping test: five points from the second.
  lemma LoopThird(points: seq<real>, start: nat)
    requires points == LoopTestPoints && start == 1
    ensures Play(Looping(points, start), 5).1 == S.FromPoints([0.1, 0.2, 0.3, 0.4, 0.5])
    ensures Play(Looping(points, start), 5).0 == Looping(points, 6)
  {
  }

  /// A looping clip read for `n` steps from `start` gives the points from `start` on,
  /// wrapping around the end, and is left `n` points further on.
  lemma LoopWindow(points: seq<real>, start: nat, n: nat, expected: seq<real>)
    requires start < |points| && |expected| == n
    requires forall k :: 0 <= k < n ==> expected[k] == points[(start + k) % |points|]
    ensures Play(Looping(points, start), n).1 == S.FromPoints(expected)
    ensures Play(Looping(points, start), n).0 == Looping(points, (start + n) % |points|)
  {
    LoopRun(Looping(points, start), n);
  }

  /// The five points of the longer-buffer and one-shot tests.
  const ShortTestPoints: seq<real> := [0.0, 0.1, 0.2, 0.3, 0.4]

  /// The looping test with a buffer longer than the clip: 5 points played 8 at a time wrap
  /// around within each call.
  lemma LoopLongerExample()
    ensures
      var first := Play(Looping(ShortTestPoints, 0), 8);
      var second := Play(first.0, 8);
      first.1 == S.FromPoints([0.0, 0.1, 0.2, 0.3, 0.4, 0.0, 0.1, 0.2])
      && second.1 == S.FromPoints([0.3, 0.4, 0.0, 0.1, 0.2, 0.3, 0.4, 0.0])
  {
  }

  /// The first call of the longer-buffer test: from 0, wrapping after five points.
  lemma LoopLongerFirst()
    ensures Play(Looping(ShortTestPoints, 0), 8).1 == S.FromPoints([0.0, 0.1, 0.2, 0.3, 0.4, 0.0, 0.1, 0.2])
    ensures Play(Looping(ShortTestPoints, 0), 8).0 == Looping(ShortTestPoints, 3)
  {
  }

  /// The second call of the longer-buffer test: from 3, wrapping twice.
  lemma LoopLongerSecond()
    ensures Play(Looping(ShortTestPoints, 3), 8).1 == S.FromPoints([0.3, 0.4, 0.0, 0.1, 0.2, 0.3, 0.4, 0.0])
  {
  }

  /// A one-shot clip at position `p` plays the points from `p` on and then silence, and
  /// stops at the end of the stream.
  lemma {:induction false} OneShotRun(st: ClipState, n: nat)
    requires CS.Len(st.audio) > 0 && st.playStyle.OneShot? && st.position <= CS.Len(st.audio)
    ensures Play(st, n).0
      == st.(position := if st.position + n < CS.Len(st.audio) then st.position + n else CS.Len(st.audio))
    ensures forall k :: 0 <= k < n ==>
      Play(st, n).1[k]
        == if st.position + k < CS.Len(st.audio) then S.Mono(CS.PointsOf(st.audio)[st.position + k]) else S.Silence
    decreases n
  {
    if n > 0 {
      var next := ClipStep(st).0;
      OneShotRun(next, n - 1);
      forall k | 0 < k < n
        ensures Play(st, n).1[k] == Play(next, n - 1).1[k - 1]
      {
      }
    }
  }

  /// A one-shot clip of `points` at `position`, as the one-shot test builds it.
  function PlayingOnce(points: seq<real>, position: nat): ClipState {
    ClipState(0, CS.Points(points), position, OneShot, 1.0)
  }

  /// The one-shot test: 5 points played 8 at a time give the points and three silences, then
  /// only silence.
  lemma OneShotExample()
    ensures
      var first := Play(PlayingOnce(ShortTestPoints, 0), 8);
      var second := Play(first.0, 8);
      first.1 == S.FromPoints([0.0, 0.1, 0.2, 0.3, 0.4, 0.0, 0.0, 0.0])
      && second.1 == S.FromPoints([0.0, 0.0, 0.0, 0.0, 0.0, 0.0, 0.0, 0.0])
  {
  }
}
