/// The slew-rate limiter: each channel follows its input, but moves by at most
/// `value_per_ms / (sample_rate / 1000)` per sample.
module Slew {
  import S = AudioSignal

  /// The largest change per sample: the change per millisecond over the samples per
  /// millisecond.
  function MaxIncrease(valuePerMs: real, sampleRate: nat): (max: real)
    requires sampleRate > 0
    ensures max * (sampleRate as real) == valuePerMs * 1000.0
    ensures valuePerMs >= 0.0 ==> max >= 0.0
  {
    valuePerMs / (sampleRate as real / 1000.0)
  }

  /// `get_new_value`: `current` when it is within one step of `previous`, else one step from
  /// `previous` towards `current`.
  function NewValue(valuePerMs: real, sampleRate: nat, previous: real, current: real): (r: real)
    requires sampleRate > 0
    ensures var max := MaxIncrease(valuePerMs, sampleRate);
      max >= 0.0 ==>
        && -max <= r - previous <= max
        && (-max <= current - previous <= max ==> r == current)
        && (previous <= current ==> previous <= r <= current)
        && (current <= previous ==> current <= r <= previous)
  {
    var max := MaxIncrease(valuePerMs, sampleRate);
    var rise := current - previous;
    var limited :=
      if rise < 0.0 then
        if rise < -max then -max else rise
      else if rise > max then max
      else rise;
    previous + limited
  }

  /// The step clamped to [-max, max], an independent statement of the same limiter.
  function Clamped(x: real, max: real): real {
    if x < -max then -max else if x > max then max else x
  }

  /// For a non-negative step, the nested comparisons are the clamp of the rise.
  lemma NewValueIsClamp(valuePerMs: real, sampleRate: nat, previous: real, current: real)
    requires sampleRate > 0 && valuePerMs >= 0.0
    ensures NewValue(valuePerMs, sampleRate, previous, current)
      == previous + Clamped(current - previous, MaxIncrease(valuePerMs, sampleRate))
  {
  }

  /// The limiter's state: the last value of each channel.
  datatype Channels = Channels(left: real, right: real)

  /// `process` as written: the left closure reads and writes the left state; the right
  /// closure reads the right state but writes the left one.
  function Step(valuePerMs: real, sampleRate: nat, st: Channels, signal: S.Signal): (r: (S.Signal, Channels))
    requires sampleRate > 0
    ensures S.IsMono(r.0) <==> S.IsMono(signal)
    ensures r.1.right == st.right
    ensures S.GetPoint(r.0) == NewValue(valuePerMs, sampleRate, st.left, S.GetPoint(signal))
    ensures S.IsStereo(signal) ==> r.0.right == NewValue(valuePerMs, sampleRate, st.right, signal.right)
    ensures S.IsMono(signal) ==> r.1.left == S.GetPoint(r.0)
    ensures S.IsStereo(signal) ==> r.1.left == r.0.right
  {
    match signal
    case Mono(p) =>
      var v := NewValue(valuePerMs, sampleRate, st.left, p);
      (S.Mono(v), st.(left := v))
    case Stereo(l, r) =>
      var lv := NewValue(valuePerMs, sampleRate, st.left, l);
      var rv := NewValue(valuePerMs, sampleRate, st.right, r);
      (S.Stereo(lv, rv), st.(left := rv))
  }

  /// `process` as evidently intended: each closure keeps its own channel's state.
  function StepIntended(valuePerMs: real, sampleRate: nat, st: Channels, signal: S.Signal): (r: (S.Signal, Channels))
    requires sampleRate > 0
    ensures S.IsMono(r.0) <==> S.IsMono(signal)
    ensures S.GetPoint(r.0) == r.1.left == NewValue(valuePerMs, sampleRate, st.left, S.GetPoint(signal))
    ensures S.IsMono(signal) ==> r.1.right == st.right
    ensures S.IsStereo(signal) ==>
      r.0.right == r.1.right == NewValue(valuePerMs, sampleRate, st.right, signal.right)
  {
    match signal
    case Mono(p) =>
      var v := NewValue(valuePerMs, sampleRate, st.left, p);
      (S.Mono(v), st.(left := v))
    case Stereo(l, r) =>
      var lv := NewValue(valuePerMs, sampleRate, st.left, l);
      var rv := NewValue(valuePerMs, sampleRate, st.right, r);
      (S.Stereo(lv, rv), Channels(lv, rv))
  }

  /// Mono signals never reach the faulty closure: both versions agree on them.
  lemma MonoStepsAgree(valuePerMs: real, sampleRate: nat, st: Channels, p: real)
    requires sampleRate > 0
    ensures Step(valuePerMs, sampleRate, st, S.Mono(p)) == StepIntended(valuePerMs, sampleRate, st, S.Mono(p))
  {
  }

  /// The outputs of `process` over a list of signals, from the state `st`.
  function Run(valuePerMs: real, sampleRate: nat, st: Channels, signals: seq<S.Signal>): (r: seq<S.Signal>)
    requires sampleRate > 0
    ensures |r| == |signals|
    decreases |signals|
  {
    if signals == [] then []
    else
      var (out, next) := Step(valuePerMs, sampleRate, st, signals[0]);
      [out] + Run(valuePerMs, sampleRate, next, signals[1..])
  }

  /// The outputs of the intended `process` over a list of signals.
  function RunIntended(valuePerMs: real, sampleRate: nat, st: Channels, signals: seq<S.Signal>): (r: seq<S.Signal>)
    requires sampleRate > 0
    ensures |r| == |signals|
    decreases |signals|
  {
    if signals == [] then []
    else
      var (out, next) := StepIntended(valuePerMs, sampleRate, st, signals[0]);
      [out] + RunIntended(valuePerMs, sampleRate, next, signals[1..])
  }

  /// One channel limited on its own: every output follows the previous one.
  function Follow(valuePerMs: real, sampleRate: nat, last: real, points: seq<real>): (r: seq<real>)
    requires sampleRate > 0
    ensures |r| == |points|
    decreases |points|
  {
    if points == [] then []
    else
      var v := NewValue(valuePerMs, sampleRate, last, points[0]);
      [v] + Follow(valuePerMs, sampleRate, v, points[1..])
  }

  /// The right points of a list of signals, a mono signal counting as its point.
  function Rights(signals: seq<S.Signal>): (r: seq<real>)
    ensures |r| == |signals| && forall k :: 0 <= k < |signals| ==> r[k] == S.RightOrPoint(signals[k])
  {
    seq(|signals|, k requires 0 <= k < |signals| => S.RightOrPoint(signals[k]))
  }

  /// The left (or only) points of a list of signals.
  function Lefts(signals: seq<S.Signal>): (r: seq<real>)
    ensures |r| == |signals| && forall k :: 0 <= k < |signals| ==> r[k] == S.GetPoint(signals[k])
  {
    seq(|signals|, k requires 0 <= k < |signals| => S.GetPoint(signals[k]))
  }

  /// Every signal of the list is stereo.
  predicate AllStereo(signals: seq<S.Signal>) {
    forall k :: 0 <= k < |signals| ==> S.IsStereo(signals[k])
  }

  /// A list of signals after its first one is still all stereo.
  lemma AllStereoTail(signals: seq<S.Signal>)
    requires signals != [] && AllStereo(signals)
    ensures S.IsStereo(signals[0]) && AllStereo(signals[1..])
  {
    forall k | 0 <= k < |signals[1..]| ensures S.IsStereo(signals[1..][k]) {
      assert signals[1..][k] == signals[k + 1];
    }
  }

  /// The intended limiter limits the left channel of a stereo stream on its own.
  lemma {:induction false} IntendedLeftFollows(valuePerMs: real, sampleRate: nat, st: Channels, signals: seq<S.Signal>)
    requires sampleRate > 0 && AllStereo(signals)
    ensures Lefts(RunIntended(valuePerMs, sampleRate, st, signals)) == Follow(valuePerMs, sampleRate, st.left, Lefts(signals))
    decreases |signals|
  {
    if signals != [] {
      AllStereoTail(signals);
      var next := StepIntended(valuePerMs, sampleRate, st, signals[0]).1;
      IntendedLeftFollows(valuePerMs, sampleRate, next, signals[1..]);
      var r := RunIntended(valuePerMs, sampleRate, st, signals);
      assert r[1..] == RunIntended(valuePerMs, sampleRate, next, signals[1..]);
      assert Lefts(signals)[1..] == Lefts(signals[1..]);
      assert Lefts(r)[1..] == Lefts(r[1..]);
    }
  }

  /// The intended limiter limits the right channel of a stereo stream on its own.
  lemma {:induction false} IntendedRightFollows(valuePerMs: real, sampleRate: nat, st: Channels, signals: seq<S.Signal>)
    requires sampleRate > 0 && AllStereo(signals)
    ensures Rights(RunIntended(valuePerMs, sampleRate, st, signals)) == Follow(valuePerMs, sampleRate, st.right, Rights(signals))
    decreases |signals|
  {
    if signals != [] {
      AllStereoTail(signals);
      var next := StepIntended(valuePerMs, sampleRate, st, signals[0]).1;
      IntendedRightFollows(valuePerMs, sampleRate, next, signals[1..]);
      var r := RunIntended(valuePerMs, sampleRate, st, signals);
      assert r[1..] == RunIntended(valuePerMs, sampleRate, next, signals[1..]);
      assert Rights(signals)[1..] == Rights(signals[1..]);
      assert Rights(r)[1..] == Rights(r[1..]);
    }
  }

  /// On mono signals `process` limits the one channel on its own.
  lemma {:induction false} MonoRunFollows(valuePerMs: real, sampleRate: nat, st: Channels, points: seq<real>)
    requires sampleRate > 0
    ensures Run(valuePerMs, sampleRate, st, S.FromPoints(points))
      == S.FromPoints(Follow(valuePerMs, sampleRate, st.left, points))
    decreases |points|
  {
    if points != [] {
      var v := NewValue(valuePerMs, sampleRate, st.left, points[0]);
      MonoRunStep(valuePerMs, sampleRate, st, points);
      MonoRunFollows(valuePerMs, sampleRate, st.(left := v), points[1..]);
      FollowStep(valuePerMs, sampleRate, st.left, points);
    }
  }

  /// One mono signal through `Run`: its limited point comes out and becomes the left state.
  lemma MonoRunStep(valuePerMs: real, sampleRate: nat, st: Channels, points: seq<real>)
    requires sampleRate > 0 && points != []
    ensures var v := NewValue(valuePerMs, sampleRate, st.left, points[0]);
      Run(valuePerMs, sampleRate, st, S.FromPoints(points))
        == [S.Mono(v)] + Run(valuePerMs, sampleRate, st.(left := v), S.FromPoints(points[1..]))
  {
    var signals := S.FromPoints(points);
    assert signals[0] == S.Mono(points[0]) && signals[1..] == S.FromPoints(points[1..]);
  }

  /// The first point of `Follow`, seen through `FromPoints`.
  lemma FollowStep(valuePerMs: real, sampleRate: nat, last: real, points: seq<real>)
    requires sampleRate > 0 && points != []
    ensures var v := NewValue(valuePerMs, sampleRate, last, points[0]);
      S.FromPoints(Follow(valuePerMs, sampleRate, last, points))
        == [S.Mono(v)] + S.FromPoints(Follow(valuePerMs, sampleRate, v, points[1..]))
  {
    var f := Follow(valuePerMs, sampleRate, last, points);
    assert f[1..] == Follow(valuePerMs, sampleRate, NewValue(valuePerMs, sampleRate, last, points[0]), points[1..]);
    assert S.FromPoints(f) == [S.FromPoints(f)[0]] + S.FromPoints(f[1..]);
  }

  /// As written, the right channel of a steady stereo input at 5000 Hz rises by 0.2 and then
  /// stays there, since its state is never written; the left channel is thrown back to the
  /// right output each time. The intended limiter rises on both channels together.
  lemma RightChannelOverwritesLeft()
    ensures var input := [S.Stereo(1.0, 1.0), S.Stereo(1.0, 1.0)];
      && Run(1.0, 5000, Channels(0.0, 0.0), input) == [S.Stereo(0.2, 0.2), S.Stereo(0.4, 0.2)]
      && RunIntended(1.0, 5000, Channels(0.0, 0.0), input) == [S.Stereo(0.2, 0.2), S.Stereo(0.4, 0.4)]
  {
    var input := [S.Stereo(1.0, 1.0), S.Stereo(1.0, 1.0)];
    assert MaxIncrease(1.0, 5000) == 0.2;
    assert input[1..] == [S.Stereo(1.0, 1.0)] && input[1..][1..] == [];
  }

  /// The limiter of `process`: the last value of each channel, and the rate.
  class Limiter {
    var left: real
    var right: real
    var valuePerMs: real

    /// `new`: both channel states at 0.0.
    constructor(valuePerMs: real)
      ensures left == 0.0 && right == 0.0 && this.valuePerMs == valuePerMs
    {
      left := 0.0;
      right := 0.0;
      this.valuePerMs := valuePerMs;
    }

    /// `process`, as written: the right state is never updated, so it stays at what `new`
    /// set.
    method Process(sampleRate: nat, signal: S.Signal) returns (r: S.Signal)
      requires sampleRate > 0
      modifies this
      ensures (r, Channels(left, right)) == Step(valuePerMs, sampleRate, Channels(old(left), old(right)), signal)
      ensures right == old(right) && valuePerMs == old(valuePerMs)
    {
      match signal {
        case Mono(p) =>
          var v := NewValue(valuePerMs, sampleRate, left, p);
          left := v;
          r := S.Mono(v);
        case Stereo(l, rp) =>
          var lv := NewValue(valuePerMs, sampleRate, left, l);
          left := lv;
          var rv := NewValue(valuePerMs, sampleRate, right, rp);
          left := rv;
          r := S.Stereo(lv, rv);
      }
    }
  }

  /// `Follow` is the recurrence it implements: each output is the previous output moved
  /// towards the next input by at most one step, starting from `last`.
  lemma {:induction false} FollowRecurrence(valuePerMs: real, sampleRate: nat, last: real, points: seq<real>, out: seq<real>)
    requires sampleRate > 0 && |out| == |points|
    requires points != [] ==> out[0] == NewValue(valuePerMs, sampleRate, last, points[0])
    requires forall k :: 0 < k < |points| ==> out[k] == NewValue(valuePerMs, sampleRate, out[k - 1], points[k])
    ensures Follow(valuePerMs, sampleRate, last, points) == out
    decreases |points|
  {
    if points != [] {
      forall k | 0 < k < |points| - 1
        ensures out[1..][k] == NewValue(valuePerMs, sampleRate, out[1..][k - 1], points[1..][k])
      {
        assert out[1..][k] == out[k + 1] && out[1..][k - 1] == out[k] && points[1..][k] == points[k + 1];
      }
      FollowRecurrence(valuePerMs, sampleRate, out[0], points[1..], out[1..]);
      assert out == [out[0]] + out[1..];
    }
  }

  /// A run of `process` over mono points from rest: the limited points of `Follow`.
  lemma FromRest(valuePerMs: real, sampleRate: nat, points: seq<real>, out: seq<real>)
    requires sampleRate > 0 && |out| == |points|
    requires points != [] ==> out[0] == NewValue(valuePerMs, sampleRate, 0.0, points[0])
    requires forall k :: 0 < k < |points| ==> out[k] == NewValue(valuePerMs, sampleRate, out[k - 1], points[k])
    ensures Run(valuePerMs, sampleRate, Channels(0.0, 0.0), S.FromPoints(points)) == S.FromPoints(out)
  {
    FollowRecurrence(valuePerMs, sampleRate, 0.0, points, out);
    MonoRunFollows(valuePerMs, sampleRate, Channels(0.0, 0.0), points);
  }

  /// The slew-up test: at 5000 Hz and 1.0 per ms the output climbs by 0.2 per sample.
  lemma SlewUp()
    ensures Run(1.0, 5000, Channels(0.0, 0.0), S.FromPoints([0.0, 0.0, 1.0, 1.0, 1.0, 1.0, 1.0, 1.0, 1.0]))
      == S.FromPoints([0.0, 0.0, 0.2, 0.4, 0.6, 0.8, 1.0, 1.0, 1.0])
  {
    var points := [0.0, 0.0, 1.0, 1.0, 1.0, 1.0, 1.0, 1.0, 1.0];
    var out := [0.0, 0.0, 0.2, 0.4, 0.6, 0.8, 1.0, 1.0, 1.0];
    assert MaxIncrease(1.0, 5000) == 0.2;
    forall k | 0 < k < |points|
      ensures out[k] == NewValue(1.0, 5000, out[k - 1], points[k])
    {
      assert k in {1, 2, 3, 4, 5, 6, 7, 8};
    }
    FromRest(1.0, 5000, points, out);
  }

  /// The slew-down test: at 5000 Hz and 1.0 per ms the output falls by 0.2 per sample.
  lemma SlewDown()
    ensures Run(1.0, 5000, Channels(0.0, 0.0), S.FromPoints([0.0, 0.0, -1.0, -1.0, -1.0, -1.0, -1.0, -1.0, -1.0]))
      == S.FromPoints([0.0, 0.0, -0.2, -0.4, -0.6, -0.8, -1.0, -1.0, -1.0])
  {
    var points := [0.0, 0.0, -1.0, -1.0, -1.0, -1.0, -1.0, -1.0, -1.0];
    var out := [0.0, 0.0, -0.2, -0.4, -0.6, -0.8, -1.0, -1.0, -1.0];
    assert MaxIncrease(1.0, 5000) == 0.2;
    forall k | 0 < k < |points|
      ensures out[k] == NewValue(1.0, 5000, out[k - 1], points[k])
    {
      assert k in {1, 2, 3, 4, 5, 6, 7, 8};
    }
    FromRest(1.0, 5000, points, out);
  }

  /// The up-and-down example: at 4000 Hz the output moves by at most 0.25 per sample.
  lemma SlewUpDown()
    ensures Run(1.0, 4000, Channels(0.0, 0.0), S.FromPoints([1.0, -1.0, -1.0, 1.0, 1.0, -1.0, -1.0, 0.0, 0.0]))
      == S.FromPoints([0.25, 0.0, -0.25, 0.0, 0.25, 0.0, -0.25, 0.0, 0.0])
  {
    var points := [1.0, -1.0, -1.0, 1.0, 1.0, -1.0, -1.0, 0.0, 0.0];
    var out := [0.25, 0.0, -0.25, 0.0, 0.25, 0.0, -0.25, 0.0, 0.0];
    assert MaxIncrease(1.0, 4000) == 0.25;
    forall k | 0 < k < |points|
      ensures out[k] == NewValue(1.0, 4000, out[k - 1], points[k])
    {
      assert k in {1, 2, 3, 4, 5, 6, 7, 8};
    }
    FromRest(1.0, 4000, points, out);
  }
}
