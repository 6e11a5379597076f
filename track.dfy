/// `Track` of the `basic` sources: mixes its inputs, applies gain and panning in decibels
/// and stores the stereo result as its signal. Gain and panning can each follow the signal
/// of another source (a control voltage, "cv").
module Track {
  import opened Wrappers
  import S = AudioSignal
  import T = CoreTracker
  import R = Retain

  /// The fields of a track.
  datatype TrackState = TrackState(
    id: nat, inputs: seq<nat>, gainCv: Option<nat>, panningCv: Option<nat>, gain: real, panning: real)

  /// `cv_to_db`: a control voltage in -1.0 .. 1.0 as -114 dB .. +6 dB, linearly, with 0.9
  /// as unity (0 dB).
  function CvToDb(cv: real): (db: real)
    ensures -1.0 <= cv <= 1.0 ==> -114.0 <= db <= 6.0
    ensures cv == 0.9 ==> db == 0.0
  {
    cv * 60.0 - 54.0
  }

  /// `panning_to_db`: 6 dB per unit above 0.0, 114 dB per unit below.
  function PanningToDb(cv: real): (db: real)
    ensures cv == 0.0 ==> db == 0.0
    ensures -1.0 <= cv <= 1.0 ==> -114.0 <= db <= 6.0
    ensures cv > 0.0 <==> db > 0.0
  {
    if cv > 0.0 then cv * 6.0 else cv * 114.0
  }

  /// Both conversions are monotone.
  lemma ConversionsMonotone(a: real, b: real)
    requires a <= b
    ensures CvToDb(a) <= CvToDb(b) && PanningToDb(a) <= PanningToDb(b)
  {
  }

  /// The conversions' test values.
  lemma ConversionExamples()
    ensures CvToDb(1.0) == 6.0 && CvToDb(0.9) == 0.0 && CvToDb(-1.0) == -114.0
    ensures PanningToDb(1.0) == 6.0 && PanningToDb(0.5) == 3.0 && PanningToDb(0.0) == 0.0
    ensures PanningToDb(-0.5) == -57.0 && PanningToDb(-1.0) == -114.0
  {
  }

  /// `f32::clamp`.
  function Clamp(x: real, lo: real, hi: real): (r: real)
    requires lo <= hi
    ensures lo <= r <= hi && (lo <= x <= hi ==> r == x)
  {
    if x < lo then lo else if x > hi then hi else x
  }

  /// `amplify`: 0 dB leaves the point as it is; any other level multiplies it by
  /// `ratio(db)` (`10^(db/20)`, computed by a library call outside this model) and clamps
  /// the product to -1.0 .. 1.0.
  function Amplify(point: real, db: real, ratio: real -> real): (r: real)
    ensures db == 0.0 ==> r == point
    ensures db != 0.0 ==> -1.0 <= r <= 1.0
  {
    if db == 0.0 then point else Clamp(point * ratio(db), -1.0, 1.0)
  }

  /// `step`: the inputs mixed into mono silence, then sent to both channels with the left
  /// and right levels.
  function TrackStep(st: TrackState, inputs: seq<S.Signal>, gain: real, panning: real, ratio: real -> real): (r: S.Signal)
    ensures r.Stereo?
    ensures
      var sum := S.Fold(0.0, inputs, S.SumPoints);
      var level := st.gain + CvToDb(gain);
      r == S.Stereo(Amplify(sum, level + PanningToDb(st.panning + panning), ratio),
                    Amplify(sum, level + PanningToDb(-st.panning + -panning), ratio))
  {
    S.MapToStereo(S.MixInto(S.Silence, inputs), (left, right) =>
      (Amplify(left, st.gain + CvToDb(gain) + PanningToDb(st.panning + panning), ratio),
       Amplify(right, st.gain + CvToDb(gain) + PanningToDb(-st.panning + -panning), ratio)))
  }

  /// At unity gain (0.9 cv), no gain and no panning, a track sends the sum of its inputs'
  /// points to both channels unchanged.
  lemma UnityTrackSum(st: TrackState, inputs: seq<S.Signal>, ratio: real -> real)
    requires st.gain == 0.0 && st.panning == 0.0
    ensures TrackStep(st, inputs, 0.9, 0.0, ratio)
      == S.Stereo(S.Fold(0.0, inputs, S.SumPoints), S.Fold(0.0, inputs, S.SumPoints))
  {
  }

  /// The mixing test of `track.rs`: two clips at unity gain and no panning, frame by frame,
  /// give the sums 0.2, 0.2, 0.4, 0.4 on both channels.
  lemma MixExample(st: TrackState, ratio: real -> real)
    requires st.gain == 0.0 && st.panning == 0.0
    ensures TrackStep(st, [S.Mono(0.1), S.Mono(0.1)], 0.9, 0.0, ratio) == S.Stereo(0.2, 0.2)
    ensures TrackStep(st, [S.Mono(0.2), S.Mono(0.0)], 0.9, 0.0, ratio) == S.Stereo(0.2, 0.2)
    ensures TrackStep(st, [S.Mono(0.3), S.Mono(0.1)], 0.9, 0.0, ratio) == S.Stereo(0.4, 0.4)
    ensures TrackStep(st, [S.Mono(0.4), S.Mono(0.0)], 0.9, 0.0, ratio) == S.Stereo(0.4, 0.4)
  {
    UnityTrackSum(st, [S.Mono(0.1), S.Mono(0.1)], ratio);
    UnityTrackSum(st, [S.Mono(0.2), S.Mono(0.0)], ratio);
    UnityTrackSum(st, [S.Mono(0.3), S.Mono(0.1)], ratio);
    UnityTrackSum(st, [S.Mono(0.4), S.Mono(0.0)], ratio);
  }

  /// One input at unity gain and no track panning: each channel is the input's point at
  /// the panning cv's level for that side.
  lemma SingleInputPanning(st: TrackState, x: real, panning: real, ratio: real -> real)
    requires st.gain == 0.0 && st.panning == 0.0
    ensures TrackStep(st, [S.Mono(x)], 0.9, panning, ratio)
      == S.Stereo(Amplify(x, PanningToDb(panning), ratio), Amplify(x, PanningToDb(-panning), ratio))
  {
    assert S.Fold(0.0, [S.Mono(x)], S.SumPoints) == x by {
      assert [S.Mono(x)][..0] == [];
    }
    assert st.gain + CvToDb(0.9) == 0.0;
  }

  /// Full panning to one side at unity gain: that side is raised by 6 dB and the other
  /// lowered by 114 dB (the panning test of `track.rs`, whose panning cv is a square wave
  /// of amplitude 1.0).
  lemma HardPanning(st: TrackState, x: real, ratio: real -> real)
    requires st.gain == 0.0 && st.panning == 0.0
    ensures TrackStep(st, [S.Mono(x)], 0.9, 1.0, ratio)
      == S.Stereo(Clamp(x * ratio(6.0), -1.0, 1.0), Clamp(x * ratio(-114.0), -1.0, 1.0))
    ensures TrackStep(st, [S.Mono(x)], 0.9, -1.0, ratio)
      == S.Stereo(Clamp(x * ratio(-114.0), -1.0, 1.0), Clamp(x * ratio(6.0), -1.0, 1.0))
  {
    SingleInputPanning(st, x, 1.0, ratio);
    SingleInputPanning(st, x, -1.0, ratio);
    assert PanningToDb(1.0) == 6.0 && PanningToDb(-1.0) == -114.0;
  }

  /// `get_sources`: the inputs, then the gain cv if set, then the panning cv if set.
  function Sources(st: TrackState): (r: seq<nat>)
    ensures |r| == |st.inputs| + (if st.gainCv.Some? then 1 else 0) + (if st.panningCv.Some? then 1 else 0)
    ensures r[..|st.inputs|] == st.inputs
    ensures forall id :: id in r <==>
      id in st.inputs || st.gainCv == Some(id) || st.panningCv == Some(id)
  {
    st.inputs
      + (if st.gainCv.Some? then [st.gainCv.value] else [])
      + (if st.panningCv.Some? then [st.panningCv.value] else [])
  }

  /// Every id the track reads or writes has a slot in a tracker of `size` slots.
  predicate FitsIn(st: TrackState, size: nat) {
    && st.id < size
    && (forall i :: 0 <= i < |st.inputs| ==> st.inputs[i] < size)
    && (st.gainCv.Some? ==> st.gainCv.value < size)
    && (st.panningCv.Some? ==> st.panningCv.value < size)
  }

  /// The value of a cv: the summed points of its signal, or `default` when no cv is set or
  /// its source has no signal.
  function CvValue(cv: Option<nat>, slots: seq<Option<S.Signal>>, default: real): (v: real)
    requires cv.Some? ==> cv.value < |slots|
    ensures cv.None? || slots[cv.value].None? ==> v == default
    ensures cv.Some? && slots[cv.value].Some? ==> v == S.SumPoints(slots[cv.value].value)
  {
    match cv
    case None => default
    case Some(k) => if slots[k].Some? then S.SumPoints(slots[k].value) else default
  }

  /// `Source::sample` on the tracker's slots: the present input signals (inputs without a
  /// signal are skipped), the gain cv (0.9 when missing) and the panning cv (0.0 when
  /// missing) go through `step`, and the result is stored under the track's id.
  function TrackSample(st: TrackState, slots: seq<Option<S.Signal>>, ratio: real -> real): (r: seq<Option<S.Signal>>)
    requires FitsIn(st, |slots|)
    ensures |r| == |slots| && r[st.id].Some? && S.IsStereo(r[st.id].value)
    ensures r[st.id] == Some(TrackStep(st, T.Present(st.inputs, slots),
      CvValue(st.gainCv, slots, 0.9), CvValue(st.panningCv, slots, 0.0), ratio))
    ensures forall k :: 0 <= k < |slots| && k != st.id ==> r[k] == slots[k]
  {
    var inputs := T.Present(st.inputs, slots);
    var gain := CvValue(st.gainCv, slots, 0.9);
    var panning := CvValue(st.panningCv, slots, 0.0);
    slots[st.id := Some(TrackStep(st, inputs, gain, panning, ratio))]
  }

  class Track {
    const id: nat
    var inputs: seq<nat>
    var gainCv: Option<nat>
    var panningCv: Option<nat>
    var gain: real
    var panning: real

    ghost function State(): TrackState
      reads this
    {
      TrackState(id, inputs, gainCv, panningCv, gain, panning)
    }

    /// `Track::new`: a new id from the tracker, no inputs, no cvs, gain and panning 0.0.
    constructor (tracker: T.BasicTracker)
      requires tracker.idPosition < tracker.signals.Length
      modifies tracker, tracker.signals
      ensures State() == TrackState(old(tracker.idPosition), [], None, None, 0.0, 0.0)
      ensures tracker.idPosition == old(tracker.idPosition) + 1
      ensures tracker.signals[..] == old(tracker.signals[..])[id := Some(S.Silence)]
    {
      var newId := tracker.CreateId();
      id := newId;
      inputs := [];
      gain := 0.0;
      gainCv := None;
      panning := 0.0;
      panningCv := None;
    }

    /// `add_input`: the source's id is appended to the inputs.
    method AddInput(source: nat)
      modifies this
      ensures State() == old(State()).(inputs := old(inputs) + [source])
    {
      inputs := inputs + [source];
    }

    /// `remove_input`: every occurrence of the source's id leaves the inputs.
    method RemoveInput(source: nat)
      modifies this
      ensures State() == old(State()).(inputs := R.RemoveAll(old(inputs), source))
      ensures source !in inputs
    {
      inputs := R.RemoveAll(inputs, source);
    }

    /// `set_gain_cv`.
    method SetGainCv(cv: nat)
      modifies this
      ensures State() == old(State()).(gainCv := Some(cv))
    {
      gainCv := Some(cv);
    }

    /// `unset_gain_cv`.
    method UnsetGainCv()
      modifies this
      ensures State() == old(State()).(gainCv := None)
    {
      gainCv := None;
    }

    /// `set_panning_cv`.
    method SetPanningCv(cv: nat)
      modifies this
      ensures State() == old(State()).(panningCv := Some(cv))
    {
      panningCv := Some(cv);
    }

    /// `unset_panning_cv`.
    method UnsetPanningCv()
      modifies this
      ensures State() == old(State()).(panningCv := None)
    {
      panningCv := None;
    }

    /// `get_sources`.
    function GetSources(): (r: seq<nat>)
      reads this
      ensures r == Sources(State())
    {
      inputs
        + (if gainCv.Some? then [gainCv.value] else [])
        + (if panningCv.Some? then [panningCv.value] else [])
    }

    /// `Source::sample`, storing the track's signal in the tracker.
    method Sample(tracker: T.BasicTracker, ratio: real -> real)
      requires FitsIn(State(), tracker.signals.Length)
      modifies tracker.signals
      ensures tracker.signals[..] == TrackSample(State(), old(tracker.signals[..]), ratio)
    {
      var slots := tracker.signals[..];
      var st := TrackState(id, inputs, gainCv, panningCv, gain, panning);
      var signal := TrackStep(st, T.Present(inputs, slots),
        CvValue(gainCv, slots, 0.9), CvValue(panningCv, slots, 0.0), ratio);
      tracker.SetSignal(id, signal);
    }
  }
}
