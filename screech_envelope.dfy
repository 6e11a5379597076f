/// The `Envelope` module of the `screech` crate: a trigger-edge detector driving an AR or
/// ADSR stage machine whose value is written to the output slot.
module ScreechEnvelope {
  import P = ScreechPatchbay
  import S = ScreechSignal

  /// A curve parameter that may divide: the attack and release times of an AR curve.
  type NonZero = x: real | x != 0.0 witness 1.0

  /// `Curve`: attack/release times, or attack/decay/sustain/release rates.
  datatype Curve =
    | AR(attack: NonZero, release: NonZero)
    | ADSR(a: real, d: real, s: real, r: real)

  /// The fields of an envelope that `process` updates.
  datatype Fields = Fields(previousTrigger: real, value: real, curve: Curve, isActive: bool, activeStage: nat)

  /// The last stage of a curve; `process_curve` deactivates the envelope past it.
  function LastStage(c: Curve): nat {
    if c.AR? then 1 else 3
  }

  /// `process_curve`: one sample of the current stage at the given sample rate.
  function CurveStep(st: Fields, sampleRate: nat): (next: Fields)
    requires sampleRate > 0
    ensures next.previousTrigger == st.previousTrigger && next.curve == st.curve
    ensures st.activeStage <= LastStage(st.curve) ==>
      next.isActive == st.isActive && (next.activeStage == st.activeStage || next.activeStage == st.activeStage + 1)
    ensures st.activeStage > LastStage(st.curve) ==>
      next == st.(isActive := false)
  {
    var secondsPerSample := 1.0 / sampleRate as real;
    match st.curve
    case AR(a, r) =>
      if st.activeStage == 0 then
        var v := st.value + secondsPerSample / a;
        st.(value := v, activeStage := if v >= 1.0 then 1 else 0)
      else if st.activeStage == 1 then
        var v := st.value - secondsPerSample / r;
        st.(value := v, activeStage := if v <= 0.0 then 2 else 1)
      else
        st.(isActive := false)
    case ADSR(a, d, s, r) =>
      if st.activeStage == 0 then
        var v := st.value + st.value * a;
        st.(value := v, activeStage := if v >= 1.0 then 1 else 0)
      else if st.activeStage == 1 then
        var v := st.value - st.value * d;
        st.(value := v, activeStage := if v <= s then 2 else 1)
      else if st.activeStage == 2 then
        st.(activeStage := 3)
      else if st.activeStage == 3 then
        var v := st.value - st.value * r;
        st.(value := v, activeStage := if v <= 0.0 then 4 else 3)
      else
        st.(isActive := false)
  }

  /// `n` samples of the curve.
  function Run(st: Fields, sampleRate: nat, n: nat): (r: Fields)
    requires sampleRate > 0
    ensures r.previousTrigger == st.previousTrigger && r.curve == st.curve
    ensures st.activeStage > LastStage(st.curve) && n > 0 ==> r == st.(isActive := false)
    decreases n
  {
    if n == 0 then st else Run(CurveStep(st, sampleRate), sampleRate, n - 1)
  }

  /// The stage never moves backwards while the curve runs.
  lemma {:induction false} StageNeverDecreases(st: Fields, sampleRate: nat, n: nat)
    requires sampleRate > 0
    ensures Run(st, sampleRate, n).activeStage >= st.activeStage
    ensures Run(st, sampleRate, n).curve == st.curve
    decreases n
  {
    if n > 0 {
      StageNeverDecreases(CurveStep(st, sampleRate), sampleRate, n - 1);
    }
  }

  /// The ADSR attack multiplies the value by (1 + a), so an attack that starts from 0.0
  /// stays at 0.0 in stage 0, however many samples run.
  lemma {:induction false} AdsrAttackFromZeroStalls(st: Fields, sampleRate: nat, n: nat)
    requires sampleRate > 0 && st.curve.ADSR? && st.activeStage == 0 && st.value == 0.0
    ensures Run(st, sampleRate, n) == st
    decreases n
  {
    if n > 0 {
      assert CurveStep(st, sampleRate) == st;
      AdsrAttackFromZeroStalls(st, sampleRate, n - 1);
    }
  }

  /// An AR envelope past its release is switched off and then stays put.
  lemma {:induction false} ArFinishes(st: Fields, sampleRate: nat, n: nat)
    requires sampleRate > 0 && st.curve.AR? && st.activeStage >= 2 && n > 0
    ensures Run(st, sampleRate, n) == st.(isActive := false)
    decreases n
  {
    if n > 1 {
      ArFinishes(CurveStep(st, sampleRate), sampleRate, n - 1);
    }
  }

  /// A rising edge of the trigger: at or above 0.5 now, below 0.5 before.
  predicate Triggered(previous: real, trigger: real)
    ensures Triggered(previous, trigger) ==> previous < trigger
  {
    trigger >= 0.5 && previous < 0.5
  }

  /// `process` on the fields: the new fields and the sample written to the output slot,
  /// given the trigger sample just read and the curve's sample rate.
  function Step(st: Fields, trigger: real, sampleRate: nat): (out: (Fields, real))
    requires sampleRate > 0
    ensures out.0.previousTrigger == trigger && out.0.curve == st.curve
    ensures !st.isActive && Triggered(st.previousTrigger, trigger) ==>
      out.0.isActive && out.0.activeStage == 0 && out.0.value == st.value && out.1 == 0.0
    ensures !st.isActive && !Triggered(st.previousTrigger, trigger) ==>
      out.0 == st.(previousTrigger := trigger) && out.1 == 0.0
    ensures st.isActive ==> out.1 == out.0.value
    ensures st.isActive ==>
      out.0 == CurveStep(if Triggered(st.previousTrigger, trigger) then st.(activeStage := 0) else st,
                         sampleRate).(previousTrigger := trigger)
    ensures st.isActive && Triggered(st.previousTrigger, trigger) ==> out.0.activeStage <= 1
    ensures st.isActive && !Triggered(st.previousTrigger, trigger) ==> out.0.activeStage >= st.activeStage
  {
    var fired := Triggered(st.previousTrigger, trigger);
    var (next, output) :=
      if st.isActive && fired then
        var c := CurveStep(st.(activeStage := 0), sampleRate); (c, c.value)
      else if !st.isActive && fired then
        (st.(isActive := true, activeStage := 0), 0.0)
      else if st.isActive then
        var c := CurveStep(st, sampleRate); (c, c.value)
      else
        (st, 0.0);
    (next.(previousTrigger := trigger), output)
  }

  /// The fields after `n` calls of `process` that read the same trigger sample.
  function Steps(st: Fields, trigger: real, sampleRate: nat, n: nat): (r: Fields)
    requires sampleRate > 0
    ensures r.curve == st.curve
    ensures r.previousTrigger == if n == 0 then st.previousTrigger else trigger
    decreases n
  {
    if n == 0 then st else Steps(Step(st, trigger, sampleRate).0, trigger, sampleRate, n - 1)
  }

  /// Once the trigger is held (no rising edge), an envelope that is running, or has been
  /// switched off past its last stage, follows its curve sample by sample: `process` adds
  /// nothing to `process_curve` but the output.
  lemma {:induction false} HeldTriggerFollowsCurve(st: Fields, trigger: real, sampleRate: nat, n: nat)
    requires sampleRate > 0 && st.previousTrigger == trigger
    requires st.isActive || st.activeStage > LastStage(st.curve)
    ensures Steps(st, trigger, sampleRate, n) == Run(st, sampleRate, n)
    decreases n
  {
    if n > 0 {
      var next := CurveStep(st, sampleRate);
      assert Step(st, trigger, sampleRate).0 == next;
      HeldTriggerFollowsCurve(next, trigger, sampleRate, n - 1);
    }
  }

  class Envelope {
    const output: P.PatchPoint
    const trigger: S.Signal
    var previousTrigger: real
    var value: real
    var curve: Curve
    var isActive: bool
    var activeStage: nat

    /// The updatable fields as a value.
    ghost function State(): Fields
      reads this
    {
      Fields(previousTrigger, value, curve, isActive, activeStage)
    }

    /// `Envelope::new`: an inactive AR(0.1, 0.1) envelope at stage 0 with value 0.0 and no
    /// previous trigger.
    constructor (trigger: S.Signal, output: P.PatchPoint)
      ensures this.trigger == trigger && this.output == output
      ensures State() == Fields(0.0, 0.0, AR(0.1, 0.1), false, 0)
    {
      this.output := output;
      this.trigger := trigger;
      previousTrigger := 0.0;
      value := 0.0;
      curve := AR(0.1, 0.1);
      isActive := false;
      activeStage := 0;
    }

    /// `set_ar`: only the curve changes.
    method SetAr(a: NonZero, r: NonZero)
      modifies this
      ensures State() == old(State()).(curve := AR(a, r))
    {
      curve := AR(a, r);
    }

    /// `set_adsr`: only the curve changes.
    method SetAdsr(a: real, d: real, s: real, r: real)
      modifies this
      ensures State() == old(State()).(curve := ADSR(a, d, s, r))
    {
      curve := ADSR(a, d, s, r);
    }

    /// `process_curve`.
    method ProcessCurve(sampleRate: nat)
      requires sampleRate > 0
      modifies this
      ensures State() == CurveStep(old(State()), sampleRate)
    {
      var secondsPerSample := 1.0 / sampleRate as real;
      match curve {
        case AR(a, r) =>
          if activeStage == 0 {
            value := value + secondsPerSample / a;
            if value >= 1.0 {
              activeStage := activeStage + 1;
            }
          } else if activeStage == 1 {
            value := value - secondsPerSample / r;
            if value <= 0.0 {
              activeStage := activeStage + 1;
            }
          } else {
            isActive := false;
          }
        case ADSR(a, d, s, r) =>
          if activeStage == 0 {
            value := value + value * a;
            if value >= 1.0 {
              activeStage := activeStage + 1;
            }
          } else if activeStage == 1 {
            value := value - value * d;
            if value <= s {
              activeStage := activeStage + 1;
            }
          } else if activeStage == 2 {
            activeStage := activeStage + 1;
          } else if activeStage == 3 {
            value := value - value * r;
            if value <= 0.0 {
              activeStage := activeStage + 1;
            }
          } else {
            isActive := false;
          }
      }
    }

    /// `is_ready`: whether the trigger is up to date; a fixed or grounded trigger always is.
    function IsReady(pb: P.Patchbay): (ready: bool)
      requires pb.Valid() && S.FitsIn(trigger, pb.size)
      reads this, pb, pb.marks
      ensures ready <==> pb.Check(trigger)
      ensures !trigger.PatchPoint? ==> ready
    {
      pb.Check(trigger)
    }

    /// `process`: read the trigger, run the stage machine with the patchbay size as the
    /// curve's sample rate, write the output and remember the trigger. Only the output slot
    /// of the patchbay changes.
    method Process(pb: P.Patchbay)
      requires pb.Valid() && S.FitsIn(trigger, pb.size) && output.id < pb.size
      modifies this, pb.buffer, pb.marks
      ensures pb.Valid()
      ensures (State(), pb.buffer[output.id])
        == Step(old(State()), old(pb.Get(trigger)), pb.size)
      ensures pb.Value() == old(pb.Value()).Write(output.id, pb.buffer[output.id])
    {
      var t := pb.Get(trigger);
      var fired := t >= 0.5 && previousTrigger < 0.5;
      var out: real;
      if isActive && fired {
        activeStage := 0;
        ProcessCurve(pb.size);
        out := value;
      } else if !isActive && fired {
        isActive := true;
        activeStage := 0;
        out := 0.0;
      } else if isActive {
        ProcessCurve(pb.size);
        out := value;
      } else {
        out := 0.0;
      }
      pb.Set(output, out);
      previousTrigger := t;
    }
  }
}
