/// The `Module` contract of the `screech` crate: a module may be asked whether it is
/// ready (a read-only look at the patchbay; ready by default) and is processed once per
/// sample, which may change its own state and write its outputs to the patchbay.
/// The module documentation illustrates it with a saw oscillator, modelled here.
module ScreechModule {
  import P = ScreechPatchbay

  /// The default `is_ready`: ready whatever the patchbay holds. As a function it can
  /// only look at the patchbay, never change a slot or a mark.
  function DefaultIsReady(pb: P.Patchbay): (ready: bool)
    reads pb, pb.buffer, pb.marks
    ensures ready
  {
    true
  }

  /// One step of a ramp between -1.0 and 1.0: add the increment and wrap by -2.0 once
  /// the value reaches 1.0.
  function RampStep(value: real, increment: real): (next: real)
    ensures value + increment >= 1.0 ==> next == value + increment - 2.0
    ensures value + increment < 1.0 ==> next == value + increment
    ensures -1.0 <= value < 1.0 && 0.0 <= increment < 2.0 ==> -1.0 <= next < 1.0
  {
    var v := value + increment;
    if v >= 1.0 then v - 2.0 else v
  }

  /// The documented saw oscillator: its phase, frequency and output point.
  datatype SawOscillator = SawOscillator(value: real, frequency: real, output: P.PatchPoint)

  /// Its `process`: advance the phase by 2 * frequency / SAMPLE_RATE, wrap, and write the
  /// phase to the output slot. A phase in [-1, 1) stays there when the step is in [0, 2).
  method ProcessSaw(osc: SawOscillator, pb: P.Patchbay, sampleRate: nat) returns (next: SawOscillator)
    requires pb.Valid() && osc.output.id < pb.size && sampleRate > 0
    modifies pb.buffer, pb.marks
    ensures pb.Valid()
    ensures next == osc.(value := RampStep(osc.value, (2.0 / sampleRate as real) * osc.frequency))
    ensures pb.Value() == old(pb.Value()).Write(osc.output.id, next.value)
    ensures -1.0 <= osc.value < 1.0 && 0.0 <= (2.0 / sampleRate as real) * osc.frequency < 2.0
      ==> -1.0 <= next.value < 1.0
  {
    next := osc.(value := RampStep(osc.value, (2.0 / sampleRate as real) * osc.frequency));
    pb.Set(osc.output, next.value);
  }
}
