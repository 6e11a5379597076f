/// The `Clock` module of the `screech` crate: a BPM-driven pulse generator built on a
/// phase that runs from 0.0 up to 2.0 and wraps.
module ScreechClock {
  import P = ScreechPatchbay

  /// The phase increment of one sample: (1 / SAMPLE_RATE) * (bpm / 60).
  function Increment(bpm: real, sampleRate: nat): (inc: real)
    requires sampleRate > 0
    ensures inc * (sampleRate as real) * 60.0 == bpm
    ensures bpm >= 0.0 ==> inc >= 0.0
  {
    (1.0 / sampleRate as real) * (bpm / 60.0)
  }

  /// Advance the phase by `increment`, wrapping by -2.0 once it reaches 2.0. A phase in
  /// [0, 2) stays there when the increment is in [0, 2).
  function Advance(value: real, increment: real): (next: real)
    ensures next == value + increment || next == value + increment - 2.0
    ensures next == value + increment <==> value + increment < 2.0
    ensures 0.0 <= value < 2.0 && 0.0 <= increment < 2.0 ==> 0.0 <= next < 2.0
  {
    var v := value + increment;
    if v >= 2.0 then v - 2.0 else v
  }

  /// The pulse: high (1.0) during the first half of the phase, up to and including 1.0,
  /// and low (0.0) after it.
  function Pulse(value: real): (out: real)
    ensures out == 1.0 <==> value <= 1.0
    ensures out == 0.0 <==> value > 1.0
  {
    if value > 1.0 then 0.0 else 1.0
  }

  /// The phase stays in [0, 2) however many samples run, when it starts there and the
  /// increment is in [0, 2).
  lemma {:induction false} PhaseStaysInRange(value: real, increment: real, n: nat)
    requires 0.0 <= value < 2.0 && 0.0 <= increment < 2.0
    ensures 0.0 <= Iterate(value, increment, n) < 2.0
    decreases n
  {
    if n > 0 {
      PhaseStaysInRange(value, increment, n - 1);
    }
  }

  /// The phase after `n` samples.
  function Iterate(value: real, increment: real, n: nat): (r: real)
    ensures value + (n as real) * (increment - 2.0) <= r <= value + (n as real) * increment
    decreases n
  {
    if n == 0 then value else Advance(Iterate(value, increment, n - 1), increment)
  }

  class Clock {
    const output: P.PatchPoint
    const bpm: real
    var value: real

    /// `Clock::new`: the phase starts at 0.0.
    constructor (output: P.PatchPoint, bpm: real)
      ensures this.output == output && this.bpm == bpm && value == 0.0
    {
      this.output := output;
      this.bpm := bpm;
      value := 0.0;
    }

    /// `process`: advance and wrap the phase, then write the pulse to the clock's own output
    /// slot; no other slot or mark changes.
    method Process(pb: P.Patchbay, sampleRate: nat)
      requires pb.Valid() && output.id < pb.size && sampleRate > 0
      modifies this, pb.buffer, pb.marks
      ensures pb.Valid()
      ensures value == Advance(old(value), Increment(bpm, sampleRate))
      ensures pb.Value() == old(pb.Value()).Write(output.id, Pulse(value))
    {
      value := value + (1.0 / sampleRate as real) * (bpm / 60.0);
      if value >= 2.0 {
        value := value - 2.0;
      }
      var out := if value > 1.0 then 0.0 else 1.0;
      pb.Set(output, out);
    }
  }
}
