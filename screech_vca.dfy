/// The `Vca` module of the `screech` crate: writes the product of an input and a
/// modulator to its output slot. It keeps no state of its own.
module ScreechVca {
  import opened Wrappers
  import P = ScreechPatchbay
  import A = ScreechPatchAccess

  /// The value `process` computes: the input is read first, then the modulator; the first
  /// failing read is the error.
  function Product(bay: P.Bay, policy: A.ReadPolicy, input: nat, modulator: nat): (r: Result<real, A.PatchError>)
    requires input < |bay.buffer| && modulator < |bay.buffer|
    ensures r.Ok? ==> r.value == bay.buffer[input] * bay.buffer[modulator]
    ensures r.Err? ==> r.error == A.Unreadable(input) || r.error == A.Unreadable(modulator)
  {
    match A.GetSample(bay, policy, input)
    case Err(e) => Err(e)
    case Ok(x) =>
      match A.GetSample(bay, policy, modulator)
      case Err(e) => Err(e)
      case Ok(m) => Ok(x * m)
  }

  /// The product succeeds exactly when both slots are readable and is then the product of
  /// the two samples; otherwise the error names the input if it is unreadable, else the
  /// modulator.
  lemma ProductMeaning(bay: P.Bay, policy: A.ReadPolicy, input: nat, modulator: nat)
    requires input < |bay.buffer| && modulator < |bay.buffer|
    ensures Product(bay, policy, input, modulator).Ok?
      <==> policy(bay.marks, input) && policy(bay.marks, modulator)
    ensures Product(bay, policy, input, modulator).Ok? ==>
      Product(bay, policy, input, modulator).value == bay.buffer[input] * bay.buffer[modulator]
    ensures Product(bay, policy, input, modulator).Err? ==>
      Product(bay, policy, input, modulator).error
        == A.Unreadable(if policy(bay.marks, input) then modulator else input)
  {
  }

  class Vca {
    const modulator: nat
    const input: nat
    const output: P.PatchPoint

    /// `Vca::new`.
    constructor (modulator: nat, input: nat, output: P.PatchPoint)
      ensures this.modulator == modulator && this.input == input && this.output == output
    {
      this.modulator := modulator;
      this.input := input;
      this.output := output;
    }

    /// `process`: the output slot receives input times modulator and `Ok(())` is returned;
    /// when a read fails its error is returned and the patchbay is left untouched. The
    /// module's own fields never change.
    method Process(pb: P.Patchbay, policy: A.ReadPolicy) returns (r: Result<(), A.PatchError>)
      requires pb.Valid() && input < pb.size && modulator < pb.size && output.id < pb.size
      modifies pb.buffer, pb.marks
      ensures pb.Valid()
      ensures match Product(old(pb.Value()), policy, input, modulator)
              case Ok(v) => r == Ok(()) && pb.Value() == A.Store(old(pb.Value()), output.id, v)
              case Err(e) => r == Err(e) && pb.Value() == old(pb.Value())
    {
      ghost var bay := pb.Value();
      var x := A.ReadSample(pb, policy, input);
      if x.Err? {
        return Err(x.error);
      }
      var m := A.ReadSample(pb, policy, modulator);
      if m.Err? {
        return Err(m.error);
      }
      assert A.GetSample(bay, policy, input) == x;
      assert A.GetSample(bay, policy, modulator) == m;
      assert Product(bay, policy, input, modulator).Ok?;
      assert Product(bay, policy, input, modulator).value == x.value * m.value;
      A.SetSample(pb, output, x.value * m.value);
      return Ok(());
    }
  }
}
