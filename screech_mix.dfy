/// The `Mix` module of the `screech` crate: up to 128 optional inputs whose samples are
/// summed into one output slot.
module ScreechMix {
  import opened Wrappers
  import P = ScreechPatchbay
  import A = ScreechPatchAccess

  /// The number of input slots of a mixer.
  const INPUTS: nat := 128

  /// Every connected input addresses a slot of a patchbay of `size` slots.
  predicate Connected(inputs: seq<Option<nat>>, size: nat) {
    forall k :: 0 <= k < |inputs| && inputs[k].Some? ==> inputs[k].value < size
  }

  /// Every connected input can be read.
  predicate AllReadable(inputs: seq<Option<nat>>, bay: P.Bay, policy: A.ReadPolicy) {
    forall k :: 0 <= k < |inputs| && inputs[k].Some? ==> policy(bay.marks, inputs[k].value)
  }

  /// The sum of the samples of the connected inputs, reads aside.
  function ConnectedSum(inputs: seq<Option<nat>>, buffer: seq<real>): (r: real)
    requires Connected(inputs, |buffer|)
    ensures (forall k :: 0 <= k < |inputs| ==> inputs[k].None?) ==> r == 0.0
  {
    if |inputs| == 0 then 0.0
    else
      var last := inputs[|inputs| - 1];
      ConnectedSum(inputs[..|inputs| - 1], buffer) + (if last.Some? then buffer[last.value] else 0.0)
  }

  /// The loop of `Mix::process`: read the connected inputs in order, adding each sample
  /// to the running sum, and give up with the error of the first read that fails.
  function SumReads(inputs: seq<Option<nat>>, bay: P.Bay, policy: A.ReadPolicy): (r: Result<real, A.PatchError>)
    requires Connected(inputs, |bay.buffer|)
    ensures (forall k :: 0 <= k < |inputs| ==> inputs[k].None?) ==> r == Ok(0.0)
  {
    if |inputs| == 0 then Ok(0.0)
    else
      match SumReads(inputs[..|inputs| - 1], bay, policy)
      case Err(e) => Err(e)
      case Ok(sum) =>
        match inputs[|inputs| - 1]
        case None => Ok(sum)
        case Some(id) =>
          match A.GetSample(bay, policy, id)
          case Err(e) => Err(e)
          case Ok(v) => Ok(sum + v)
  }

  /// The loop succeeds exactly when every connected input is readable, and then yields the
  /// sum of the connected inputs; when it fails, the error names the first connected input
  /// that cannot be read.
  lemma {:induction false} SumReadsMeaning(inputs: seq<Option<nat>>, bay: P.Bay, policy: A.ReadPolicy)
    requires Connected(inputs, |bay.buffer|)
    ensures SumReads(inputs, bay, policy).Ok? <==> AllReadable(inputs, bay, policy)
    ensures SumReads(inputs, bay, policy).Ok? ==>
      SumReads(inputs, bay, policy).value == ConnectedSum(inputs, bay.buffer)
    ensures SumReads(inputs, bay, policy).Err? ==>
      exists k :: 0 <= k < |inputs| && inputs[k] == Some(SumReads(inputs, bay, policy).error.id)
        && !policy(bay.marks, inputs[k].value)
        && AllReadable(inputs[..k], bay, policy)
  {
    if |inputs| > 0 {
      var init := inputs[..|inputs| - 1];
      SumReadsMeaning(init, bay, policy);
      assert forall k :: 0 <= k < |init| ==> init[k] == inputs[k];
      if SumReads(init, bay, policy).Err? {
        var k :| 0 <= k < |init| && init[k] == Some(SumReads(init, bay, policy).error.id)
          && !policy(bay.marks, init[k].value) && AllReadable(init[..k], bay, policy);
        assert inputs[..k] == init[..k];
      } else if inputs[|inputs| - 1].Some? && !policy(bay.marks, inputs[|inputs| - 1].value) {
        assert inputs[..|inputs| - 1] == init;
      }
    }
  }

  /// Once a prefix of the inputs fails, the whole loop fails with the same error: the
  /// loop returns at the first failing read.
  lemma {:induction false} SumReadsStopsAtError(inputs: seq<Option<nat>>, n: nat, bay: P.Bay, policy: A.ReadPolicy)
    requires Connected(inputs, |bay.buffer|) && n <= |inputs|
    requires SumReads(inputs[..n], bay, policy).Err?
    ensures SumReads(inputs, bay, policy) == SumReads(inputs[..n], bay, policy)
    decreases |inputs|
  {
    if n < |inputs| {
      var init := inputs[..|inputs| - 1];
      assert init[..n] == inputs[..n];
      SumReadsStopsAtError(init, n, bay, policy);
    } else {
      assert inputs[..n] == inputs;
    }
  }

  /// A mixer with no input connected writes ground.
  lemma {:induction false} UnconnectedSumIsZero(inputs: seq<Option<nat>>, buffer: seq<real>)
    requires forall k :: 0 <= k < |inputs| ==> inputs[k].None?
    ensures ConnectedSum(inputs, buffer) == 0.0
    decreases |inputs|
  {
    if |inputs| > 0 {
      UnconnectedSumIsZero(inputs[..|inputs| - 1], buffer);
    }
  }

  class Mix {
    const output: P.PatchPoint
    const inputs: array<Option<nat>>

    ghost predicate Valid()
      reads this
    {
      inputs.Length == INPUTS
    }

    /// `Mix::new`: all 128 inputs disconnected.
    constructor (output: P.PatchPoint)
      ensures Valid() && this.output == output && fresh(inputs)
      ensures forall k :: 0 <= k < INPUTS ==> inputs[k].None?
    {
      this.output := output;
      inputs := new Option<nat>[INPUTS](_ => None);
    }

    /// `add_input`: connect `input` at slot `index` (below 128), leaving the other slots.
    method AddInput(input: nat, index: nat)
      requires Valid() && index < INPUTS
      modifies inputs
      ensures Valid()
      ensures inputs[index] == Some(input)
      ensures forall k :: 0 <= k < INPUTS && k != index ==> inputs[k] == old(inputs[k])
    {
      inputs[index] := Some(input);
    }

    /// `process`: sum the connected inputs into the output slot. On a failed read the
    /// error is returned and the patchbay is left untouched.
    method Process(pb: P.Patchbay, policy: A.ReadPolicy) returns (r: Result<(), A.PatchError>)
      requires Valid() && pb.Valid() && output.id < pb.size && Connected(inputs[..], pb.size)
      modifies pb.buffer, pb.marks
      ensures pb.Valid()
      ensures match SumReads(inputs[..], old(pb.Value()), policy)
              case Ok(sum) => r == Ok(()) && pb.Value() == A.Store(old(pb.Value()), output.id, sum)
              case Err(e) => r == Err(e) && pb.Value() == old(pb.Value())
    {
      var sum := 0.0;
      var i := 0;
      while i < INPUTS
        invariant 0 <= i <= INPUTS
        invariant pb.Value() == old(pb.Value())
        invariant SumReads(inputs[..i], pb.Value(), policy) == Ok(sum)
      {
        assert inputs[..i + 1][..i] == inputs[..i];
        if inputs[i].Some? {
          var v := A.ReadSample(pb, policy, inputs[i].value);
          if v.Err? {
            SumReadsStopsAtError(inputs[..], i + 1, pb.Value(), policy);
            return Err(v.error);
          }
          sum := sum + v.value;
        }
        i := i + 1;
      }
      assert inputs[..INPUTS] == inputs[..];
      A.SetSample(pb, output, sum);
      return Ok(());
    }
  }
}
