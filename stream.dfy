/// The older engine's `Stream`: a vector of interleaved points and a channel count, mixed
/// and amplified in place.
module Stream {
  import opened Wrappers
  import K = Track

  datatype StreamErr = NonExistentIndex(index: nat)

  /// `n` points of silence.
  function Zeros(n: nat): (r: seq<real>)
    ensures |r| == n && forall k :: 0 <= k < n ==> r[k] == 0.0
  {
    seq(n, _ => 0.0)
  }

  /// `Vec::resize(n, 0.0)`: cut to `n` points, or padded with 0.0 up to `n`.
  function Resized(s: seq<real>, n: nat): (r: seq<real>)
    ensures |r| == n
    ensures forall k :: 0 <= k < n ==> r[k] == if k < |s| then s[k] else 0.0
  {
    if n <= |s| then s[..n] else s + Zeros(n - |s|)
  }

  /// `get_sample` on a point vector: the point at `position`, or `NonExistentIndex`.
  function SampleAt(samples: seq<real>, position: nat): (r: Result<real, StreamErr>)
    ensures r.Ok? <==> position < |samples|
    ensures r.Ok? ==> r.value == samples[position]
    ensures r.Err? ==> r.error == NonExistentIndex(position)
  {
    if position < |samples| then Ok(samples[position]) else Err(NonExistentIndex(position))
  }

  /// The point of `other` at `i`, 0.0 past its end.
  function PointOr0(other: seq<real>, i: nat): real {
    if i < |other| then other[i] else 0.0
  }

  /// The fold of `mix` at position `i`: `init` plus the point at `i` of every other stream.
  function Sum(init: real, others: seq<seq<real>>, i: nat): (r: real)
    ensures (forall k :: 0 <= k < |others| ==> |others[k]| <= i) ==> r == init
  {
    if others == [] then init
    else Sum(init, others[..|others| - 1], i) + PointOr0(others[|others| - 1], i)
  }

  /// The points of `mix`: the receiver's length, each point plus the others' points there.
  function Mixed(samples: seq<real>, others: seq<seq<real>>): (r: seq<real>)
    ensures |r| == |samples|
    ensures forall i :: 0 <= i < |samples| ==> r[i] == Sum(samples[i], others, i)
  {
    seq(|samples|, i requires 0 <= i < |samples| => Sum(samples[i], others, i))
  }

  /// Mixing nothing leaves the points as they are.
  lemma MixNothing(samples: seq<real>)
    ensures Mixed(samples, []) == samples
  {
  }

  /// Points of other streams past the receiver's end do not matter: mixing the others cut
  /// to the receiver's length gives the same points.
  lemma {:induction false} ExtraPointsIgnored(samples: seq<real>, others: seq<seq<real>>)
    ensures Mixed(samples, others) == Mixed(samples, CutTo(others, |samples|))
  {
    forall i | 0 <= i < |samples|
      ensures Sum(samples[i], others, i) == Sum(samples[i], CutTo(others, |samples|), i)
    {
      SumCut(samples[i], others, i, |samples|);
    }
  }

  /// Every stream of `others` cut to at most `n` points.
  function CutTo(others: seq<seq<real>>, n: nat): (r: seq<seq<real>>)
    ensures |r| == |others|
    ensures forall k :: 0 <= k < |others| ==> r[k] == if |others[k]| <= n then others[k] else others[k][..n]
  {
    seq(|others|, k requires 0 <= k < |others| => if |others[k]| <= n then others[k] else others[k][..n])
  }

  lemma {:induction false} SumCut(init: real, others: seq<seq<real>>, i: nat, n: nat)
    requires i < n
    ensures Sum(init, others, i) == Sum(init, CutTo(others, n), i)
  {
    if others != [] {
      var front := others[..|others| - 1];
      assert CutTo(others, n)[..|others| - 1] == CutTo(front, n);
      SumCut(init, front, i, n);
    }
  }

  /// Shorter streams count as silence: mixing a stream padded with zeros up to the
  /// receiver's length gives the same points.
  lemma {:induction false} ShorterCountsAsSilence(samples: seq<real>, others: seq<seq<real>>, k: nat)
    requires k < |others| && |others[k]| <= |samples|
    ensures Mixed(samples, others) == Mixed(samples, others[k := Resized(others[k], |samples|)])
  {
    var padded := others[k := Resized(others[k], |samples|)];
    forall i | 0 <= i < |samples|
      ensures Sum(samples[i], others, i) == Sum(samples[i], padded, i)
    {
      SumPadded(samples[i], others, i, k, |samples|);
    }
  }

  lemma {:induction false} SumPadded(init: real, others: seq<seq<real>>, i: nat, k: nat, n: nat)
    requires k < |others| && |others[k]| <= n && i < n
    ensures Sum(init, others, i) == Sum(init, others[k := Resized(others[k], n)], i)
  {
    var padded := others[k := Resized(others[k], n)];
    var last := |others| - 1;
    assert PointOr0(padded[last], i) == PointOr0(others[last], i);
    if k < last {
      assert padded[..last] == others[..last][k := Resized(others[k], n)];
      SumPadded(init, others[..last], i, k, n);
    } else {
      assert padded[..last] == others[..last];
    }
  }

  /// `f32::clamp(-1.0, 1.0)`.
  function Clamp1(x: real): (r: real)
    ensures -1.0 <= r <= 1.0
    ensures -1.0 <= x <= 1.0 ==> r == x
    ensures x < -1.0 ==> r == -1.0
    ensures x > 1.0 ==> r == 1.0
  {
    K.Clamp(x, -1.0, 1.0)
  }

  /// One point of `amplify`: scaled by `ratio`, then clamped.
  function Scaled(x: real, ratio: real): (r: real)
    ensures -1.0 <= r <= 1.0
  {
    Clamp1(x * ratio)
  }

  /// The points of `amplify` by a gain of `ratio`.
  function Amplified(samples: seq<real>, ratio: real): (r: seq<real>)
    ensures |r| == |samples|
    ensures forall i :: 0 <= i < |samples| ==> r[i] == Scaled(samples[i], ratio)
  {
    seq(|samples|, i requires 0 <= i < |samples| => Scaled(samples[i], ratio))
  }

  /// Amplification keeps every point within [-1, 1] and keeps silence silent.
  lemma AmplifiedBounded(samples: seq<real>, ratio: real)
    ensures forall i :: 0 <= i < |samples| ==> -1.0 <= Amplified(samples, ratio)[i] <= 1.0
    ensures Amplified(Zeros(|samples|), ratio) == Zeros(|samples|)
  {
  }

  /// A positive gain keeps the sign of every point and its order with the others.
  lemma AmplifiedMonotone(samples: seq<real>, ratio: real, i: nat, j: nat)
    requires ratio > 0.0 && i < |samples| && j < |samples| && samples[i] <= samples[j]
    ensures Amplified(samples, ratio)[i] <= Amplified(samples, ratio)[j]
    ensures samples[i] >= 0.0 ==> Amplified(samples, ratio)[i] >= 0.0
    ensures samples[i] <= 0.0 ==> Amplified(samples, ratio)[i] <= 0.0
  {
    var x, y := samples[i], samples[j];
    assert (y - x) * ratio >= 0.0;
    assert x * ratio <= y * ratio;
    assert x >= 0.0 ==> x * ratio >= 0.0;
    assert x <= 0.0 ==> x * ratio <= 0.0;
  }

  class Stream {
    var samples: seq<real>
    var channels: nat

    /// `empty`: `size` points of silence.
    constructor Empty(size: nat, channels: nat)
      ensures samples == Zeros(size) && this.channels == channels
    {
      samples := Zeros(size);
      this.channels := channels;
    }

    /// `from_samples`.
    constructor FromSamples(samples: seq<real>, channels: nat)
      ensures this.samples == samples && this.channels == channels
    {
      this.samples := samples;
      this.channels := channels;
    }

    /// `len`: the number of points, whatever the channel count.
    function Len(): (r: nat)
      reads this
      ensures r == |samples|
    {
      |samples|
    }

    /// `get_sample`.
    function GetSample(position: nat): (r: Result<real, StreamErr>)
      reads this
      ensures r == SampleAt(samples, position)
    {
      SampleAt(samples, position)
    }

    /// `mix`: every point gets the points at the same position of the other streams added;
    /// the length and the channel count stay.
    method Mix(others: seq<seq<real>>)
      modifies this
      ensures samples == Mixed(old(samples), others) && channels == old(channels)
    {
      var i := 0;
      while i < |samples|
        invariant 0 <= i <= |samples| == |old(samples)| && channels == old(channels)
        invariant samples[..i] == Mixed(old(samples), others)[..i]
        invariant samples[i..] == old(samples)[i..]
      {
        var acc := samples[i];
        var k := 0;
        while k < |others|
          invariant 0 <= k <= |others|
          invariant acc == Sum(samples[i], others[..k], i)
        {
          assert others[..k + 1][..k] == others[..k];
          acc := acc + PointOr0(others[k], i);
          k := k + 1;
        }
        assert others[..k] == others;
        assert samples[i] == old(samples)[i] by { assert samples[i..][0] == old(samples)[i..][0]; }
        samples := samples[i := acc];
        i := i + 1;
      }
      assert samples == samples[..i];
    }

    /// `amplify` by `db` decibels, the gain `ratio(db)` being `10^(db/20)` as computed by
    /// a library call outside this model: every point is scaled and clamped to [-1, 1].
    method Amplify(db: real, ratio: real -> real)
      modifies this
      ensures samples == Amplified(old(samples), ratio(db)) && channels == old(channels)
    {
      var gain := ratio(db);
      var i := 0;
      while i < |samples|
        invariant 0 <= i <= |samples| == |old(samples)| && channels == old(channels)
        invariant samples[..i] == Amplified(old(samples), gain)[..i]
        invariant samples[i..] == old(samples)[i..]
      {
        assert samples[i] == old(samples)[i] by { assert samples[i..][0] == old(samples)[i..][0]; }
        samples := samples[i := Scaled(samples[i], gain)];
        i := i + 1;
      }
      assert samples == samples[..i];
    }
  }

  /// The fold over two other streams adds both of their points.
  lemma SumTwo(init: real, a: seq<real>, b: seq<real>, i: nat)
    ensures Sum(init, [a, b], i) == init + PointOr0(a, i) + PointOr0(b, i)
  {
    var none: seq<seq<real>> := [];
    assert [a][..0] == none;
    assert Sum(init, [a], i) == Sum(init, none, i) + PointOr0(a, i);
    assert [a, b][..1] == [a];
    assert Sum(init, [a, b], i) == Sum(init, [a], i) + PointOr0(b, i);
  }

  /// The mix tests: two full-length streams, and a short pair that only reaches the first
  /// points.
  lemma MixExamples()
    ensures Mixed([0.1, 0.0, -0.1, -0.2, -0.3], [[0.2, 0.1, 0.0, -0.1, -0.2], [0.3, 0.2, 0.1, 0.0, -0.1]])
      == [0.6, 0.3, 0.0, -0.3, -0.6]
    ensures Mixed([0.1, 0.0, -0.1, -0.2, -0.3], [[0.2, 0.1, 0.0], [0.3]])
      == [0.6, 0.1, -0.1, -0.2, -0.3]
  {
    var s := [0.1, 0.0, -0.1, -0.2, -0.3];
    var a, b := [0.2, 0.1, 0.0, -0.1, -0.2], [0.3, 0.2, 0.1, 0.0, -0.1];
    forall i | 0 <= i < 5
      ensures Sum(s[i], [a, b], i) == [0.6, 0.3, 0.0, -0.3, -0.6][i]
    {
      SumTwo(s[i], a, b, i);
    }
    var c, d := [0.2, 0.1, 0.0], [0.3];
    forall i | 0 <= i < 5
      ensures Sum(s[i], [c, d], i) == [0.6, 0.1, -0.1, -0.2, -0.3][i]
    {
      SumTwo(s[i], c, d, i);
    }
  }
}
