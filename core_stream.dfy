/// The core `Stream`: a run of points (an AC signal) or one fixed point (a DC signal),
/// with mixing, mapping, combining and slicing.
module CoreStream {
  import opened Wrappers

  datatype StreamErr = SliceOutOfBounds | ResampleBadFactor

  datatype Stream =
    | Points(points: seq<real>)
    | Fixed(point: real)

  /// `empty`: `size` silent points.
  function Empty(size: nat): (r: Stream)
    ensures r.Points? && Len(r) == size
    ensures forall i :: 0 <= i < size ==> GetPoint(r, i) == Some(0.0)
  {
    Points(seq(size, _ => 0.0))
  }

  /// `fixed`: a stream of one point that reads as `value` at every position.
  function FixedValue(value: real): (r: Stream)
    ensures Len(r) == 1 && forall i: nat :: GetPoint(r, i) == Some(value)
  {
    Fixed(value)
  }

  /// `len`: the number of points; a fixed stream counts as one.
  function Len(s: Stream): (n: nat)
    ensures s.Points? ==> n == |s.points|
    ensures s.Fixed? ==> n == 1
  {
    match s
    case Points(p) => |p|
    case Fixed(_) => 1
  }

  /// `is_empty`: only a point stream without points is empty; a fixed stream never is.
  predicate IsEmpty(s: Stream)
    ensures IsEmpty(s) <==> s.Points? && s.points == []
  {
    Len(s) == 0
  }

  /// `get_point`: the point at `position`, if the stream has one there; a fixed stream has
  /// its point at every position.
  function GetPoint(s: Stream, position: nat): (r: Option<real>)
    ensures s.Points? ==> (r.Some? <==> position < Len(s))
    ensures s.Fixed? ==> r == Some(s.point)
  {
    match s
    case Points(p) => if position < |p| then Some(p[position]) else None
    case Fixed(x) => Some(x)
  }

  /// The point at `position`, 0.0 where there is none (how every fold reads a stream).
  function PointOrZero(s: Stream, position: nat): real {
    GetPoint(s, position).UnwrapOr(0.0)
  }

  /// `get_points`: the points of a point stream; nothing for a fixed one.
  function GetPoints(s: Stream): (r: Option<seq<real>>)
    ensures r.Some? <==> s.Points?
    ensures r.Some? ==> |r.value| == Len(s) && forall i :: 0 <= i < Len(s) ==> GetPoint(s, i) == Some(r.value[i])
  {
    match s
    case Points(p) => Some(p)
    case Fixed(_) => None
  }

  /// The fold `max(a, len)` over a list of streams.
  function MaxLen(streams: seq<Stream>): (m: nat)
    ensures forall i :: 0 <= i < |streams| ==> Len(streams[i]) <= m
    ensures streams == [] ==> m == 0
  {
    if streams == [] then 0
    else
      var m := MaxLen(streams[..|streams| - 1]);
      var l := Len(streams[|streams| - 1]);
      if m < l then l else m
  }

  /// The longest length is the length of one of the streams.
  lemma {:induction false} MaxLenIsLongest(streams: seq<Stream>)
    ensures streams != [] ==> exists i :: 0 <= i < |streams| && Len(streams[i]) == MaxLen(streams)
  {
    if streams != [] {
      var last := |streams| - 1;
      var front := streams[..last];
      if MaxLen(streams) != Len(streams[last]) {
        MaxLenIsLongest(front);
        var i :| 0 <= i < |front| && Len(front[i]) == MaxLen(front);
        assert streams[i] == front[i];
      }
    }
  }

  /// The sum of the points every stream has at `position`, missing points counting as 0.0.
  function SumAt(streams: seq<Stream>, position: nat): (sum: real)
    ensures (forall i :: 0 <= i < |streams| ==> PointOrZero(streams[i], position) == 0.0) ==> sum == 0.0
  {
    if streams == [] then 0.0
    else SumAt(streams[..|streams| - 1], position) + PointOrZero(streams[|streams| - 1], position)
  }

  /// Streams too short to reach `position` add nothing there.
  lemma ShortStreamsAddNothing(streams: seq<Stream>, s: Stream, position: nat)
    requires s.Points? && Len(s) <= position
    ensures SumAt(streams + [s], position) == SumAt(streams, position)
  {
  }

  /// The sum of every stream at `position`, as the inner fold of `mix` computes it.
  method SumStreamsAt(streams: seq<Stream>, position: nat) returns (sum: real)
    ensures sum == SumAt(streams, position)
  {
    sum := 0.0;
    var j := 0;
    while j < |streams|
      invariant 0 <= j <= |streams|
      invariant sum == SumAt(streams[..j], position)
    {
      assert streams[..j + 1][..j] == streams[..j];
      sum := sum + GetPoint(streams[j], position).UnwrapOr(0.0);
      j := j + 1;
    }
    assert streams[..j] == streams;
  }

  /// `mix`: a point stream as long as the longest input whose every point is the sum of the
  /// inputs' points there, missing points counting as 0.0.
  method Mix(streams: seq<Stream>) returns (r: Stream)
    ensures r.Points? && Len(r) == MaxLen(streams)
    ensures forall pos :: 0 <= pos < Len(r) ==> r.points[pos] == SumAt(streams, pos)
  {
    var length := 0;
    var k := 0;
    while k < |streams|
      invariant 0 <= k <= |streams|
      invariant length == MaxLen(streams[..k])
    {
      assert streams[..k + 1][..k] == streams[..k];
      length := if length < Len(streams[k]) then Len(streams[k]) else length;
      k := k + 1;
    }
    assert streams[..k] == streams;
    var points := [];
    var pos := 0;
    while pos < length
      invariant 0 <= pos <= length && |points| == pos
      invariant forall i :: 0 <= i < pos ==> points[i] == SumAt(streams, i)
    {
      var point := SumStreamsAt(streams, pos);
      points := points + [point];
      pos := pos + 1;
    }
    r := Points(points);
  }

  /// `mix_into`: a fixed receiver is returned as it is; a point receiver keeps its length
  /// and adds the sum of the inputs at every position.
  method MixInto(s: Stream, streams: seq<Stream>) returns (r: Stream)
    ensures s.Fixed? ==> r == s
    ensures s.Points? ==> r.Points? && Len(r) == Len(s)
    ensures s.Points? ==> forall pos :: 0 <= pos < Len(s) ==> r.points[pos] == s.points[pos] + SumAt(streams, pos)
  {
    match s {
      case Fixed(_) =>
        r := s;
      case Points(points) =>
        var pts := points;
        var pos := 0;
        while pos < |pts|
          invariant 0 <= pos <= |pts| == |points|
          invariant forall i :: 0 <= i < pos ==> pts[i] == points[i] + SumAt(streams, i)
          invariant pts[pos..] == points[pos..]
        {
          var sum := SumStreamsAt(streams, pos);
          assert pts[pos] == pts[pos..][0];
          pts := pts[pos := pts[pos] + sum];
          pos := pos + 1;
        }
        r := Points(pts);
    }
  }

  /// The result of `map`.
  function Mapped(s: Stream, f: real -> real): (r: Stream)
    ensures (r.Fixed? <==> s.Fixed?) && Len(r) == Len(s)
    ensures forall i :: 0 <= i < Len(s) ==> GetPoint(r, i) == Some(f(GetPoint(s, i).value))
  {
    match s
    case Fixed(x) => Fixed(f(x))
    case Points(p) => Points(seq(|p|, i requires 0 <= i < |p| => f(p[i])))
  }

  /// `map`: every point rewritten in place by `f`.
  method Map(s: Stream, f: real -> real) returns (r: Stream)
    ensures r == Mapped(s, f)
  {
    match s {
      case Fixed(x) =>
        r := Fixed(f(x));
      case Points(points) =>
        var pts := points;
        var i := 0;
        while i < |pts|
          invariant 0 <= i <= |pts| == |points|
          invariant forall j :: 0 <= j < i ==> pts[j] == f(points[j])
          invariant pts[i..] == points[i..]
        {
          assert pts[i] == pts[i..][0];
          pts := pts[i := f(pts[i])];
          i := i + 1;
        }
        r := Points(pts);
        assert pts == Mapped(s, f).points;
    }
  }

  function Negate(x: real): real { -x }

  /// `invert`: `map` with negation.
  method Invert(s: Stream) returns (r: Stream)
    ensures r == Mapped(s, Negate)
  {
    r := Map(s, Negate);
  }

  /// Inverting twice gives the stream back.
  lemma InvertTwice(s: Stream)
    ensures Mapped(Mapped(s, Negate), Negate) == s
  {
    if s.Points? {
      assert Mapped(Mapped(s, Negate), Negate).points == s.points;
    }
  }

  /// The receiver's point at `i` once `apply` has padded it: its own point (the fixed point
  /// at position 0 for a fixed receiver), 0.0 past its length.
  function Padded(s: Stream, i: nat): (p: real)
    ensures s.Points? ==> p == PointOrZero(s, i)
    ensures s.Fixed? ==> p == if i == 0 then s.point else 0.0
  {
    if i < Len(s) then PointsOf(s)[i] else 0.0
  }

  /// The result of `apply`: two fixed streams combine to a fixed stream; otherwise the
  /// receiver's points (one for a fixed receiver), padded with 0.0 to the longer length, are
  /// combined position by position with the other stream's points (0.0 where it has none).
  function Applied(s: Stream, other: Stream, f: (real, real) -> real): (r: Stream)
    ensures s.Fixed? && other.Fixed? ==> r == Fixed(f(s.point, other.point))
    ensures !(s.Fixed? && other.Fixed?) ==>
      r.Points? && Len(r) == (if Len(s) < Len(other) then Len(other) else Len(s))
      && (forall i :: 0 <= i < Len(s) ==> r.points[i] == f(PointsOf(s)[i], PointOrZero(other, i)))
      && (forall i :: Len(s) <= i < Len(r) ==> r.points[i] == f(0.0, PointOrZero(other, i)))
  {
    if s.Fixed? && other.Fixed? then Fixed(f(s.point, other.point))
    else
      var length := if Len(s) < Len(other) then Len(other) else Len(s);
      var pts := seq(length, i requires 0 <= i < length => f(Padded(s, i), PointOrZero(other, i)));
      assert forall i :: 0 <= i < length ==> pts[i] == f(Padded(s, i), PointOrZero(other, i));
      Points(pts)
  }

  /// The points of a stream, one point for a fixed stream.
  function PointsOf(s: Stream): (r: seq<real>)
    ensures |r| == Len(s) && forall i :: 0 <= i < |r| ==> GetPoint(s, i) == Some(r[i])
  {
    match s
    case Fixed(x) => [x]
    case Points(p) => p
  }

  /// `apply`: combine the receiver with another stream point by point, in place.
  method Apply(s: Stream, other: Stream, f: (real, real) -> real) returns (r: Stream)
    ensures r == Applied(s, other, f)
  {
    if s.Fixed? && other.Fixed? {
      r := Fixed(f(s.point, other.point));
      return;
    }
    var pts := PointsOf(s);
    var length := if |pts| < Len(other) then Len(other) else |pts|;
    pts := pts + seq(length - |pts|, _ => 0.0);
    var pos := 0;
    while pos < |pts|
      invariant 0 <= pos <= |pts| == length
      invariant forall i :: 0 <= i < pos ==> pts[i] == f(Padded(s, i), PointOrZero(other, i))
      invariant forall i :: pos <= i < length ==> pts[i] == Padded(s, i)
    {
      var b := GetPoint(other, pos).UnwrapOr(0.0);
      pts := pts[pos := f(pts[pos], b)];
      pos := pos + 1;
    }
    r := Points(pts);
    assert pts == Applied(s, other, f).points;
  }

  /// `slice`: on a point stream, the `length` points from `from` on, or `SliceOutOfBounds`
  /// when they run past the end. On a fixed stream the local length (1) shadows the requested
  /// one, so one point is returned whatever `length` asks for.
  function Slice(s: Stream, from: nat, length: nat): (r: Result<Stream, StreamErr>)
    ensures s.Points? ==> (r.Err? <==> from + length > Len(s))
    ensures s.Points? && r.Ok? ==> r.value == Points(s.points[from..from + length])
    ensures r.Err? ==> r.error == SliceOutOfBounds
    ensures s.Fixed? ==> r == Ok(Points([s.point]))
  {
    var to := from + length;
    var len := Len(s);
    match s
    case Fixed(x) =>
      assert seq(len, _ => x) == [x];
      Ok(Points(seq(len, _ => x)))
    case Points(p) =>
      if from > len || to > len || from > to then Err(SliceOutOfBounds)
      else Ok(Points(p[from..to]))
  }

  /// `looped_slice`: `length` points read from `from` on, wrapping around the end of the
  /// stream. The position is taken modulo the stream's length, so an empty stream can only
  /// give an empty slice (any other length divides by zero).
  method LoopedSlice(s: Stream, from: nat, length: nat) returns (r: Stream)
    requires Len(s) > 0 || length == 0
    ensures r.Points? && Len(r) == length
    ensures forall i :: 0 <= i < length ==> r.points[i] == PointsOf(s)[(i + from) % Len(s)]
  {
    var streamLength := Len(s);
    var points := [];
    var index := 0;
    while index < length
      invariant 0 <= index <= length && |points| == index
      invariant forall i :: 0 <= i < index ==> points[i] == PointsOf(s)[(i + from) % streamLength]
    {
      var pos := (index + from) % streamLength;
      points := points + [GetPoint(s, pos).value];
      index := index + 1;
    }
    r := Points(points);
  }

  /// `resample_linear`: a factor of 0.0 or less is refused with `ResampleBadFactor`;
  /// otherwise the interpolated stream, which is not part of this model, is returned.
  function ResampleLinear(s: Stream, factor: real, interpolated: Stream): (r: Result<Stream, StreamErr>)
    ensures r.Err? <==> factor <= 0.0
    ensures r.Err? ==> r.error == ResampleBadFactor
    ensures r.Ok? ==> r.value == interpolated
  {
    if factor <= 0.0 then Err(ResampleBadFactor) else Ok(interpolated)
  }

  /// The `mix` example: streams of 5, 3 and 1 points give
  /// [0.6, 0.1, -0.1, -0.2, -0.3].
  method MixExample() returns (r: Stream)
    ensures r == Points([0.6, 0.1, -0.1, -0.2, -0.3])
  {
    var a := Points([0.1, 0.0, -0.1, -0.2, -0.3]);
    var b := Points([0.2, 0.1, 0.0]);
    var c := Points([0.3]);
    var streams := [a, b, c];
    assert streams[..2] == [a, b] && streams[..2][..1] == [a] && streams[..2][..1][..0] == [];
    assert MaxLen([a]) == 5;
    assert MaxLen(streams) == 5;
    MixExampleSums(a, b, c);
    r := Mix(streams);
  }

  /// The position sums of the `mix` example.
  lemma MixExampleSums(a: Stream, b: Stream, c: Stream)
    requires a == Points([0.1, 0.0, -0.1, -0.2, -0.3]) && b == Points([0.2, 0.1, 0.0]) && c == Points([0.3])
    ensures SumAt([a, b, c], 0) == 0.6 && SumAt([a, b, c], 1) == 0.1 && SumAt([a, b, c], 2) == -0.1
    ensures SumAt([a, b, c], 3) == -0.2 && SumAt([a, b, c], 4) == -0.3
  {
    var streams := [a, b, c];
    assert streams[..2] == [a, b] && streams[..2][..1] == [a] && streams[..2][..1][..0] == [];
    forall pos: nat | pos < 5
      ensures SumAt(streams, pos) == PointOrZero(a, pos) + PointOrZero(b, pos) + PointOrZero(c, pos)
    {
      assert SumAt([a], pos) == PointOrZero(a, pos);
    }
  }

  /// The `slice` tests on [0.0, 0.1, 0.2, 0.3, 0.4, 0.5].
  lemma SliceExamples()
    ensures Slice(Points([0.0, 0.1, 0.2, 0.3, 0.4, 0.5]), 0, 2) == Ok(Points([0.0, 0.1]))
    ensures Slice(Points([0.0, 0.1, 0.2, 0.3, 0.4, 0.5]), 2, 3) == Ok(Points([0.2, 0.3, 0.4]))
    ensures Slice(Points([0.0, 0.1, 0.2, 0.3, 0.4, 0.5]), 7, 5) == Err(SliceOutOfBounds)
    ensures Slice(Points([0.0, 0.1, 0.2, 0.3, 0.4, 0.5]), 2, 20) == Err(SliceOutOfBounds)
  {
    var p := [0.0, 0.1, 0.2, 0.3, 0.4, 0.5];
    assert p[0..2] == [0.0, 0.1];
    assert p[2..5] == [0.2, 0.3, 0.4];
  }

  /// A `looped_slice` test: 7 points of [0.0, 0.1] from position 1 alternate 0.1 and 0.0.
  method LoopedSliceExample() returns (r: Stream)
    ensures r == Points([0.1, 0.0, 0.1, 0.0, 0.1, 0.0, 0.1])
  {
    r := LoopedSlice(Points([0.0, 0.1]), 1, 7);
    assert r.points[0] == 0.1 && r.points[1] == 0.0 && r.points[2] == 0.1 && r.points[3] == 0.0
      && r.points[4] == 0.1 && r.points[5] == 0.0 && r.points[6] == 0.1;
  }
}
