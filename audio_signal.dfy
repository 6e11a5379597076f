/// The audio `Signal` of the engine: one point of sound, either mono or a stereo pair,
/// with its channel conversions and its two mixing operations.
module AudioSignal {
  import opened Wrappers

  datatype Signal =
    | Mono(point: real)
    | Stereo(left: real, right: real)

  /// `silence`.
  const Silence: Signal := Mono(0.0)

  /// `get_point`: the point, or the left point of a stereo pair.
  function GetPoint(s: Signal): (p: real)
    ensures IsMono(s) ==> s == Mono(p)
    ensures !IsMono(s) ==> s == Stereo(p, s.right)
  {
    match s
    case Mono(p) => p
    case Stereo(l, _) => l
  }

  /// `get_right_point`: the right point, when there is one.
  function GetRightPoint(s: Signal): (r: Option<real>)
    ensures r.Some? <==> IsStereo(s)
  {
    match s
    case Mono(_) => None
    case Stereo(_, r) => Some(r)
  }

  /// `sum_points`: the left point plus the right point, if any.
  function SumPoints(s: Signal): (r: real)
    ensures r == GetPoint(s) + GetRightPoint(s).UnwrapOr(0.0)
  {
    match s
    case Mono(p) => p
    case Stereo(l, r) => l + r
  }

  /// The right point, or 0.0 for a mono signal (the stereo fold of `mix_into`).
  function RightOrZero(s: Signal): (r: real)
    ensures s.Stereo? ==> r == s.right
    ensures IsMono(s) ==> r == 0.0
    ensures SumPoints(s) == GetPoint(s) + r
  {
    GetRightPoint(s).UnwrapOr(0.0)
  }

  /// The right point, or the point itself for a mono signal (the right fold of `mix`).
  function RightOrPoint(s: Signal): (r: real)
    ensures s.Stereo? ==> r == s.right
    ensures IsMono(s) ==> r == GetPoint(s)
  {
    GetRightPoint(s).UnwrapOr(GetPoint(s))
  }

  /// `is_mono`: exactly for a signal of one point.
  predicate IsMono(s: Signal)
    ensures IsMono(s) <==> s.Mono?
  {
    match s
    case Mono(_) => true
    case Stereo(_, _) => false
  }

  /// `is_stereo`: exactly when the signal is not mono.
  predicate IsStereo(s: Signal)
    ensures IsStereo(s) <==> !IsMono(s)
  {
    match s
    case Mono(_) => false
    case Stereo(_, _) => true
  }

  /// `map`: `f` applied to every point; the channel kind is kept.
  function Map(s: Signal, f: real -> real): (r: Signal)
    ensures IsMono(r) <==> IsMono(s)
    ensures GetPoint(r) == f(GetPoint(s))
    ensures IsStereo(s) ==> r.right == f(s.right)
  {
    match s
    case Mono(p) => Mono(f(p))
    case Stereo(l, r) => Stereo(f(l), f(r))
  }

  /// `map_stereo`: `l` on the left (or only) point, `r` on the right one.
  function MapStereo(s: Signal, l: real -> real, r: real -> real): (out: Signal)
    ensures IsMono(out) <==> IsMono(s)
    ensures GetPoint(out) == l(GetPoint(s))
    ensures IsStereo(s) ==> out.right == r(s.right)
  {
    match s
    case Mono(p) => Mono(l(p))
    case Stereo(left, right) => Stereo(l(left), r(right))
  }

  /// `map_to_stereo`: a mono point is fed to `f` on both channels; the result is stereo.
  function MapToStereo(s: Signal, f: (real, real) -> (real, real)): (r: Signal)
    ensures IsStereo(r)
    ensures (r.left, r.right) == f(GetPoint(s), RightOrPoint(s))
  {
    var (left, right) := match s
      case Mono(p) => f(p, p)
      case Stereo(l, r) => f(l, r);
    Stereo(left, right)
  }

  /// `map_to_stereo` with independent channel maps is `map_stereo` after `to_stereo`.
  lemma MapToStereoIsMapStereo(s: Signal, l: real -> real, r: real -> real)
    ensures MapToStereo(s, (a, b) => (l(a), r(b))) == MapStereo(ToStereo(s), l, r)
  {
  }

  /// `sum_to_mono`: a mono signal is kept, a stereo pair becomes the sum of its points.
  function SumToMono(s: Signal): (r: Signal)
    ensures IsMono(r) && GetPoint(r) == SumPoints(s)
    ensures IsMono(s) ==> r == s
  {
    match s
    case Mono(_) => s
    case Stereo(l, r) => Mono(l + r)
  }

  /// `to_mono`: a stereo pair keeps its left point only.
  function ToMono(s: Signal): (r: Signal)
    ensures IsMono(r) && GetPoint(r) == GetPoint(s)
    ensures IsMono(s) ==> r == s
  {
    match s
    case Mono(_) => s
    case Stereo(l, _) => Mono(l)
  }

  /// `to_stereo`: a mono point is copied to both channels; a stereo pair is kept.
  function ToStereo(s: Signal): (r: Signal)
    ensures IsStereo(r) && GetPoint(r) == GetPoint(s) && r.right == RightOrPoint(s)
    ensures IsStereo(s) ==> r == s
  {
    match s
    case Mono(p) => Stereo(p, p)
    case Stereo(_, _) => s
  }

  /// The three conversions are idempotent.
  lemma ConversionsIdempotent(s: Signal)
    ensures ToStereo(ToStereo(s)) == ToStereo(s)
    ensures ToMono(ToMono(s)) == ToMono(s)
    ensures SumToMono(SumToMono(s)) == SumToMono(s)
  {
  }

  /// `match_channels`: converted to the channel kind of `other`, summing to mono.
  function MatchChannels(s: Signal, other: Signal): (r: Signal)
    ensures IsMono(r) <==> IsMono(other)
    ensures IsMono(other) ==> GetPoint(r) == SumPoints(s)
    ensures IsStereo(other) ==> r == ToStereo(s)
  {
    match other
    case Mono(_) => SumToMono(s)
    case Stereo(_, _) => ToStereo(s)
  }

  /// A left fold that adds `f` of every signal to `init`.
  function Fold(init: real, signals: seq<Signal>, f: Signal -> real): (r: real)
    ensures (forall i :: 0 <= i < |signals| ==> f(signals[i]) == 0.0) ==> r == init
  {
    if signals == [] then init
    else Fold(init, signals[..|signals| - 1], f) + f(signals[|signals| - 1])
  }

  /// Folding from `init` is `init` plus the fold from zero.
  lemma {:induction false} FoldFromInit(init: real, signals: seq<Signal>, f: Signal -> real)
    ensures Fold(init, signals, f) == init + Fold(0.0, signals, f)
  {
    if signals != [] {
      FoldFromInit(init, signals[..|signals| - 1], f);
    }
  }

  /// Two projections that agree on every signal fold to the same total.
  lemma {:induction false} FoldAgrees(init: real, signals: seq<Signal>, f: Signal -> real, g: Signal -> real)
    requires forall i :: 0 <= i < |signals| ==> f(signals[i]) == g(signals[i])
    ensures Fold(init, signals, f) == Fold(init, signals, g)
  {
    if signals != [] {
      FoldAgrees(init, signals[..|signals| - 1], f, g);
    }
  }

  /// Every signal of the list is mono.
  predicate AllMono(signals: seq<Signal>) {
    forall i :: 0 <= i < |signals| ==> IsMono(signals[i])
  }

  /// `mix_into`: a mono receiver adds the summed points of every signal; a stereo receiver
  /// adds the left points on the left and the right points (0.0 for mono) on the right.
  function MixInto(s: Signal, signals: seq<Signal>): (r: Signal)
    ensures IsMono(r) <==> IsMono(s)
  {
    match s
    case Mono(p) => Mono(Fold(p, signals, SumPoints))
    case Stereo(l, r) => Stereo(Fold(l, signals, GetPoint), Fold(r, signals, RightOrZero))
  }

  /// The result of `mix` on a list of signals.
  function Mixed(signals: seq<Signal>): (r: Signal)
    ensures IsMono(r) <==> AllMono(signals)
    ensures GetPoint(r) == Fold(0.0, signals, GetPoint)
    ensures !IsMono(r) ==> r.right == Fold(0.0, signals, RightOrPoint)
  {
    var left := Fold(0.0, signals, GetPoint);
    if AllMono(signals) then Mono(left) else Stereo(left, Fold(0.0, signals, RightOrPoint))
  }

  /// `mix`: mono exactly when every input is mono; the left channel sums the left (or only)
  /// points, the right channel the right points with every mono point counted on both sides.
  method Mix(signals: seq<Signal>) returns (r: Signal)
    ensures r == Mixed(signals)
    ensures IsMono(r) <==> AllMono(signals)
    ensures signals == [] ==> r == Mono(0.0)
  {
    var left := 0.0;
    var right := 0.0;
    var isMono := true;
    var i := 0;
    while i < |signals|
      invariant 0 <= i <= |signals|
      invariant left == Fold(0.0, signals[..i], GetPoint)
      invariant right == Fold(0.0, signals[..i], RightOrPoint)
      invariant isMono <==> AllMono(signals[..i])
    {
      var s := signals[i];
      assert signals[..i + 1][..i] == signals[..i];
      left := left + GetPoint(s);
      match GetRightPoint(s) {
        case Some(point) =>
          isMono := false;
          right := right + point;
        case None =>
          right := right + GetPoint(s);
      }
      i := i + 1;
    }
    assert signals[..i] == signals;
    if isMono {
      r := Mono(left);
    } else {
      r := Stereo(left, right);
    }
  }

  /// Mixing a list of mono signals into a mono silence is `mix` of the list.
  lemma MixIntoSilenceIsMix(signals: seq<Signal>)
    requires AllMono(signals)
    ensures MixInto(Silence, signals) == Mixed(signals)
  {
    FoldAgrees(0.0, signals, SumPoints, GetPoint);
  }

  /// A mono input adds its point to both channels of a stereo mix.
  lemma MixAddsMonoToBoth(signals: seq<Signal>, p: real)
    requires !AllMono(signals)
    ensures Mixed(signals + [Mono(p)])
      == Stereo(Mixed(signals).left + p, Mixed(signals).right + p)
  {
  }

  /// `from_points`: one mono signal per point.
  function FromPoints(points: seq<real>): (r: seq<Signal>)
    ensures |r| == |points| && forall i :: 0 <= i < |points| ==> r[i] == Mono(points[i])
  {
    seq(|points|, i requires 0 <= i < |points| => Mono(points[i]))
  }

  /// The `mix` example: 0.1 and 0.2 mono with (0.3, 0.2) stereo give (0.6, 0.5).
  lemma MixExample()
    ensures Mixed([Mono(0.1), Mono(0.2), Stereo(0.3, 0.2)]) == Stereo(0.6, 0.5)
  {
    var s := [Mono(0.1), Mono(0.2), Stereo(0.3, 0.2)];
    assert s[..2] == [Mono(0.1), Mono(0.2)] && s[..2][..1] == [Mono(0.1)] && s[..2][..1][..0] == [];
    assert Fold(0.0, s[..2][..1], GetPoint) == 0.1;
    assert Fold(0.0, s[..2], GetPoint) == 0.1 + 0.2;
    assert Fold(0.0, s, GetPoint) == 0.6;
    assert Fold(0.0, s[..2][..1], RightOrPoint) == 0.1;
    assert Fold(0.0, s[..2], RightOrPoint) == 0.1 + 0.2;
    assert Fold(0.0, s, RightOrPoint) == 0.5;
    assert !AllMono(s) by { assert !IsMono(s[2]); }
  }

  /// The `mix_into` example: 0.1 mono and (0.2, 0.3) stereo mixed into mono 0.4 give 1.0.
  lemma MixIntoExample()
    ensures MixInto(Mono(0.4), [Mono(0.1), Stereo(0.2, 0.3)]) == Mono(1.0)
  {
  }
}
