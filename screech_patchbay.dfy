/// The patchbay of the `screech` crate: a fixed number of sample slots shared by all
/// modules, plus one mark per slot telling whether the slot is taken / up to date.
module ScreechPatchbay {
  import opened Wrappers
  import S = ScreechSignal

  /// The exclusive write handle of one slot. Only `Patchbay.Point` hands these out.
  datatype PatchPoint = PatchPoint(id: nat) {
    /// The read handle of the same slot; deriving it leaves the handle usable.
    function Signal(): (s: S.Signal)
      ensures s.PatchPoint? && s.id == id
    {
      S.PatchPoint(id)
    }
  }

  /// The contents of a patchbay as a value: the slot samples and the slot marks.
  datatype Bay = Bay(buffer: seq<real>, marks: seq<bool>) {
    predicate Valid() {
      |buffer| == |marks|
    }

    /// What `Patchbay::set` does to the contents: write the slot and mark it.
    function Write(id: nat, sample: real): (r: Bay)
      requires id < |buffer| && id < |marks|
      ensures |r.buffer| == |buffer| && |r.marks| == |marks| && (Valid() ==> r.Valid())
      ensures r.buffer[id] == sample && r.marks[id]
      ensures forall j :: 0 <= j < |buffer| && j != id ==> r.buffer[j] == buffer[j]
      ensures forall j :: 0 <= j < |marks| && j != id ==> r.marks[j] == marks[j]
    {
      Bay(buffer[id := sample], marks[id := true])
    }
  }

  /// The value a signal reads from a slot buffer: the slot, the fixed value, or ground.
  function GetIn(buffer: seq<real>, s: S.Signal): (r: real)
    requires S.FitsIn(s, |buffer|)
    ensures s.PatchPoint? ==> r == buffer[s.id]
    ensures s.Fixed? ==> r == s.value
    ensures s.None? ==> r == 0.0
  {
    match s
    case PatchPoint(id) => buffer[id]
    case Fixed(v) => v
    case None => 0.0
  }

  /// Whether a signal is up to date: the slot's mark, and always for fixed values and ground.
  function CheckIn(marks: seq<bool>, s: S.Signal): (r: bool)
    requires S.FitsIn(s, |marks|)
    ensures r <==> (s.PatchPoint? ==> marks[s.id])
  {
    match s
    case PatchPoint(id) => marks[id]
    case Fixed(_) => true
    case None => true
  }

  /// The first unmarked slot at or after `from`, the slot `point()` hands out.
  function FirstUnmarked(marks: seq<bool>, from: nat): (r: Option<nat>)
    ensures r.Some? ==> from <= r.value < |marks| && !marks[r.value]
    decreases |marks| - from
  {
    if from >= |marks| then None
    else if !marks[from] then Some(from)
    else FirstUnmarked(marks, from + 1)
  }

  /// `FirstUnmarked` finds the lowest unmarked slot, and finds none only when every
  /// slot from `from` on is marked.
  lemma {:induction false} FirstUnmarkedIsLowest(marks: seq<bool>, from: nat)
    ensures FirstUnmarked(marks, from).Some? ==>
      var i := FirstUnmarked(marks, from).value;
      from <= i < |marks| && !marks[i] && forall j :: from <= j < i ==> marks[j]
    ensures FirstUnmarked(marks, from).None? <==> forall j :: from <= j < |marks| ==> marks[j]
    decreases |marks| - from
  {
    if from < |marks| && marks[from] {
      FirstUnmarkedIsLowest(marks, from + 1);
    }
  }

  /// Two successive allocations with no `clear_marks` in between give strictly
  /// increasing, hence distinct, slots.
  lemma SuccessivePointsIncrease(marks: seq<bool>, i: nat)
    requires FirstUnmarked(marks, 0) == Some(i)
    ensures i < |marks|
    ensures FirstUnmarked(marks[i := true], 0).Some? ==> FirstUnmarked(marks[i := true], 0).value > i
  {
    FirstUnmarkedIsLowest(marks, 0);
    FirstUnmarkedIsLowest(marks[i := true], 0);
  }

  class Patchbay {
    /// PATCHPOINTS, the number of slots.
    const size: nat
    const buffer: array<real>
    const marks: array<bool>

    ghost predicate Valid()
      reads this
    {
      buffer.Length == size && marks.Length == size
    }

    /// The contents as a value.
    ghost function Value(): Bay
      reads this, buffer, marks
    {
      Bay(buffer[..], marks[..])
    }

    /// `Patchbay::new`: every slot holds 0.0 and every mark is cleared.
    constructor (size: nat)
      ensures Valid() && this.size == size
      ensures fresh(buffer) && fresh(marks)
      ensures buffer[..] == seq(size, _ => 0.0)
      ensures marks[..] == seq(size, _ => false)
    {
      this.size := size;
      buffer := new real[size](_ => 0.0);
      marks := new bool[size](_ => false);
    }

    /// The sample value of a signal.
    function Get(s: S.Signal): (r: real)
      requires Valid() && S.FitsIn(s, size)
      reads this, buffer
      ensures s.PatchPoint? ==> r == buffer[s.id]
      ensures s.Fixed? ==> r == s.value
      ensures s.None? ==> r == 0.0
    {
      GetIn(buffer[..], s)
    }

    /// Whether the sample value of a signal is up to date.
    function Check(s: S.Signal): (r: bool)
      requires Valid() && S.FitsIn(s, size)
      reads this, marks
      ensures s.PatchPoint? ==> (r <==> marks[s.id])
      ensures !s.PatchPoint? ==> r
    {
      CheckIn(marks[..], s)
    }

    /// Hand out the lowest free slot and mark it; `None` when every slot is marked.
    /// A fresh point already checks as up to date, before anything was written to it.
    method Point() returns (p: Option<PatchPoint>)
      requires Valid()
      modifies marks
      ensures Valid()
      ensures p == (match FirstUnmarked(old(marks[..]), 0)
                    case Some(i) => Some(PatchPoint(i))
                    case None => None)
      ensures p.None? <==> forall j :: 0 <= j < size ==> old(marks[j])
      ensures p.Some? ==> p.value.id < size && !old(marks[p.value.id])
      ensures p.Some? ==> forall j :: 0 <= j < p.value.id ==> old(marks[j])
      ensures p.Some? ==> marks[..] == old(marks[..])[p.value.id := true] && Check(p.value.Signal())
      ensures p.None? ==> marks[..] == old(marks[..])
    {
      FirstUnmarkedIsLowest(marks[..], 0);
      var i := 0;
      while i < size
        invariant 0 <= i <= size
        invariant forall j :: 0 <= j < i ==> marks[j]
        invariant FirstUnmarked(marks[..], 0) == FirstUnmarked(marks[..], i)
        invariant marks[..] == old(marks[..])
      {
        if !marks[i] {
          marks[i] := true;
          return Some(PatchPoint(i));
        }
        i := i + 1;
      }
      return None;
    }

    /// Write a sample through the exclusive handle; the slot is marked up to date.
    /// Every other slot and mark is left as it was.
    method Set(p: PatchPoint, sample: real)
      requires Valid() && p.id < size
      modifies buffer, marks
      ensures Valid()
      ensures buffer[..] == old(buffer[..])[p.id := sample]
      ensures marks[..] == old(marks[..])[p.id := true]
      ensures Value() == old(Value()).Write(p.id, sample)
      ensures Get(p.Signal()) == sample && Check(p.Signal())
    {
      buffer[p.id] := sample;
      marks[p.id] := true;
    }

    /// Clear every mark, leaving the samples alone. Slots handed out before can be
    /// handed out again afterwards.
    method ClearMarks()
      requires Valid()
      modifies marks
      ensures Valid()
      ensures marks[..] == seq(size, _ => false)
      ensures FirstUnmarked(marks[..], 0) == if size == 0 then None else Some(0)
    {
      var i := 0;
      while i < size
        invariant 0 <= i <= size
        invariant forall j :: 0 <= j < i ==> !marks[j]
      {
        marks[i] := false;
        i := i + 1;
      }
    }
  }

  /// The usage shown on `Patchbay`: a fresh point reads 0.0, and reads back what was set.
  method PatchbayExample() returns (before: real, after: real)
    ensures before == 0.0 && after == 1.0
  {
    var patchbay := new Patchbay(128);
    var point := patchbay.Point();
    assert point == Some(PatchPoint(0));
    var p := point.value;
    before := patchbay.Get(p.Signal());
    patchbay.Set(p, 1.0);
    after := patchbay.Get(p.Signal());
  }

  /// The usage shown on `Signal`: a patch point, a fixed value and ground.
  method SignalExample() returns (source: real, fixed: real, silence: real)
    ensures source == 0.4 && fixed == 0.6 && silence == 0.0
  {
    var patchbay := new Patchbay(128);
    var point := patchbay.Point();
    var p := point.value;
    patchbay.Set(p, 0.4);
    source := patchbay.Get(p.Signal());
    fixed := patchbay.Get(S.Fixed(0.6));
    silence := patchbay.Get(S.None);
  }
}
