/// The slot operations that the processor and the fallible modules call on a patchbay:
/// `get_sample`, `set_sample` and `set_marks`. They are not part of the patchbay source
/// this model follows, so they are stated here on the patchbay's contents, with a mark
/// meaning that the slot is pending: not yet written since `set_marks`.
///   - a read of a slot either succeeds with the slot's sample or fails; whether it
///     succeeds is decided by a `ReadPolicy` over the marks. `Unmarked`, under which a
///     pending slot cannot be read, is the policy the processor's tests need;
///   - `set_sample` writes the slot and clears its mark;
///   - `set_marks` sets every mark and `clear_marks` clears every mark.
module ScreechPatchAccess {
  import opened Wrappers
  import P = ScreechPatchbay

  /// The failure a module read reports (`PatchError`).
  datatype PatchError = Unreadable(id: nat)

  /// Decides, from the current marks, whether reading slot `id` succeeds.
  type ReadPolicy = (seq<bool>, nat) -> bool

  /// Every read succeeds, whatever the marks.
  ghost predicate AlwaysReadable(policy: ReadPolicy) {
    forall marks, id :: policy(marks, id)
  }

  /// The policy of `get_sample`: a slot can be read unless it is pending.
  function Unmarked(marks: seq<bool>, id: nat): bool {
    id >= |marks| || !marks[id]
  }

  /// `get_sample` of slot `id`.
  function GetSample(bay: P.Bay, policy: ReadPolicy, id: nat): (r: Result<real, PatchError>)
    requires id < |bay.buffer|
    ensures r.Ok? <==> policy(bay.marks, id)
    ensures r.Ok? ==> r.value == bay.buffer[id]
    ensures r.Err? ==> r.error == Unreadable(id)
  {
    if policy(bay.marks, id) then Ok(bay.buffer[id]) else Err(Unreadable(id))
  }

  /// `get_sample` on a live patchbay.
  method ReadSample(pb: P.Patchbay, policy: ReadPolicy, id: nat) returns (r: Result<real, PatchError>)
    requires pb.Valid() && id < pb.size
    ensures r == GetSample(pb.Value(), policy, id)
    ensures r.Ok? <==> policy(pb.marks[..], id)
    ensures r.Ok? ==> r.value == pb.buffer[id]
  {
    if policy(pb.marks[..], id) {
      r := Ok(pb.buffer[id]);
    } else {
      r := Err(Unreadable(id));
    }
  }

  /// The contents after `set_sample` of slot `id`: the slot holds the sample and is no
  /// longer pending; every other slot and mark is left as it was.
  function Store(bay: P.Bay, id: nat, sample: real): (r: P.Bay)
    requires id < |bay.buffer| && id < |bay.marks|
    ensures |r.buffer| == |bay.buffer| && |r.marks| == |bay.marks| && (bay.Valid() ==> r.Valid())
    ensures r.buffer[id] == sample && !r.marks[id]
    ensures forall j :: 0 <= j < |bay.buffer| && j != id ==> r.buffer[j] == bay.buffer[j]
    ensures forall j :: 0 <= j < |bay.marks| && j != id ==> r.marks[j] == bay.marks[j]
  {
    P.Bay(bay.buffer[id := sample], bay.marks[id := false])
  }

  /// `set_sample` through the slot's exclusive handle.
  method SetSample(pb: P.Patchbay, p: P.PatchPoint, sample: real)
    requires pb.Valid() && p.id < pb.size
    modifies pb.buffer, pb.marks
    ensures pb.Valid() && pb.Value() == Store(old(pb.Value()), p.id, sample)
  {
    pb.buffer[p.id] := sample;
    pb.marks[p.id] := false;
  }

  /// The contents after `set_marks`: every mark set, samples untouched.
  function AllMarked(bay: P.Bay): P.Bay {
    P.Bay(bay.buffer, seq(|bay.marks|, _ => true))
  }

  /// The contents after `clear_marks`: every mark cleared, samples untouched.
  function NoneMarked(bay: P.Bay): P.Bay {
    P.Bay(bay.buffer, seq(|bay.marks|, _ => false))
  }

  /// `set_marks`.
  method SetMarks(pb: P.Patchbay)
    requires pb.Valid()
    modifies pb.marks
    ensures pb.Valid() && pb.Value() == AllMarked(old(pb.Value()))
  {
    var i := 0;
    while i < pb.size
      invariant 0 <= i <= pb.size
      invariant forall j :: 0 <= j < i ==> pb.marks[j]
    {
      pb.marks[i] := true;
      i := i + 1;
    }
  }

  /// `clear_marks`, stated on the contents.
  method ClearMarks(pb: P.Patchbay)
    requires pb.Valid()
    modifies pb.marks
    ensures pb.Valid() && pb.Value() == NoneMarked(old(pb.Value()))
  {
    pb.ClearMarks();
  }

  /// Under `Unmarked`, `set_marks` makes every slot unreadable, `set_sample` makes its own
  /// slot readable with the sample written and leaves the others pending, and after
  /// `clear_marks` every slot reads its sample.
  lemma PendingUntilWritten(bay: P.Bay, id: nat, other: nat, sample: real)
    requires bay.Valid() && id < |bay.buffer| && other < |bay.buffer| && other != id
    ensures GetSample(AllMarked(bay), Unmarked, id) == Err(Unreadable(id))
    ensures GetSample(Store(AllMarked(bay), id, sample), Unmarked, id) == Ok(sample)
    ensures GetSample(Store(AllMarked(bay), id, sample), Unmarked, other) == Err(Unreadable(other))
    ensures GetSample(NoneMarked(bay), Unmarked, id) == Ok(bay.buffer[id])
  {
  }
}
