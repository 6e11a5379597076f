/// The fixed-size tracker of the core engine: hands out source ids from a counter and keeps
/// one optional signal per id in an array of `SIZE` slots.
module CoreTracker {
  import opened Wrappers
  import opened AudioSignal

  /// `filter_map(|&k| get_signal(k))` over a list of ids: the signals present for them,
  /// in the order of the ids, skipping ids without one.
  function Present(ids: seq<nat>, slots: seq<Option<Signal>>): (r: seq<Signal>)
    requires forall i :: 0 <= i < |ids| ==> ids[i] < |slots|
    ensures |r| <= |ids|
    ensures forall s :: s in r <==> exists i :: 0 <= i < |ids| && slots[ids[i]] == Some(s)
    ensures (forall i :: 0 <= i < |ids| ==> slots[ids[i]].Some?) ==>
      |r| == |ids| && forall i :: 0 <= i < |ids| ==> r[i] == slots[ids[i]].value
  {
    if ids == [] then []
    else
      var front, last := ids[..|ids| - 1], ids[|ids| - 1];
      assert ids == front + [last];
      var rest := Present(front, slots);
      if slots[last].Some? then rest + [slots[last].value] else rest
  }

  /// Filtering a concatenation filters each part and keeps them in the same order: the
  /// signals come out in the order of the ids.
  lemma {:induction false} PresentAppend(a: seq<nat>, b: seq<nat>, slots: seq<Option<Signal>>)
    requires forall i :: 0 <= i < |a| ==> a[i] < |slots|
    requires forall i :: 0 <= i < |b| ==> b[i] < |slots|
    ensures Present(a + b, slots) == Present(a, slots) + Present(b, slots)
    decreases |b|
  {
    if b == [] {
      assert a + b == a;
    } else {
      var front, last := b[..|b| - 1], b[|b| - 1];
      assert b == front + [last];
      assert a + b == (a + front) + [last];
      PresentAppend(a, front, slots);
      assert (a + b)[..|a + b| - 1] == a + front;
    }
  }

  class BasicTracker {
    /// The next id `create_id` hands out.
    var idPosition: nat
    /// One slot per id; `SIZE` is its length.
    const signals: array<Option<Signal>>

    /// `new`: every slot empty and the counter at 0.
    constructor (size: nat)
      ensures fresh(signals) && signals.Length == size && idPosition == 0
      ensures forall id :: 0 <= id < size ==> signals[id] == None
    {
      idPosition := 0;
      signals := new Option<Signal>[size](_ => None);
    }

    /// `get_signal`: the signal stored for `id`, if any. The slot is indexed directly, so
    /// `id` must be below `SIZE`.
    function GetSignal(id: nat): (r: Option<Signal>)
      requires id < signals.Length
      reads signals
      ensures r.Some? <==> signals[id].Some?
      ensures r.Some? ==> signals[id] == Some(r.value)
    {
      signals[id]
    }

    /// `create_id`: hands out the counter as the new id, stores silence for it and moves the
    /// counter on, so ids are handed out in increasing order and never twice. The id indexes
    /// the array, so at most `SIZE` ids can be created.
    method CreateId() returns (id: nat)
      requires idPosition < signals.Length
      modifies this, signals
      ensures id == old(idPosition) && idPosition == id + 1
      ensures GetSignal(id) == Some(Silence)
      ensures signals[..] == old(signals[..])[id := Some(Silence)]
    {
      id := idPosition;
      signals[id] := Some(Silence);
      idPosition := idPosition + 1;
    }

    /// `clear_id`: the slot of `id` becomes empty; nothing else changes.
    method ClearId(id: nat)
      requires id < signals.Length
      modifies signals
      ensures GetSignal(id) == None
      ensures signals[..] == old(signals[..])[id := None]
    {
      signals[id] := None;
    }

    /// `set_signal`: `get_signal(id)` now gives `signal`; every other slot is unchanged.
    method SetSignal(id: nat, signal: Signal)
      requires id < signals.Length
      modifies signals
      ensures GetSignal(id) == Some(signal)
      ensures forall other :: 0 <= other < signals.Length && other != id ==> GetSignal(other) == old(GetSignal(other))
      ensures signals[..] == old(signals[..])[id := Some(signal)]
    {
      signals[id] := Some(signal);
    }
  }

  /// Two sources created one after the other get different ids, the first one smaller, and
  /// each reads as silence.
  method CreateTwoIds() returns (first: nat, second: nat)
    ensures first == 0 && second == 1
  {
    var tracker := new BasicTracker(2);
    first := tracker.CreateId();
    second := tracker.CreateId();
    assert tracker.GetSignal(first) == Some(Silence) && tracker.GetSignal(second) == Some(Silence);
  }
}
