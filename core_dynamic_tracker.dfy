/// The dynamically sized tracker of the core engine: a counter for ids and a map from id to
/// signal.
module CoreDynamicTracker {
  import opened Wrappers
  import opened AudioSignal

  class DynamicTracker {
    var idPosition: nat
    var signals: map<nat, Signal>

    /// `new`: no signals and the counter at 0.
    constructor ()
      ensures idPosition == 0 && signals == map[]
    {
      idPosition := 0;
      signals := map[];
    }

    /// `get_signal`: the signal stored for `id`, if any.
    function GetSignal(id: nat): (r: Option<Signal>)
      reads this
      ensures r.Some? <==> id in signals
      ensures r.Some? ==> r.value == signals[id]
    {
      if id in signals then Some(signals[id]) else None
    }

    /// `create_id`: the counter, which then moves on. No signal is registered for the id.
    method CreateId() returns (id: nat)
      modifies this
      ensures id == old(idPosition) && idPosition == id + 1
      ensures signals == old(signals)
    {
      id := idPosition;
      idPosition := idPosition + 1;
    }

    /// `clear_id`: removes the signal of `id` and of no other id.
    method ClearId(id: nat)
      modifies this
      ensures idPosition == old(idPosition)
      ensures GetSignal(id) == None
      ensures signals == old(signals) - {id}
    {
      signals := signals - {id};
    }

    /// `set_signal`: stores `signal` for `id`, replacing any earlier one.
    method SetSignal(id: nat, signal: Signal)
      modifies this
      ensures idPosition == old(idPosition)
      ensures GetSignal(id) == Some(signal)
      ensures signals == old(signals)[id := signal]
    {
      signals := signals[id := signal];
    }
  }

  /// The documented use: two ids created on a new tracker differ, and neither has a signal
  /// until one is set.
  method CreateTwoIds() returns (first: nat, second: nat)
    ensures first == 0 && second == 1
  {
    var tracker := new DynamicTracker();
    first := tracker.CreateId();
    second := tracker.CreateId();
    assert tracker.GetSignal(first) == None && tracker.GetSignal(second) == None;
  }
}
