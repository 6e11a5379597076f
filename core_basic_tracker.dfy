/// The two-dimensional tracker of the core engine: a `SOURCES_SIZE` by `SIGNALS_SIZE` grid
/// of optional signals, addressed by an external signal (source id, signal id), and a
/// counter for source ids.
module CoreBasicTracker {
  import opened Wrappers
  import opened AudioSignal

  /// `ExternalSignal`: the address of one signal of one source.
  datatype ExternalSignal = ExternalSignal(sourceId: nat, signalId: nat)

  class BasicTracker {
    var idPosition: nat
    /// `signals[source][signal]`.
    const signals: array2<Option<Signal>>

    /// The address lies inside the grid.
    predicate Fits(e: ExternalSignal)
      reads this
    {
      e.sourceId < signals.Length0 && e.signalId < signals.Length1
    }

    /// `new`: every cell empty and the counter at 0.
    constructor (sourcesSize: nat, signalsSize: nat)
      ensures fresh(signals) && signals.Length0 == sourcesSize && signals.Length1 == signalsSize
      ensures idPosition == 0
      ensures forall i, j :: 0 <= i < sourcesSize && 0 <= j < signalsSize ==> signals[i, j] == None
    {
      idPosition := 0;
      signals := new Option<Signal>[sourcesSize, signalsSize]((_, _) => None);
    }

    /// `get_signal`: the signal stored at the address, if any; both indices must be inside
    /// the grid.
    function GetSignal(e: ExternalSignal): (r: Option<Signal>)
      requires Fits(e)
      reads this, signals
      ensures r.Some? <==> signals[e.sourceId, e.signalId].Some?
      ensures r.Some? ==> signals[e.sourceId, e.signalId] == Some(r.value)
    {
      signals[e.sourceId, e.signalId]
    }

    /// `create_source_id`: the counter, which then moves on; the grid is not touched.
    method CreateSourceId() returns (id: nat)
      modifies this
      ensures id == old(idPosition) && idPosition == id + 1
    {
      id := idPosition;
      idPosition := idPosition + 1;
    }

    /// `clear_source`: does nothing.
    method ClearSource(id: nat)
      ensures unchanged(this) && unchanged(signals)
    {
    }

    /// `set_signal`: the addressed cell holds `signal`; every other cell is unchanged.
    method SetSignal(e: ExternalSignal, signal: Signal)
      requires Fits(e)
      modifies signals
      ensures GetSignal(e) == Some(signal)
      ensures forall i, j ::
        0 <= i < signals.Length0 && 0 <= j < signals.Length1 && (i, j) != (e.sourceId, e.signalId) ==>
          signals[i, j] == old(signals[i, j])
    {
      signals[e.sourceId, e.signalId] := Some(signal);
    }
  }

  /// The documented use: two sources created on one tracker get different ids.
  method CreateTwoSources() returns (first: nat, second: nat)
    ensures first == 0 && second == 1
  {
    var tracker := new BasicTracker(2, 2);
    first := tracker.CreateSourceId();
    second := tracker.CreateSourceId();
  }
}
