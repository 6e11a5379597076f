/// The older engine's growable tracker: per source id, the named inputs (with the outputs
/// connected to them) and the named output signals, each in a map that gains a source the
/// first time one of its inputs or outputs is initialised.
module DynamicTracker {
  import opened Wrappers
  import ST = Stream
  import opened Routing

  /// The named entries of source `id`, or none when the source has no map yet.
  function Slot<V>(m: map<nat, map<string, V>>, id: nat): (r: map<string, V>)
    ensures id in m ==> r == m[id]
    ensures id !in m ==> r == map[]
  {
    if id in m then m[id] else map[]
  }

  /// Every output signal of every source cut or padded with 0.0 to `size` points.
  function ResizedSources(m: map<nat, map<string, seq<real>>>, size: nat): (r: map<nat, map<string, seq<real>>>)
    ensures r.Keys == m.Keys
    ensures forall id :: id in m ==> r[id] == ResizedAll(m[id], size)
  {
    map id | id in m :: ResizedAll(m[id], size)
  }

  class DynamicTracker {
    var idPosition: nat
    var bufferSize: nat
    var inputs: map<nat, map<string, seq<SignalId>>>
    var signals: map<nat, map<string, seq<real>>>

    /// `new`: no sources and the counter at 0.
    constructor (bufferSize: nat)
      ensures this.bufferSize == bufferSize && idPosition == 0 && inputs == map[] && signals == map[]
    {
      this.bufferSize := bufferSize;
      idPosition := 0;
      inputs := map[];
      signals := map[];
    }

    /// `get_buffer_size`.
    function GetBufferSize(): (n: nat)
      reads this
      ensures n == bufferSize
    {
      bufferSize
    }

    /// `create_source_id`: the counter, which then moves on; nothing else changes.
    method CreateSourceId() returns (id: nat)
      modifies this
      ensures id == old(idPosition) && idPosition == id + 1
      ensures bufferSize == old(bufferSize) && inputs == old(inputs) && signals == old(signals)
    {
      id := idPosition;
      idPosition := idPosition + 1;
    }

    /// `clear_source`: the outputs of source `id` are dropped; its inputs, and so the sources
    /// it lists, stay.
    method ClearSource(id: nat)
      modifies this
      ensures signals == old(signals) - {id} && id !in signals
      ensures inputs == old(inputs) && idPosition == old(idPosition) && bufferSize == old(bufferSize)
    {
      signals := signals - {id};
    }

    /// `get_sources`: the source ids of every output connected to any input of source `id`,
    /// input by input in `keys`, the map's iteration order; nothing for an unknown source.
    method GetSources(id: nat, keys: seq<string>) returns (sources: seq<nat>)
      requires id in inputs ==> IsKeyOrder(inputs[id], keys)
      ensures id in inputs ==> sources == SourcesOf(inputs[id], keys)
      ensures id !in inputs ==> sources == []
      ensures forall x :: x in sources <==>
        id in inputs && exists name, o: SignalId :: name in inputs[id] && o in inputs[id][name] && o.sourceId == x
    {
      sources := [];
      if id in inputs {
        sources := CollectSources(inputs[id], keys);
        forall x ensures x in sources <==>
          exists name, o: SignalId :: name in inputs[id] && o in inputs[id][name] && o.sourceId == x
        {
          SourcesOfMeaning(inputs[id], keys, x);
        }
      }
    }

    /// `get_output`: the points of the named output, if its source and it were initialised.
    function GetOutput(o: SignalId): (r: Option<seq<real>>)
      reads this
      ensures r.Some? <==> o.sourceId in signals && o.signalId in signals[o.sourceId]
      ensures r.Some? ==> r.value == signals[o.sourceId][o.signalId]
    {
      if o.sourceId in signals && o.signalId in signals[o.sourceId] then Some(signals[o.sourceId][o.signalId])
      else None
    }

    /// `init_output`: the source gets a map if it had none, and the named output holds
    /// `bufferSize` points of silence, replacing any earlier points.
    method InitOutput(o: SignalId)
      modifies this
      ensures signals == old(signals)[o.sourceId := Slot(old(signals), o.sourceId)[o.signalId := ST.Zeros(bufferSize)]]
      ensures GetOutput(o) == Some(ST.Zeros(bufferSize))
      ensures inputs == old(inputs) && idPosition == old(idPosition) && bufferSize == old(bufferSize)
    {
      if o.sourceId !in signals {
        signals := signals[o.sourceId := map[]];
      }
      var source := signals[o.sourceId];
      signals := signals[o.sourceId := source[o.signalId := ST.Zeros(bufferSize)]];
    }

    /// `init_input`: the source gets a map if it had none, and the named input is connected
    /// to nothing, dropping any earlier connections.
    method InitInput(s: SignalId)
      modifies this
      ensures inputs == old(inputs)[s.sourceId := Slot(old(inputs), s.sourceId)[s.signalId := []]]
      ensures GetInput(s) == Some([])
      ensures signals == old(signals) && idPosition == old(idPosition) && bufferSize == old(bufferSize)
    {
      if s.sourceId !in inputs {
        inputs := inputs[s.sourceId := map[]];
      }
      var source := inputs[s.sourceId];
      inputs := inputs[s.sourceId := source[s.signalId := []]];
    }

    /// `get_input`: the outputs connected to the named input, if its source and it were
    /// initialised.
    function GetInput(s: SignalId): (r: Option<seq<SignalId>>)
      reads this
      ensures r.Some? <==> s.sourceId in inputs && s.signalId in inputs[s.sourceId]
      ensures r.Some? ==> r.value == inputs[s.sourceId][s.signalId]
    {
      if s.sourceId in inputs && s.signalId in inputs[s.sourceId] then Some(inputs[s.sourceId][s.signalId])
      else None
    }

    /// `resize_buffers`: the new size is kept, and every output of every source is cut or
    /// padded with silence to it, sources visited in the map's own order.
    method ResizeBuffers(size: nat)
      modifies this
      ensures bufferSize == size && signals == ResizedSources(old(signals), size)
      ensures inputs == old(inputs) && idPosition == old(idPosition)
    {
      bufferSize := size;
      var remaining := signals.Keys;
      while remaining != {}
        invariant remaining <= old(signals).Keys && signals.Keys == old(signals).Keys
        invariant forall id :: id in signals ==>
          signals[id] == if id in remaining then old(signals)[id] else ResizedAll(old(signals)[id], size)
        invariant bufferSize == size && inputs == old(inputs) && idPosition == old(idPosition)
        decreases |remaining|
      {
        var id :| id in remaining;
        var source := ResizeSource(signals[id], size);
        signals := signals[id := source];
        remaining := remaining - {id};
      }
      assert signals == ResizedSources(old(signals), size);
    }

    /// `connect_signal`: when the input's source and the input were initialised, `output` is
    /// appended to its list; otherwise nothing changes.
    method ConnectSignal(output: SignalId, input: SignalId)
      modifies this
      ensures input.sourceId in old(inputs) ==>
        inputs == old(inputs)[input.sourceId := Connected(old(inputs)[input.sourceId], output, input.signalId)]
      ensures input.sourceId !in old(inputs) ==> inputs == old(inputs)
      ensures signals == old(signals) && idPosition == old(idPosition) && bufferSize == old(bufferSize)
    {
      if input.sourceId in inputs && input.signalId in inputs[input.sourceId] {
        var source := inputs[input.sourceId];
        inputs := inputs[input.sourceId := source[input.signalId := source[input.signalId] + [output]]];
      }
    }

    /// `clear_connection`: when the input's source and the input were initialised, every copy
    /// of `output` is removed from its list, in order; otherwise nothing changes.
    method ClearConnection(output: SignalId, input: SignalId)
      modifies this
      ensures input.sourceId in old(inputs) ==>
        inputs == old(inputs)[input.sourceId := Disconnected(old(inputs)[input.sourceId], output, input.signalId)]
      ensures input.sourceId !in old(inputs) ==> inputs == old(inputs)
      ensures signals == old(signals) && idPosition == old(idPosition) && bufferSize == old(bufferSize)
    {
      if input.sourceId in inputs && input.signalId in inputs[input.sourceId] {
        var source := inputs[input.sourceId];
        inputs := inputs[input.sourceId := Disconnected(source, output, input.signalId)];
      }
    }
  }

  /// The documented use: two sources created on one tracker get different ids.
  method CreateTwoSources() returns (first: nat, second: nat)
    ensures first != second
  {
    var tracker := new DynamicTracker(128);
    first := tracker.CreateSourceId();
    second := tracker.CreateSourceId();
  }

  /// Clearing a source drops its outputs but not its inputs: the output is gone, while the
  /// source still lists the one it was connected to.
  method ClearKeepsConnections() returns (output: Option<seq<real>>, sources: seq<nat>)
    ensures output == None && sources == [0]
  {
    var tracker := new DynamicTracker(4);
    tracker.InitOutput(SignalId(1, "out"));
    tracker.InitInput(SignalId(1, "in"));
    assert tracker.inputs[1] == map["in" := []];
    tracker.ConnectSignal(SignalId(0, "out"), SignalId(1, "in"));
    assert tracker.inputs[1]["in"] == [SignalId(0, "out")];
    assert tracker.inputs[1].Keys == {"in"};
    tracker.ClearSource(1);
    output := tracker.GetOutput(SignalId(1, "out"));
    sources := tracker.GetSources(1, ["in"]);
    assert SourcesOf(tracker.inputs[1], ["in"]) == SourcesOf(tracker.inputs[1], []) + [0];
  }
}
