/// The older engine's fixed-size tracker: `SOURCES_SIZE` slots, each holding the named
/// inputs of one source (with the outputs connected to them) and its named output signals,
/// plus a counter for source ids and a message store.
module BasicTracker {
  import opened Wrappers
  import ST = Stream
  import R = Retain
  import opened Routing

  class BasicTracker<T> {
    var idPosition: nat
    var bufferSize: nat
    /// `inputs[source]`: the outputs connected to each named input of the source.
    const inputs: array<map<string, seq<SignalId>>>
    /// `signals[source]`: the points of each named output of the source.
    const signals: array<map<string, seq<real>>>
    var messages: map<nat, seq<Message<T>>>

    /// The source id of `s` is one of the tracker's slots (indexing outside panics).
    predicate Fits(s: SignalId)
      reads this
    {
      s.sourceId < inputs.Length && s.sourceId < signals.Length
    }

    /// `new`: every slot empty, the counter at 0, no messages.
    constructor (sourcesSize: nat, bufferSize: nat)
      ensures this.bufferSize == bufferSize && idPosition == 0 && messages == map[]
      ensures fresh(inputs) && fresh(signals) && inputs.Length == sourcesSize && signals.Length == sourcesSize
      ensures forall i :: 0 <= i < sourcesSize ==> inputs[i] == map[] && signals[i] == map[]
    {
      this.bufferSize := bufferSize;
      idPosition := 0;
      inputs := new map<string, seq<SignalId>>[sourcesSize](_ => map[]);
      signals := new map<string, seq<real>>[sourcesSize](_ => map[]);
      messages := map[];
    }

    /// `get_buffer_size`.
    function GetBufferSize(): (n: nat)
      reads this
      ensures n == bufferSize
    {
      bufferSize
    }

    /// `create_source_id`: the counter, which then moves on; nothing else changes.
    method CreateSourceId() returns (id: nat)
      modifies this
      ensures id == old(idPosition) && idPosition == id + 1
      ensures bufferSize == old(bufferSize) && messages == old(messages)
    {
      id := idPosition;
      idPosition := idPosition + 1;
    }

    /// `clear_source`: does nothing.
    method ClearSource(id: nat)
      ensures unchanged(this) && unchanged(inputs) && unchanged(signals)
    {
    }

    /// `get_sources`: the source ids of every output connected to any input of source `id`,
    /// input by input in `keys`, the map's iteration order.
    method GetSources(id: nat, keys: seq<string>) returns (sources: seq<nat>)
      requires id < inputs.Length && IsKeyOrder(inputs[id], keys)
      ensures sources == SourcesOf(inputs[id], keys)
      ensures forall x :: x in sources <==>
        exists name, o :: name in inputs[id] && o in inputs[id][name] && o.sourceId == x
    {
      sources := CollectSources(inputs[id], keys);
      forall x ensures x in sources <==>
        exists name, o :: name in inputs[id] && o in inputs[id][name] && o.sourceId == x
      {
        SourcesOfMeaning(inputs[id], keys, x);
      }
    }

    /// `get_output`: the points of the named output, if it was initialised.
    function GetOutput(o: SignalId): (r: Option<seq<real>>)
      requires Fits(o)
      reads this, signals
      ensures r.Some? <==> o.signalId in signals[o.sourceId]
      ensures r.Some? ==> r.value == signals[o.sourceId][o.signalId]
    {
      if o.signalId in signals[o.sourceId] then Some(signals[o.sourceId][o.signalId]) else None
    }

    /// `init_output`: the named output holds `bufferSize` points of silence, replacing any
    /// earlier points; every other output is unchanged.
    method InitOutput(o: SignalId)
      requires Fits(o)
      modifies signals
      ensures signals[o.sourceId] == old(signals[o.sourceId])[o.signalId := ST.Zeros(bufferSize)]
      ensures forall i :: 0 <= i < signals.Length && i != o.sourceId ==> signals[i] == old(signals[i])
      ensures GetOutput(o) == Some(ST.Zeros(bufferSize))
    {
      signals[o.sourceId] := signals[o.sourceId][o.signalId := ST.Zeros(bufferSize)];
    }

    /// `init_input`: the named input is connected to nothing, dropping any earlier
    /// connections; every other input is unchanged.
    method InitInput(s: SignalId)
      requires Fits(s)
      modifies inputs
      ensures inputs[s.sourceId] == old(inputs[s.sourceId])[s.signalId := []]
      ensures forall i :: 0 <= i < inputs.Length && i != s.sourceId ==> inputs[i] == old(inputs[i])
      ensures GetInput(s) == Some([])
    {
      inputs[s.sourceId] := inputs[s.sourceId][s.signalId := []];
    }

    /// `get_input`: the outputs connected to the named input, if it was initialised.
    function GetInput(s: SignalId): (r: Option<seq<SignalId>>)
      requires Fits(s)
      reads this, inputs
      ensures r.Some? <==> s.signalId in inputs[s.sourceId]
      ensures r.Some? ==> r.value == inputs[s.sourceId][s.signalId]
    {
      if s.signalId in inputs[s.sourceId] then Some(inputs[s.sourceId][s.signalId]) else None
    }

    /// `resize_buffers`: the new size is kept, and every output of every source is cut or
    /// padded with silence to it; no output appears or disappears.
    method ResizeBuffers(size: nat)
      modifies this, signals
      ensures bufferSize == size && idPosition == old(idPosition) && messages == old(messages)
      ensures forall i :: 0 <= i < signals.Length ==> signals[i] == ResizedAll(old(signals[i]), size)
      ensures forall i :: 0 <= i < signals.Length ==> signals[i].Keys == old(signals[i]).Keys
    {
      bufferSize := size;
      var i := 0;
      while i < signals.Length
        invariant 0 <= i <= signals.Length
        invariant bufferSize == size && idPosition == old(idPosition) && messages == old(messages)
        invariant forall j :: 0 <= j < i ==> signals[j] == ResizedAll(old(signals[j]), size)
        invariant forall j :: i <= j < signals.Length ==> signals[j] == old(signals[j])
      {
        signals[i] := ResizeSource(signals[i], size);
        i := i + 1;
      }
    }

    /// `connect_signal`: when the input was initialised, `output` is appended to its list;
    /// otherwise nothing changes.
    method ConnectSignal(output: SignalId, input: SignalId)
      requires Fits(input)
      modifies inputs
      ensures inputs[input.sourceId] == Connected(old(inputs[input.sourceId]), output, input.signalId)
      ensures forall i :: 0 <= i < inputs.Length && i != input.sourceId ==> inputs[i] == old(inputs[i])
    {
      if input.signalId in inputs[input.sourceId] {
        var m := inputs[input.sourceId];
        inputs[input.sourceId] := m[input.signalId := m[input.signalId] + [output]];
      }
    }

    /// `clear_connection`: when the input was initialised, every copy of `output` is removed
    /// from its list, in order; otherwise nothing changes.
    method ClearConnection(output: SignalId, input: SignalId)
      requires Fits(input)
      modifies inputs
      ensures inputs[input.sourceId] == Disconnected(old(inputs[input.sourceId]), output, input.signalId)
      ensures forall i :: 0 <= i < inputs.Length && i != input.sourceId ==> inputs[i] == old(inputs[i])
    {
      if input.signalId in inputs[input.sourceId] {
        var m := inputs[input.sourceId];
        inputs[input.sourceId] := m[input.signalId := R.RemoveAll(m[input.signalId], output)];
      }
    }

    /// `send_message`: appended to the list of `id` only when that list already exists,
    /// so no id ever gains a list: the store's ids never change.
    method SendMessage(id: nat, message: Message<T>)
      modifies this
      ensures messages.Keys == old(messages).Keys
      ensures id in messages ==> messages == old(messages)[id := old(messages)[id] + [message]]
      ensures id !in messages ==> messages == old(messages)
      ensures idPosition == old(idPosition) && bufferSize == old(bufferSize)
    {
      if id in messages {
        messages := messages[id := messages[id] + [message]];
      }
    }

    /// `get_messages`: the messages sent to `id`, if it has a list.
    function GetMessages(id: nat): (r: Option<seq<Message<T>>>)
      reads this
      ensures r.Some? <==> id in messages
      ensures r.Some? ==> r.value == messages[id]
    {
      if id in messages then Some(messages[id]) else None
    }

    /// `clear_messages`: the store is emptied.
    method ClearMessages()
      modifies this
      ensures messages == map[] && GetMessages(0) == None
      ensures idPosition == old(idPosition) && bufferSize == old(bufferSize)
    {
      messages := map[];
    }
  }

  /// Since only `send_message` adds to the store and it never adds an id, a fresh tracker
  /// has no messages for any id, whatever is sent to it.
  method MessagesNeverArrive(id: nat, message: Message<int>) returns (got: Option<seq<Message<int>>>)
    ensures got == None
  {
    var tracker := new BasicTracker<int>(2, 128);
    tracker.SendMessage(id, message);
    got := tracker.GetMessages(id);
  }

  /// The documented use: two sources created on one tracker get different ids.
  method CreateTwoSources() returns (first: nat, second: nat)
    ensures first != second
  {
    var tracker := new BasicTracker<int>(2, 128);
    first := tracker.CreateSourceId();
    second := tracker.CreateSourceId();
  }

  /// Initialising, connecting twice and clearing one output: the input lists the outputs in
  /// connection order, and clearing drops exactly that output.
  method ConnectAndClear() returns (before: Option<seq<SignalId>>, after: Option<seq<SignalId>>)
    ensures before == Some([SignalId(0, "out"), SignalId(1, "out")])
    ensures after == Some([SignalId(1, "out")])
  {
    var tracker := new BasicTracker<int>(2, 128);
    var input := SignalId(1, "in");
    tracker.InitInput(input);
    assert tracker.inputs[1]["in"] == [];
    tracker.ConnectSignal(SignalId(0, "out"), input);
    assert tracker.inputs[1]["in"] == [SignalId(0, "out")];
    tracker.ConnectSignal(SignalId(1, "out"), input);
    assert tracker.inputs[1]["in"] == [SignalId(0, "out"), SignalId(1, "out")];
    before := tracker.GetInput(input);
    tracker.ClearConnection(SignalId(0, "out"), input);
    R.RemoveAllAppend([SignalId(0, "out")], [SignalId(1, "out")], SignalId(0, "out"));
    assert SignalId(1, "out") != SignalId(0, "out");
    after := tracker.GetInput(input);
  }
}
