/// The records the older trackers route with: `SignalId` names one signal of one source
/// (an `Input` or an `Output`), `Message` carries data at a buffer position; and the
/// connection lists both trackers keep per input.
module Routing {
  import ST = Stream
  import R = Retain

  /// `SignalId`: a source id and the name of one of its signals.
  datatype SignalId = SignalId(sourceId: nat, signalId: string)

  /// `Message`: data tagged with the buffer position it happened at.
  datatype Message<T> = Message(position: nat, data: T)

  /// `keys` lists the keys of `m` once each, in the order iteration visits them (which the
  /// hash map leaves unspecified).
  ghost predicate IsKeyOrder<K(!new), V>(m: map<K, V>, keys: seq<K>) {
    && (forall i, j :: 0 <= i < j < |keys| ==> keys[i] != keys[j])
    && (forall k :: k in m <==> k in keys)
  }

  /// The source ids of a list of outputs, in order.
  function SourceIds(outputs: seq<SignalId>): (r: seq<nat>)
    ensures |r| == |outputs| && forall i :: 0 <= i < |outputs| ==> r[i] == outputs[i].sourceId
  {
    seq(|outputs|, i requires 0 <= i < |outputs| => outputs[i].sourceId)
  }

  /// The source ids of every output connected to the inputs `keys`, input by input.
  function SourcesOf(inputs: map<string, seq<SignalId>>, keys: seq<string>): (r: seq<nat>)
    requires forall i :: 0 <= i < |keys| ==> keys[i] in inputs
    ensures (forall i :: 0 <= i < |keys| ==> inputs[keys[i]] == []) ==> r == []
  {
    if keys == [] then []
    else SourcesOf(inputs, keys[..|keys| - 1]) + SourceIds(inputs[keys[|keys| - 1]])
  }

  /// A source id is listed exactly when some output of one of the inputs `keys` belongs to it.
  lemma {:induction false} SourcesOfListed(inputs: map<string, seq<SignalId>>, keys: seq<string>, x: nat)
    requires forall i :: 0 <= i < |keys| ==> keys[i] in inputs
    ensures x in SourcesOf(inputs, keys) <==>
      exists i, o :: 0 <= i < |keys| && o in inputs[keys[i]] && o.sourceId == x
  {
    if keys != [] {
      var front, last := keys[..|keys| - 1], keys[|keys| - 1];
      SourcesOfListed(inputs, front, x);
      if x in SourceIds(inputs[last]) {
        var j :| 0 <= j < |inputs[last]| && SourceIds(inputs[last])[j] == x;
        assert inputs[last][j] in inputs[keys[|keys| - 1]];
      }
      if exists i, o :: 0 <= i < |keys| && o in inputs[keys[i]] && o.sourceId == x {
        var i, o :| 0 <= i < |keys| && o in inputs[keys[i]] && o.sourceId == x;
        if i < |front| {
          assert front[i] == keys[i];
        } else {
          var j :| 0 <= j < |inputs[last]| && inputs[last][j] == o;
          assert SourceIds(inputs[last])[j] == x;
        }
      }
    }
  }

  /// Over a full key order, the listed ids are those of the outputs connected to any input.
  lemma SourcesOfMeaning(inputs: map<string, seq<SignalId>>, keys: seq<string>, x: nat)
    requires IsKeyOrder(inputs, keys)
    ensures x in SourcesOf(inputs, keys) <==>
      exists name, o :: name in inputs && o in inputs[name] && o.sourceId == x
  {
    SourcesOfListed(inputs, keys, x);
    if exists name, o :: name in inputs && o in inputs[name] && o.sourceId == x {
      var name, o :| name in inputs && o in inputs[name] && o.sourceId == x;
      var i :| 0 <= i < |keys| && keys[i] == name;
    }
  }

  /// The two nested loops of `get_sources`: every input's outputs, pushed one at a time.
  method CollectSources(inputs: map<string, seq<SignalId>>, keys: seq<string>) returns (sources: seq<nat>)
    requires IsKeyOrder(inputs, keys)
    ensures sources == SourcesOf(inputs, keys)
  {
    sources := [];
    var i := 0;
    while i < |keys|
      invariant 0 <= i <= |keys| && sources == SourcesOf(inputs, keys[..i])
    {
      var outputs := inputs[keys[i]];
      var j := 0;
      while j < |outputs|
        invariant 0 <= j <= |outputs|
        invariant sources == SourcesOf(inputs, keys[..i]) + SourceIds(outputs[..j])
      {
        assert SourceIds(outputs[..j + 1]) == SourceIds(outputs[..j]) + [outputs[j].sourceId];
        sources := sources + [outputs[j].sourceId];
        j := j + 1;
      }
      assert outputs[..j] == outputs;
      assert keys[..i + 1][..i] == keys[..i];
      i := i + 1;
    }
    assert keys[..i] == keys;
  }

  /// Every signal of a source's map cut or padded with 0.0 to `size` points.
  function ResizedAll(m: map<string, seq<real>>, size: nat): (r: map<string, seq<real>>)
    ensures r.Keys == m.Keys
    ensures forall k :: k in m ==> r[k] == ST.Resized(m[k], size) && |r[k]| == size
  {
    map k | k in m :: ST.Resized(m[k], size)
  }

  /// The inner loop of `resize_buffers` over one source's signals, visited in the map's own
  /// (unspecified) order: every signal cut or padded to `size` points.
  method ResizeSource(m: map<string, seq<real>>, size: nat) returns (r: map<string, seq<real>>)
    ensures r == ResizedAll(m, size)
  {
    r := m;
    var remaining := m.Keys;
    while remaining != {}
      invariant remaining <= m.Keys && r.Keys == m.Keys
      invariant forall k :: k in m ==> r[k] == if k in remaining then m[k] else ST.Resized(m[k], size)
      decreases |remaining|
    {
      var k :| k in remaining;
      r := r[k := ST.Resized(m[k], size)];
      remaining := remaining - {k};
    }
    assert r == ResizedAll(m, size);
  }

  /// An input's list after `connect_signal`: `output` pushed on the end when the input was
  /// initialised, the inputs unchanged otherwise.
  function Connected(inputs: map<string, seq<SignalId>>, output: SignalId, name: string): (r: map<string, seq<SignalId>>)
    ensures r.Keys == inputs.Keys
    ensures name in inputs ==> r == inputs[name := inputs[name] + [output]]
    ensures name !in inputs ==> r == inputs
  {
    if name in inputs then inputs[name := inputs[name] + [output]] else inputs
  }

  /// An input's list after `clear_connection`: every copy of `output` dropped when the input
  /// was initialised, the inputs unchanged otherwise.
  function Disconnected(inputs: map<string, seq<SignalId>>, output: SignalId, name: string): (r: map<string, seq<SignalId>>)
    ensures r.Keys == inputs.Keys
    ensures name in inputs ==> r == inputs[name := R.RemoveAll(inputs[name], output)]
    ensures name !in inputs ==> r == inputs
  {
    if name in inputs then inputs[name := R.RemoveAll(inputs[name], output)] else inputs
  }

  /// Connecting and then clearing the same pair leaves the input as it was whenever the
  /// output was not connected to it before.
  lemma ConnectThenClear(inputs: map<string, seq<SignalId>>, output: SignalId, name: string)
    requires name in inputs ==> output !in inputs[name]
    ensures Disconnected(Connected(inputs, output, name), output, name) == inputs
  {
    if name in inputs {
      R.RemoveAllAppend(inputs[name], [output], output);
      assert R.RemoveAll([output], output) == [];
    }
  }
}
