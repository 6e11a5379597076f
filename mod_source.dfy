/// A modulation source: a signal owned outright, or the key of a signal found among the
/// keyed signals of the other sources.
module ModSource {
  import opened Wrappers
  import opened AudioSignal

  datatype ModSource = Owned(signal: Signal) | External(key: nat)

  /// The index of the first pair in `sources` whose key is `key`, if any.
  function FirstWithKey(sources: seq<(nat, Signal)>, key: nat): (r: Option<nat>)
    ensures r.Some? ==> r.value < |sources| && sources[r.value].0 == key
    ensures r.Some? ==> forall j :: 0 <= j < r.value ==> sources[j].0 != key
    ensures r.None? <==> forall j :: 0 <= j < |sources| ==> sources[j].0 != key
  {
    if sources == [] then None
    else if sources[0].0 == key then Some(0)
    else match FirstWithKey(sources[1..], key)
      case None => None
      case Some(i) => Some(i + 1)
  }

  /// `get`: the owned signal, or the signal of the first pair with the external key.
  function Get(ms: ModSource, sources: seq<(nat, Signal)>): (r: Option<Signal>)
    ensures ms.Owned? ==> r == Some(ms.signal)
    ensures ms.External? ==> (r.None? <==> forall j :: 0 <= j < |sources| ==> sources[j].0 != ms.key)
    ensures ms.External? && r.Some? ==>
      exists i :: 0 <= i < |sources| && sources[i].0 == ms.key && r.value == sources[i].1 &&
        forall j :: 0 <= j < i ==> sources[j].0 != ms.key
  {
    match ms
    case Owned(signal) => Some(signal)
    case External(key) =>
      match FirstWithKey(sources, key)
      case None => None
      case Some(i) => Some(sources[i].1)
  }

  /// An external source finds the signal of the first pair that carries its key.
  lemma ExternalFindsFirst(key: nat, sources: seq<(nat, Signal)>, i: nat)
    requires i < |sources| && sources[i].0 == key
    requires forall j :: 0 <= j < i ==> sources[j].0 != key
    ensures Get(External(key), sources) == Some(sources[i].1)
  {
  }

  /// Pairs after the first match do not matter: appending any pairs to a list in which the
  /// key is found leaves the result unchanged.
  lemma {:induction false} LaterPairsIgnored(key: nat, sources: seq<(nat, Signal)>, more: seq<(nat, Signal)>)
    requires Get(External(key), sources).Some?
    ensures Get(External(key), sources + more) == Get(External(key), sources)
  {
    var i := FirstWithKey(sources, key).value;
    assert (sources + more)[i] == sources[i];
    forall j | 0 <= j < i
      ensures (sources + more)[j].0 != key
    {
      assert (sources + more)[j] == sources[j];
    }
    ExternalFindsFirst(key, sources + more, i);
  }

  /// Two pairs with the same key: the earlier one wins.
  lemma DuplicateKeys(a: Signal, b: Signal)
    ensures Get(External(3), [(1, b), (3, a), (3, b)]) == Some(a)
    ensures Get(External(2), [(1, b), (3, a)]) == None
  {
    ExternalFindsFirst(3, [(1, b), (3, a), (3, b)], 1);
  }
}
