/// `Primary` of the core engine: takes the sources to render, orders them by their
/// dependencies with the core topological sort, samples every source once per frame in that
/// order through its tracker, mixes the monitored sources into one signal per frame and
/// writes the frames out as mono points or interleaved stereo pairs.
module Primary {
  import opened Wrappers
  import S = AudioSignal
  import CS = CoreStream
  import G = CoreGraph
  import T = CoreTracker
  import C = Clip
  import K = Track
  import R = Retain

  /// `Error`.
  datatype Error = CyclicDependencies | MissingMonitor | MissingDependency

  /// `OutputMode`.
  datatype OutputMode = Mono | Stereo

  /// A source handed to `sample`: one of the `basic` sources whose `Source` implementation
  /// is part of this model, with its fields.
  datatype Source = ClipSource(clip: C.ClipState) | TrackSource(track: K.TrackState)

  /// `get_id`.
  function Id(src: Source): (id: nat)
    ensures src.ClipSource? ==> id == src.clip.id
    ensures src.TrackSource? ==> id == src.track.id
  {
    match src
    case ClipSource(c) => c.id
    case TrackSource(t) => t.id
  }

  /// `get_sources`: a clip reads nothing, a track its inputs and cvs.
  function Deps(src: Source): (deps: seq<nat>)
    ensures src.ClipSource? ==> deps == []
    ensures src.TrackSource? ==> forall x :: x in deps <==>
      x in src.track.inputs || src.track.gainCv == Some(x) || src.track.panningCv == Some(x)
  {
    match src
    case ClipSource(_) => []
    case TrackSource(t) => K.Sources(t)
  }

  /// What sampling the source demands of a tracker with `size` slots: a clip needs a
  /// non-empty stream and a slot, a track slots for its id, inputs and cvs.
  predicate Playable(src: Source, size: nat) {
    match src
    case ClipSource(c) => CS.Len(c.audio) > 0 && c.id < size
    case TrackSource(t) => K.FitsIn(t, size)
  }

  predicate AllPlayable(srcs: seq<Source>, size: nat) {
    forall k :: 0 <= k < |srcs| ==> Playable(srcs[k], size)
  }

  /// Every monitored id has a slot.
  predicate MonitorsFit(monitored: seq<nat>, size: nat) {
    forall i :: 0 <= i < |monitored| ==> monitored[i] < size
  }

  /// `Source::sample` on the tracker's slots: the source's new fields and the new slots. Only
  /// the source's own slot changes, and it now holds a signal.
  function SampleSource(src: Source, slots: seq<Option<S.Signal>>, ratio: real -> real): (r: (Source, seq<Option<S.Signal>>))
    requires Playable(src, |slots|)
    ensures Id(r.0) == Id(src) && Deps(r.0) == Deps(src) && Playable(r.0, |slots|)
    ensures |r.1| == |slots| && r.1[Id(src)].Some?
    ensures forall k :: 0 <= k < |slots| && k != Id(src) ==> r.1[k] == slots[k]
    ensures src.ClipSource? ==>
      r.0 == ClipSource(C.ClipStep(src.clip).0) && r.1[Id(src)] == Some(C.ClipStep(src.clip).1)
    ensures src.TrackSource? ==> r.0 == src && r.1 == K.TrackSample(src.track, slots, ratio)
  {
    match src
    case ClipSource(c) =>
      var (next, signal) := C.ClipStep(c);
      (ClipSource(next), slots[c.id := Some(signal)])
    case TrackSource(t) => (src, K.TrackSample(t, slots, ratio))
  }

  /// One frame's pass of `sample`: every source sampled once, in order.
  function Tick(srcs: seq<Source>, slots: seq<Option<S.Signal>>, ratio: real -> real): (r: (seq<Source>, seq<Option<S.Signal>>))
    requires AllPlayable(srcs, |slots|)
    ensures |r.0| == |srcs| && |r.1| == |slots| && AllPlayable(r.0, |slots|)
    decreases |srcs|
  {
    if srcs == [] then ([], slots)
    else
      var (first, next) := SampleSource(srcs[0], slots, ratio);
      var (rest, last) := Tick(srcs[1..], next, ratio);
      assert forall k :: 1 <= k < |srcs| ==> srcs[k] == srcs[1..][k - 1];
      ([first] + rest, last)
  }

  /// After a pass the sources keep their ids and dependencies, the slot of every source holds
  /// a signal, and the slots of ids that are not sources are left as they were.
  lemma TickMeaning(srcs: seq<Source>, slots: seq<Option<S.Signal>>, ratio: real -> real)
    requires AllPlayable(srcs, |slots|)
    ensures forall k :: 0 <= k < |srcs| ==>
      Id(Tick(srcs, slots, ratio).0[k]) == Id(srcs[k]) && Deps(Tick(srcs, slots, ratio).0[k]) == Deps(srcs[k])
    ensures forall k :: 0 <= k < |srcs| ==> Tick(srcs, slots, ratio).1[Id(srcs[k])].Some?
    ensures forall id :: 0 <= id < |slots| && id !in Ids(srcs) ==> Tick(srcs, slots, ratio).1[id] == slots[id]
  {
    forall k | 0 <= k < |srcs|
      ensures Id(Tick(srcs, slots, ratio).0[k]) == Id(srcs[k]) && Deps(Tick(srcs, slots, ratio).0[k]) == Deps(srcs[k])
      ensures Tick(srcs, slots, ratio).1[Id(srcs[k])].Some?
    {
      TickKeepsSource(srcs, slots, ratio, k);
      TickFillsSlot(srcs, slots, ratio, k);
    }
    forall id | 0 <= id < |slots| && id !in Ids(srcs)
      ensures Tick(srcs, slots, ratio).1[id] == slots[id]
    {
      TickLeavesSlot(srcs, slots, ratio, id);
    }
  }

  /// The first step of a pass: the first source sampled, then the rest from the slots it
  /// leaves.
  lemma TickFirst(srcs: seq<Source>, slots: seq<Option<S.Signal>>, ratio: real -> real)
    requires AllPlayable(srcs, |slots|) && srcs != []
    ensures AllPlayable(srcs[1..], |slots|)
    ensures Tick(srcs, slots, ratio).0
      == [SampleSource(srcs[0], slots, ratio).0] + Tick(srcs[1..], SampleSource(srcs[0], slots, ratio).1, ratio).0
    ensures Tick(srcs, slots, ratio).1 == Tick(srcs[1..], SampleSource(srcs[0], slots, ratio).1, ratio).1
  {
    assert AllPlayable(srcs[1..], |slots|) by {
      forall k | 0 <= k < |srcs[1..]|
        ensures Playable(srcs[1..][k], |slots|)
      {
        assert srcs[1..][k] == srcs[k + 1];
      }
    }
  }

  /// A pass keeps the id and dependencies of source `k`.
  lemma {:induction false} TickKeepsSource(srcs: seq<Source>, slots: seq<Option<S.Signal>>, ratio: real -> real, k: nat)
    requires AllPlayable(srcs, |slots|) && k < |srcs|
    ensures Id(Tick(srcs, slots, ratio).0[k]) == Id(srcs[k]) && Deps(Tick(srcs, slots, ratio).0[k]) == Deps(srcs[k])
    decreases k
  {
    TickFirst(srcs, slots, ratio);
    if k > 0 {
      var next := SampleSource(srcs[0], slots, ratio).1;
      TickKeepsSource(srcs[1..], next, ratio, k - 1);
      assert srcs[1..][k - 1] == srcs[k];
    }
  }

  /// A pass leaves the slot of an id that is not a source as it was.
  lemma {:induction false} TickLeavesSlot(srcs: seq<Source>, slots: seq<Option<S.Signal>>, ratio: real -> real, id: nat)
    requires AllPlayable(srcs, |slots|) && id < |slots| && id !in Ids(srcs)
    ensures Tick(srcs, slots, ratio).1[id] == slots[id]
    decreases |srcs|
  {
    if srcs != [] {
      TickFirst(srcs, slots, ratio);
      var next := SampleSource(srcs[0], slots, ratio).1;
      assert id != Id(srcs[0]);
      forall j | 0 <= j < |srcs[1..]|
        ensures Id(srcs[1..][j]) != id
      {
        assert srcs[1..][j] == srcs[j + 1];
      }
      TickLeavesSlot(srcs[1..], next, ratio, id);
    }
  }

  /// The slots a prefix of the pass leaves: the first source sampled, then the rest of the
  /// prefix from the slots it leaves.
  lemma PrefixFirst(srcs: seq<Source>, slots: seq<Option<S.Signal>>, ratio: real -> real, k: nat)
    requires AllPlayable(srcs, |slots|) && 0 < k <= |srcs|
    ensures AllPlayable(srcs[..k], |slots|) && AllPlayable(srcs[1..][..k - 1], |slots|)
    ensures Tick(srcs[..k], slots, ratio).1
      == Tick(srcs[1..][..k - 1], SampleSource(srcs[0], slots, ratio).1, ratio).1
  {
    var pre := srcs[..k];
    assert AllPlayable(pre, |slots|) by {
      forall i | 0 <= i < |pre| ensures Playable(pre[i], |slots|) {
        assert pre[i] == srcs[i];
      }
    }
    TickFirst(pre, slots, ratio);
    assert pre[0] == srcs[0] && pre[1..] == srcs[1..][..k - 1];
  }

  /// Source `k` leaves a pass as sampling it leaves it, from the slots the sources before
  /// it leave.
  lemma {:induction false} TickSourceAt(srcs: seq<Source>, slots: seq<Option<S.Signal>>, ratio: real -> real, k: nat)
    requires AllPlayable(srcs, |slots|) && k < |srcs|
    ensures AllPlayable(srcs[..k], |slots|)
    ensures Tick(srcs, slots, ratio).0[k] == SampleSource(srcs[k], Tick(srcs[..k], slots, ratio).1, ratio).0
    decreases k
  {
    TickFirst(srcs, slots, ratio);
    if k == 0 {
      assert srcs[..0] == [];
    } else {
      var next := SampleSource(srcs[0], slots, ratio).1;
      TickSourceAt(srcs[1..], next, ratio, k - 1);
      PrefixFirst(srcs, slots, ratio, k);
      assert srcs[1..][k - 1] == srcs[k];
    }
  }

  /// When no later source shares its id, the slot of source `k` holds after the pass the
  /// signal that sampling source `k` stored: a clip's next point, or the track's step over
  /// the slots the sources before it leave.
  lemma {:induction false} TickStoresLast(srcs: seq<Source>, slots: seq<Option<S.Signal>>, ratio: real -> real, k: nat)
    requires AllPlayable(srcs, |slots|) && k < |srcs|
    requires forall j :: k < j < |srcs| ==> Id(srcs[j]) != Id(srcs[k])
    ensures AllPlayable(srcs[..k], |slots|)
    ensures Tick(srcs, slots, ratio).1[Id(srcs[k])]
      == SampleSource(srcs[k], Tick(srcs[..k], slots, ratio).1, ratio).1[Id(srcs[k])]
    ensures srcs[k].ClipSource? ==>
      Tick(srcs, slots, ratio).1[Id(srcs[k])] == Some(C.ClipStep(srcs[k].clip).1)
    ensures srcs[k].TrackSource? ==>
      Tick(srcs, slots, ratio).1[Id(srcs[k])]
        == K.TrackSample(srcs[k].track, Tick(srcs[..k], slots, ratio).1, ratio)[Id(srcs[k])]
    decreases k
  {
    TickFirst(srcs, slots, ratio);
    var next := SampleSource(srcs[0], slots, ratio).1;
    if k == 0 {
      assert srcs[..0] == [];
      var rest := srcs[1..];
      forall j | 0 <= j < |rest|
        ensures Id(rest[j]) != Id(srcs[0])
      {
        assert rest[j] == srcs[1 + j];
      }
      TickLeavesSlot(rest, next, ratio, Id(srcs[0]));
    } else {
      var rest := srcs[1..];
      forall j | k - 1 < j < |rest|
        ensures Id(rest[j]) != Id(rest[k - 1])
      {
        assert rest[j] == srcs[1 + j];
      }
      TickStoresLast(rest, next, ratio, k - 1);
      PrefixFirst(srcs, slots, ratio, k);
      assert rest[k - 1] == srcs[k];
    }
  }

  /// The last index from `k` to `hi` whose source has the id `id`.
  function LastWith(srcs: seq<Source>, id: nat, k: nat, hi: nat): (j: nat)
    requires k <= hi < |srcs| && Id(srcs[k]) == id
    ensures k <= j <= hi && Id(srcs[j]) == id
    ensures forall i :: j < i <= hi ==> Id(srcs[i]) != id
    decreases hi
  {
    if Id(srcs[hi]) == id then hi else LastWith(srcs, id, k, hi - 1)
  }

  /// After a pass the slot of source `k` holds the signal stored by the last source of the
  /// pass with the same id (`k` itself when no later source shares it).
  lemma TickFillsSlot(srcs: seq<Source>, slots: seq<Option<S.Signal>>, ratio: real -> real, k: nat)
    requires AllPlayable(srcs, |slots|) && k < |srcs|
    ensures Tick(srcs, slots, ratio).1[Id(srcs[k])].Some?
    ensures exists j ::
      && k <= j < |srcs| && Id(srcs[j]) == Id(srcs[k]) && AllPlayable(srcs[..j], |slots|)
      && Tick(srcs, slots, ratio).1[Id(srcs[k])]
        == SampleSource(srcs[j], Tick(srcs[..j], slots, ratio).1, ratio).1[Id(srcs[k])]
  {
    var j := LastWith(srcs, Id(srcs[k]), k, |srcs| - 1);
    TickStoresLast(srcs, slots, ratio, j);
  }

  /// The ids of a list of sources.
  function Ids(srcs: seq<Source>): (r: set<nat>)
    ensures forall id :: id in r <==> exists k :: 0 <= k < |srcs| && Id(srcs[k]) == id
  {
    set k | 0 <= k < |srcs| :: Id(srcs[k])
  }

  /// `n` passes of `Tick`, one after the other.
  function Ticks(srcs: seq<Source>, slots: seq<Option<S.Signal>>, n: nat, ratio: real -> real): (r: (seq<Source>, seq<Option<S.Signal>>))
    requires AllPlayable(srcs, |slots|)
    ensures |r.1| == |slots| && AllPlayable(r.0, |slots|)
    decreases n
  {
    if n == 0 then (srcs, slots)
    else
      var (played, next) := Tick(srcs, slots, ratio);
      Ticks(played, next, n - 1, ratio)
  }

  /// The buffer loop of `sample`: `n` frames, each a pass over the sources followed by the
  /// mix of the signals the monitored ids hold (monitors without a signal are skipped).
  /// Returns the sources' and slots' final state and the frames.
  function Frames(srcs: seq<Source>, slots: seq<Option<S.Signal>>, n: nat, monitored: seq<nat>, ratio: real -> real)
    : (r: (seq<Source>, seq<Option<S.Signal>>, seq<S.Signal>))
    requires AllPlayable(srcs, |slots|) && MonitorsFit(monitored, |slots|)
    ensures |r.2| == n && |r.1| == |slots| && AllPlayable(r.0, |slots|)
    decreases n
  {
    if n == 0 then (srcs, slots, [])
    else
      var (played, next) := Tick(srcs, slots, ratio);
      var frame := S.Mixed(T.Present(monitored, next));
      var (last, final, rest) := Frames(played, next, n - 1, monitored, ratio);
      (last, final, [frame] + rest)
  }

  /// Frame `k` mixes what the monitored ids hold after `k + 1` passes, and the buffer leaves
  /// the sources and slots as `n` passes do.
  lemma {:induction false} FramesAreTicks(srcs: seq<Source>, slots: seq<Option<S.Signal>>, n: nat, monitored: seq<nat>, ratio: real -> real)
    requires AllPlayable(srcs, |slots|) && MonitorsFit(monitored, |slots|)
    ensures Frames(srcs, slots, n, monitored, ratio).0 == Ticks(srcs, slots, n, ratio).0
    ensures Frames(srcs, slots, n, monitored, ratio).1 == Ticks(srcs, slots, n, ratio).1
    ensures forall k :: 0 <= k < n ==>
      Frames(srcs, slots, n, monitored, ratio).2[k] == S.Mixed(T.Present(monitored, Ticks(srcs, slots, k + 1, ratio).1))
    decreases n
  {
    if n > 0 {
      var t := Tick(srcs, slots, ratio);
      FramesAreTicks(t.0, t.1, n - 1, monitored, ratio);
      FramesUnfold(srcs, slots, n, monitored, ratio);
      var rest := Frames(t.0, t.1, n - 1, monitored, ratio);
      assert Frames(srcs, slots, n, monitored, ratio) == Extended([S.Mixed(T.Present(monitored, t.1))], rest);
      TicksUnfold(srcs, slots, n, ratio);
      forall k | 0 <= k < n
        ensures Frames(srcs, slots, n, monitored, ratio).2[k]
          == S.Mixed(T.Present(monitored, Ticks(srcs, slots, k + 1, ratio).1))
      {
        TicksUnfold(srcs, slots, k + 1, ratio);
        if k > 0 {
          assert Frames(srcs, slots, n, monitored, ratio).2[k] == rest.2[k - 1];
        }
      }
    }
  }

  /// `m > 0` passes are one pass and then the other `m - 1`.
  lemma TicksUnfold(srcs: seq<Source>, slots: seq<Option<S.Signal>>, m: nat, ratio: real -> real)
    requires m > 0 && AllPlayable(srcs, |slots|)
    ensures Ticks(srcs, slots, m, ratio) == Ticks(Tick(srcs, slots, ratio).0, Tick(srcs, slots, ratio).1, m - 1, ratio)
  {
  }

  /// With nothing monitored every frame is mono silence.
  lemma NothingMonitoredIsSilent(srcs: seq<Source>, slots: seq<Option<S.Signal>>, n: nat, ratio: real -> real)
    requires AllPlayable(srcs, |slots|)
    ensures forall k :: 0 <= k < n ==> Frames(srcs, slots, n, [], ratio).2[k] == S.Mono(0.0)
  {
    FramesAreTicks(srcs, slots, n, [], ratio);
    forall k | 0 <= k < n
      ensures Frames(srcs, slots, n, [], ratio).2[k] == S.Mono(0.0)
    {
      SilentMix(Ticks(srcs, slots, k + 1, ratio).1);
    }
  }

  /// Mixing what no monitor presents gives mono silence.
  lemma SilentMix(slots: seq<Option<S.Signal>>)
    ensures S.Mixed(T.Present([], slots)) == S.Mono(0.0)
  {
    assert T.Present([], slots) == [];
  }

  /// The output loop of `sample`: mono writes the summed points of every frame; stereo writes
  /// each frame's left point and then its right point (the left one again for a mono frame).
  function Render(mode: OutputMode, frames: seq<S.Signal>): (r: seq<real>)
    ensures mode.Mono? ==> |r| == |frames|
    ensures mode.Mono? ==> forall k :: 0 <= k < |frames| ==> r[k] == S.SumPoints(frames[k])
    ensures mode.Stereo? ==> |r| == 2 * |frames|
    ensures mode.Stereo? ==> forall k :: 0 <= k < |frames| ==>
      r[2 * k] == S.GetPoint(frames[k]) && r[2 * k + 1] == S.RightOrPoint(frames[k])
  {
    if frames == [] then []
    else
      var last := frames[|frames| - 1];
      Render(mode, frames[..|frames| - 1])
        + match mode
          case Mono => [S.SumPoints(last)]
          case Stereo => [S.GetPoint(last), S.RightOrPoint(last)]
  }

  /// Stereo output of a mono frame repeats its point, which is also the mono output.
  lemma StereoRepeatsMono(frames: seq<S.Signal>, k: nat)
    requires k < |frames| && S.IsMono(frames[k])
    ensures Render(Stereo, frames)[2 * k] == Render(Stereo, frames)[2 * k + 1] == Render(Mono, frames)[k]
  {
  }

  // ---------------------------------------------------------------------------------------
  // Ordering the sources.

  /// The dependency graph `sample` builds: the id of every source mapped to its
  /// dependencies, a later source with the same id replacing an earlier one.
  function GraphOf(srcs: seq<Source>): (g: G.Graph)
    ensures g.Keys == ById(srcs).Keys
    ensures forall id :: id in g ==> g[id] == Deps(ById(srcs)[id])
  {
    if srcs == [] then map[]
    else
      var last := srcs[|srcs| - 1];
      GraphOf(srcs[..|srcs| - 1])[Id(last) := Deps(last)]
  }

  /// The map of sources by id `sample` builds alongside the graph.
  function ById(srcs: seq<Source>): (m: map<nat, Source>)
    ensures forall id :: id in m ==> Id(m[id]) == id && m[id] in srcs
    ensures forall k :: 0 <= k < |srcs| ==> Id(srcs[k]) in m
  {
    if srcs == [] then map[]
    else
      var last := srcs[|srcs| - 1];
      ById(srcs[..|srcs| - 1])[Id(last) := last]
  }

  /// The graph has one key per source id, listing the dependencies of the source kept for it.
  lemma {:induction false} GraphMatchesSources(srcs: seq<Source>)
    ensures GraphOf(srcs).Keys == ById(srcs).Keys
    ensures forall id :: id in GraphOf(srcs) ==> GraphOf(srcs)[id] == Deps(ById(srcs)[id])
  {
    if srcs != [] {
      GraphMatchesSources(srcs[..|srcs| - 1]);
    }
  }

  /// The loop that takes the sorted keys' sources out of the map: a key whose source is not
  /// (or no longer) there is a missing dependency.
  function Pick(sorted: seq<nat>, remaining: map<nat, Source>): (r: Result<seq<Source>, Error>)
    ensures r.Err? ==> r.error == MissingDependency
    ensures r.Ok? ==> |r.value| == |sorted| && forall k :: 0 <= k < |sorted| ==> r.value[k] in remaining.Values
    decreases |sorted|
  {
    if sorted == [] then Ok([])
    else if sorted[0] !in remaining then Err(MissingDependency)
    else
      match Pick(sorted[1..], remaining - {sorted[0]})
      case Err(e) => Err(e)
      case Ok(rest) => Ok([remaining[sorted[0]]] + rest)
  }

  /// A key with no source makes the picking fail.
  lemma {:induction false} PickMissing(sorted: seq<nat>, remaining: map<nat, Source>, x: nat)
    requires x in sorted && x !in remaining
    ensures Pick(sorted, remaining).Err?
    decreases |sorted|
  {
    if sorted[0] in remaining {
      assert x in sorted[1..];
      PickMissing(sorted[1..], remaining - {sorted[0]}, x);
    }
  }

  /// Distinct keys that all have a source are picked in order, each to its own source.
  lemma {:induction false} PickAll(sorted: seq<nat>, remaining: map<nat, Source>)
    requires G.Distinct(sorted) && forall k :: 0 <= k < |sorted| ==> sorted[k] in remaining
    ensures Pick(sorted, remaining).Ok?
    ensures forall k :: 0 <= k < |sorted| ==> Pick(sorted, remaining).value[k] == remaining[sorted[k]]
    decreases |sorted|
  {
    if sorted != [] {
      var rest := sorted[1..];
      var left := remaining - {sorted[0]};
      forall k | 0 <= k < |rest|
        ensures rest[k] in left
      {
        assert rest[k] == sorted[k + 1];
      }
      PickAll(rest, left);
    }
  }

  /// What `sample` does before its buffer loop: the sort's failure becomes
  /// `CyclicDependencies`, and on success the sources are taken out in sorted order.
  function Ordered(srcs: seq<Source>, keys: seq<nat>): (r: Result<seq<Source>, Error>)
    requires G.IsKeyOrder(GraphOf(srcs), keys)
    ensures r != Err(MissingMonitor)
    ensures r.Ok? ==> forall k :: 0 <= k < |r.value| ==> r.value[k] in srcs
  {
    match G.Sort(GraphOf(srcs), keys)
    case Err(_) => Err(CyclicDependencies)
    case Ok(sorted) => Pick(sorted, ById(srcs))
  }

  /// Some source depends on an id no source has.
  predicate Missing(srcs: seq<Source>) {
    exists k, d :: 0 <= k < |srcs| && d in Deps(ById(srcs)[Id(srcs[k])]) && d !in ById(srcs)
  }

  /// On a successful sort, a missing dependency shows up among the sorted keys.
  lemma MissingIsSorted(srcs: seq<Source>, keys: seq<nat>)
    requires G.IsKeyOrder(GraphOf(srcs), keys) && G.Sort(GraphOf(srcs), keys).Ok? && Missing(srcs)
    ensures exists d :: d in G.Sort(GraphOf(srcs), keys).value && d !in ById(srcs)
  {
    var g := GraphOf(srcs);
    var m := ById(srcs);
    GraphMatchesSources(srcs);
    G.SortOk(g, keys);
    var k, d :| 0 <= k < |srcs| && d in Deps(m[Id(srcs[k])]) && d !in m;
    assert d in G.Sources(g, Id(srcs[k]));
    G.SourcesAreNodes(g, Id(srcs[k]));
  }

  /// On a successful sort with no missing dependency, every sorted key has a source.
  lemma SortedHaveSources(srcs: seq<Source>, keys: seq<nat>)
    requires G.IsKeyOrder(GraphOf(srcs), keys) && G.Sort(GraphOf(srcs), keys).Ok? && !Missing(srcs)
    ensures var sorted := G.Sort(GraphOf(srcs), keys).value;
      forall k :: 0 <= k < |sorted| ==> sorted[k] in ById(srcs)
  {
    var g := GraphOf(srcs);
    var m := ById(srcs);
    GraphMatchesSources(srcs);
    G.SortOk(g, keys);
    var sorted := G.Sort(g, keys).value;
    forall k | 0 <= k < |sorted|
      ensures sorted[k] in m
    {
      assert sorted[k] in G.Nodes(g);
    }
  }

  /// On success the ordered sources are the sources kept by id, each once, each after the
  /// sources it depends on.
  lemma OrderedOk(srcs: seq<Source>, keys: seq<nat>)
    requires G.IsKeyOrder(GraphOf(srcs), keys) && G.Sort(GraphOf(srcs), keys).Ok? && !Missing(srcs)
    ensures Ordered(srcs, keys).Ok?
    ensures var o := Ordered(srcs, keys).value;
      && (forall a, b :: 0 <= a < b < |o| ==> Id(o[a]) != Id(o[b]))
      && (forall k :: 0 <= k < |srcs| ==> exists j :: 0 <= j < |o| && o[j] == ById(srcs)[Id(srcs[k])])
      && (forall k, d :: 0 <= k < |o| && d in Deps(o[k]) ==> exists j :: 0 <= j < k && Id(o[j]) == d)
  {
    var sorted, o := PickedFacts(srcs, keys);
    PickedDistinct(sorted, o);
    PickedCovers(srcs, sorted, o);
    PickedOrdered(GraphOf(srcs), sorted, o);
  }

  /// What a successful sort and pick give: the sources kept for the sorted ids, in order.
  lemma PickedFacts(srcs: seq<Source>, keys: seq<nat>) returns (sorted: seq<nat>, o: seq<Source>)
    requires G.IsKeyOrder(GraphOf(srcs), keys) && G.Sort(GraphOf(srcs), keys).Ok? && !Missing(srcs)
    ensures G.Sort(GraphOf(srcs), keys) == Ok(sorted) && Ordered(srcs, keys) == Ok(o)
    ensures G.Distinct(sorted) && G.PostOrder(GraphOf(srcs), sorted) && |o| == |sorted|
    ensures forall n :: n in ById(srcs) ==> n in sorted
    ensures forall k :: 0 <= k < |o| ==> sorted[k] in ById(srcs) && o[k] == ById(srcs)[sorted[k]]
    ensures forall k :: 0 <= k < |o| ==> Id(o[k]) == sorted[k] && Deps(o[k]) == G.Sources(GraphOf(srcs), sorted[k])
  {
    var g := GraphOf(srcs);
    var m := ById(srcs);
    GraphMatchesSources(srcs);
    G.SortOk(g, keys);
    sorted := G.Sort(g, keys).value;
    SortedHaveSources(srcs, keys);
    PickAll(sorted, m);
    o := Pick(sorted, m).value;
    forall k | 0 <= k < |o|
      ensures Id(o[k]) == sorted[k] && Deps(o[k]) == G.Sources(g, sorted[k])
    {
      assert o[k] == m[sorted[k]];
    }
  }

  /// Sources picked for distinct ids have distinct ids.
  lemma PickedDistinct(sorted: seq<nat>, o: seq<Source>)
    requires G.Distinct(sorted) && |o| == |sorted|
    requires forall k :: 0 <= k < |o| ==> Id(o[k]) == sorted[k]
    ensures forall a, b :: 0 <= a < b < |o| ==> Id(o[a]) != Id(o[b])
  {
    forall a, b | 0 <= a < b < |o|
      ensures Id(o[a]) != Id(o[b])
    {
      assert sorted[a] != sorted[b];
    }
  }

  /// When every source id is sorted, every source's kept source is picked.
  lemma PickedCovers(srcs: seq<Source>, sorted: seq<nat>, o: seq<Source>)
    requires |o| == |sorted|
    requires forall k :: 0 <= k < |o| ==> sorted[k] in ById(srcs) && o[k] == ById(srcs)[sorted[k]]
    requires forall n :: n in ById(srcs) ==> n in sorted
    ensures forall k :: 0 <= k < |srcs| ==> exists j :: 0 <= j < |o| && o[j] == ById(srcs)[Id(srcs[k])]
  {
    forall k | 0 <= k < |srcs|
      ensures exists j :: 0 <= j < |o| && o[j] == ById(srcs)[Id(srcs[k])]
    {
      var j :| 0 <= j < |sorted| && sorted[j] == Id(srcs[k]);
      assert o[j] == ById(srcs)[Id(srcs[k])];
    }
  }

  /// Sources picked in post-order come after the sources they depend on.
  lemma PickedOrdered(g: G.Graph, sorted: seq<nat>, o: seq<Source>)
    requires G.PostOrder(g, sorted) && |o| == |sorted|
    requires forall k :: 0 <= k < |o| ==> Id(o[k]) == sorted[k] && Deps(o[k]) == G.Sources(g, sorted[k])
    ensures forall k, d :: 0 <= k < |o| && d in Deps(o[k]) ==> exists j :: 0 <= j < k && Id(o[j]) == d
  {
    forall k, d | 0 <= k < |o| && d in Deps(o[k])
      ensures exists j :: 0 <= j < k && Id(o[j]) == d
    {
      assert d in sorted[..k];
      var j :| 0 <= j < k && sorted[..k][j] == d;
      assert Id(o[j]) == d;
    }
  }

  /// `sample` fails with `CyclicDependencies` exactly when a cycle is reachable, and with
  /// `MissingDependency` exactly when there is none but some source depends on an id that no
  /// source has. On success every source id is taken once, and every source comes after the
  /// sources it depends on.
  lemma OrderedMeaning(srcs: seq<Source>, keys: seq<nat>)
    requires G.IsKeyOrder(GraphOf(srcs), keys)
    ensures Ordered(srcs, keys) == Err(CyclicDependencies) <==> exists p :: G.ReachableCycle(GraphOf(srcs), p)
    ensures Ordered(srcs, keys) == Err(MissingDependency)
      <==> (forall p :: !G.ReachableCycle(GraphOf(srcs), p)) && Missing(srcs)
    ensures Ordered(srcs, keys).Ok? ==>
      var o := Ordered(srcs, keys).value;
      && (forall a, b :: 0 <= a < b < |o| ==> Id(o[a]) != Id(o[b]))
      && (forall k :: 0 <= k < |srcs| ==> exists j :: 0 <= j < |o| && o[j] == ById(srcs)[Id(srcs[k])])
      && (forall k, d :: 0 <= k < |o| && d in Deps(o[k]) ==> exists j :: 0 <= j < k && Id(o[j]) == d)
  {
    G.ErrorIffCycle(GraphOf(srcs), keys);
    if G.Sort(GraphOf(srcs), keys).Ok? {
      assert Ordered(srcs, keys) == Pick(G.Sort(GraphOf(srcs), keys).value, ById(srcs));
      if Missing(srcs) {
        MissingIsSorted(srcs, keys);
        var d :| d in G.Sort(GraphOf(srcs), keys).value && d !in ById(srcs);
        PickMissing(G.Sort(GraphOf(srcs), keys).value, ById(srcs), d);
      } else {
        OrderedOk(srcs, keys);
      }
    } else {
      OrderedCycle(srcs, keys);
    }
  }

  /// A failed sort is a cycle reachable from a key, reported as `CyclicDependencies`.
  lemma OrderedCycle(srcs: seq<Source>, keys: seq<nat>)
    requires G.IsKeyOrder(GraphOf(srcs), keys) && G.Sort(GraphOf(srcs), keys).Err?
    ensures Ordered(srcs, keys) == Err(CyclicDependencies)
    ensures exists p :: G.ReachableCycle(GraphOf(srcs), p)
  {
    G.ErrorIffCycle(GraphOf(srcs), keys);
  }

  // ---------------------------------------------------------------------------------------
  // The `Primary` struct.

  /// The "channel" that renders: its buffer size and sample rate, the ids it monitors, its
  /// output mode and the tracker every source reads and writes signals through.
  class Primary {
    const bufferSize: nat
    const sampleRate: nat
    var monitored: seq<nat>
    var outputMode: OutputMode
    const tracker: T.BasicTracker

    /// `new`: no monitors, stereo output and an empty tracker of `size` slots.
    constructor (bufferSize: nat, sampleRate: nat, size: nat)
      ensures this.bufferSize == bufferSize && this.sampleRate == sampleRate
      ensures monitored == [] && outputMode == Stereo
      ensures fresh(tracker) && fresh(tracker.signals)
      ensures tracker.signals.Length == size && tracker.idPosition == 0
      ensures forall id :: 0 <= id < size ==> tracker.signals[id] == None
    {
      this.bufferSize := bufferSize;
      this.sampleRate := sampleRate;
      monitored := [];
      outputMode := Stereo;
      tracker := new T.BasicTracker(size);
    }

    /// `add_monitor`: the source's id is appended to the monitored ids.
    method AddMonitor(id: nat)
      modifies this
      ensures monitored == old(monitored) + [id] && outputMode == old(outputMode)
    {
      monitored := monitored + [id];
    }

    /// `remove_monitor`: every occurrence of the source's id leaves the monitored ids.
    method RemoveMonitor(id: nat)
      modifies this
      ensures monitored == R.RemoveAll(old(monitored), id) && outputMode == old(outputMode)
      ensures id !in monitored
    {
      monitored := R.RemoveAll(monitored, id);
    }

    /// `output_mono`.
    method OutputMono()
      modifies this
      ensures outputMode == Mono && monitored == old(monitored)
    {
      outputMode := Mono;
    }

    /// `output_stereo`.
    method OutputStereo()
      modifies this
      ensures outputMode == Stereo && monitored == old(monitored)
    {
      outputMode := Stereo;
    }

    /// `Tracker::create_id`, handed on to the tracker.
    method CreateId() returns (id: nat)
      requires tracker.idPosition < tracker.signals.Length
      modifies tracker, tracker.signals
      ensures id == old(tracker.idPosition) && tracker.idPosition == id + 1
      ensures tracker.signals[..] == old(tracker.signals[..])[id := Some(S.Silence)]
    {
      id := tracker.CreateId();
    }

    /// `Tracker::get_signal`, handed on to the tracker.
    function GetSignal(id: nat): (r: Option<S.Signal>)
      requires id < tracker.signals.Length
      reads tracker.signals
      ensures r == tracker.signals[id]
    {
      tracker.GetSignal(id)
    }

    /// `Tracker::set_signal`, handed on to the tracker.
    method SetSignal(id: nat, signal: S.Signal)
      requires id < tracker.signals.Length
      modifies tracker.signals
      ensures tracker.signals[..] == old(tracker.signals[..])[id := Some(signal)]
    {
      tracker.SetSignal(id, signal);
    }

    /// `source.sample(self, sample_rate)` for one source.
    method SampleOne(src: Source, ratio: real -> real) returns (next: Source)
      requires Playable(src, tracker.signals.Length)
      modifies tracker.signals
      ensures (next, tracker.signals[..]) == SampleSource(src, old(tracker.signals[..]), ratio)
    {
      match src {
        case ClipSource(c) =>
          var (st, signal) := C.ClipStep(c);
          tracker.SetSignal(c.id, signal);
          next := ClipSource(st);
        case TrackSource(t) =>
          var slots := tracker.signals[..];
          var signal := K.TrackStep(t, T.Present(t.inputs, slots),
            K.CvValue(t.gainCv, slots, 0.9), K.CvValue(t.panningCv, slots, 0.0), ratio);
          tracker.SetSignal(t.id, signal);
          next := src;
      }
    }

    /// The inner loop of the buffer loop: every source sampled once, in order.
    method SampleAll(srcs: seq<Source>, ratio: real -> real) returns (played: seq<Source>)
      requires AllPlayable(srcs, tracker.signals.Length)
      modifies tracker.signals
      ensures played == Tick(srcs, old(tracker.signals[..]), ratio).0
      ensures tracker.signals[..] == Tick(srcs, old(tracker.signals[..]), ratio).1
    {
      ghost var whole := Tick(srcs, tracker.signals[..], ratio);
      played := [];
      var i := 0;
      assert srcs[i..] == srcs;
      assert [] + whole.0 == whole.0;
      while i < |srcs|
        invariant 0 <= i <= |srcs|
        invariant whole == Joined(played, Tick(srcs[i..], tracker.signals[..], ratio))
      {
        ghost var rest := srcs[i..];
        ghost var before := tracker.signals[..];
        assert rest[1..] == srcs[i + 1..];
        var next := SampleOne(srcs[i], ratio);
        TickUnfold(rest, before, ratio);
        JoinedAppend(played, next, Tick(srcs[i + 1..], tracker.signals[..], ratio));
        played := played + [next];
        i := i + 1;
      }
      assert srcs[i..] == [];
      assert played + [] == played;
    }

    /// The buffer loop of `sample`: `n` frames, each every source sampled in order and then
    /// the signals of the monitored ids mixed.
    method FillBuffer(srcs: seq<Source>, n: nat, ratio: real -> real)
      returns (played: seq<Source>, frames: seq<S.Signal>)
      requires AllPlayable(srcs, tracker.signals.Length) && MonitorsFit(monitored, tracker.signals.Length)
      modifies tracker.signals
      ensures played == Frames(srcs, old(tracker.signals[..]), n, monitored, ratio).0
      ensures tracker.signals[..] == Frames(srcs, old(tracker.signals[..]), n, monitored, ratio).1
      ensures frames == Frames(srcs, old(tracker.signals[..]), n, monitored, ratio).2
    {
      ghost var slots := tracker.signals[..];
      ghost var all := Frames(srcs, slots, n, monitored, ratio);
      frames := [];
      played := srcs;
      var b := 0;
      assert [] + all.2 == all.2;
      while b < n
        invariant 0 <= b <= n && slots == tracker.signals[..]
        invariant AllPlayable(played, |slots|)
        invariant all == Extended(frames, Frames(played, slots, n - b, monitored, ratio))
      {
        ghost var before, pending := slots, played;
        played := SampleAll(played, ratio);
        slots := tracker.signals[..];
        var signals := T.Present(monitored, tracker.signals[..]);
        var frame := S.Mix(signals);
        FramesStep(frames, frame, pending, before, played, slots, n - b, monitored, ratio);
        frames := frames + [frame];
        b := b + 1;
      }
      assert frames + [] == frames;
    }

    /// `sample`: the graph of the sources' ids and dependencies, sorted with the keys visited
    /// in the order `keys`; a failed sort is `CyclicDependencies`, a sorted id without a source
    /// `MissingDependency`, and neither samples anything. Otherwise `buffer_size` frames, each
    /// every source sampled in sorted order and then the monitored signals mixed, written out
    /// in the output mode. Returns the sources' new fields in sorted order alongside.
    method Sample(sources: seq<Source>, keys: seq<nat>, ratio: real -> real)
      returns (r: Result<seq<real>, Error>, played: seq<Source>)
      requires AllPlayable(sources, tracker.signals.Length)
      requires MonitorsFit(monitored, tracker.signals.Length)
      requires G.IsKeyOrder(GraphOf(sources), keys)
      modifies tracker.signals
      ensures r != Err(MissingMonitor)
      ensures Ordered(sources, keys).Err? ==>
        r == Err(Ordered(sources, keys).error) && played == [] && tracker.signals[..] == old(tracker.signals[..])
      ensures Ordered(sources, keys).Ok? ==>
        var f := Frames(Ordered(sources, keys).value, old(tracker.signals[..]), bufferSize, monitored, ratio);
        r == Ok(Render(outputMode, f.2)) && played == f.0 && tracker.signals[..] == f.1
    {
      var graph, byId := Collect(sources);
      var sorted := G.TopologicalSort(graph, keys);
      if sorted.Err? {
        r, played := Err(CyclicDependencies), [];
        return;
      }
      var ordered := TakeSorted(sorted.value, byId);
      if ordered.Err? {
        r, played := Err(ordered.error), [];
        return;
      }
      var frames;
      played, frames := FillBuffer(ordered.value, bufferSize, ratio);
      var output := WriteOut(outputMode, frames);
      r := Ok(output);
    }
  }

  /// The first loop of `sample`: the dependency graph and the sources by id.
  method Collect(sources: seq<Source>) returns (graph: G.Graph, byId: map<nat, Source>)
    ensures graph == GraphOf(sources) && byId == ById(sources)
  {
    graph := map[];
    byId := map[];
    var i := 0;
    while i < |sources|
      invariant 0 <= i <= |sources|
      invariant graph == GraphOf(sources[..i]) && byId == ById(sources[..i])
    {
      assert sources[..i + 1][..i] == sources[..i];
      graph := graph[Id(sources[i]) := Deps(sources[i])];
      byId := byId[Id(sources[i]) := sources[i]];
      i := i + 1;
    }
    assert sources[..i] == sources;
  }

  /// The loop that removes every sorted key's source from the map, in order.
  method TakeSorted(sorted: seq<nat>, byId: map<nat, Source>) returns (r: Result<seq<Source>, Error>)
    ensures r == Pick(sorted, byId)
  {
    var ordered: seq<Source> := [];
    var remaining := byId;
    var j := 0;
    assert sorted[j..] == sorted;
    assert Pick(sorted, byId).Ok? ==> [] + Pick(sorted, byId).value == Pick(sorted, byId).value;
    while j < |sorted|
      invariant 0 <= j <= |sorted|
      invariant Pick(sorted, byId) == Prefixed(ordered, Pick(sorted[j..], remaining))
    {
      var key := sorted[j];
      assert sorted[j..][1..] == sorted[j + 1..];
      if key !in remaining {
        return Err(MissingDependency);
      }
      ghost var tail := Pick(sorted[j + 1..], remaining - {key});
      assert Pick(sorted[j..], remaining) == Prefixed([remaining[key]], tail);
      assert tail.Ok? ==> ordered + ([remaining[key]] + tail.value) == (ordered + [remaining[key]]) + tail.value;
      ordered := ordered + [remaining[key]];
      remaining := remaining - {key};
      j := j + 1;
    }
    assert sorted[j..] == [];
    assert ordered + [] == ordered;
    r := Ok(ordered);
  }

  /// The output loop of `sample`.
  method WriteOut(mode: OutputMode, frames: seq<S.Signal>) returns (output: seq<real>)
    ensures output == Render(mode, frames)
  {
    output := [];
    var k := 0;
    while k < |frames|
      invariant 0 <= k <= |frames|
      invariant output == Render(mode, frames[..k])
    {
      assert frames[..k + 1][..k] == frames[..k];
      var signal := frames[k];
      match mode {
        case Mono =>
          output := output + [S.SumPoints(signal)];
        case Stereo =>
          var left := S.GetPoint(signal);
          var right := S.GetRightPoint(signal).UnwrapOr(S.GetPoint(signal));
          output := output + [left, right];
      }
      k := k + 1;
    }
    assert frames[..k] == frames;
  }

  /// The sampling loop's state: the sources sampled so far in front of what the rest gives.
  function Joined(played: seq<Source>, rest: (seq<Source>, seq<Option<S.Signal>>)): (r: (seq<Source>, seq<Option<S.Signal>>))
    ensures r.0 == played + rest.0 && r.1 == rest.1
  {
    (played + rest.0, rest.1)
  }

  /// A pass samples the first source, then the rest from the slots it leaves.
  lemma TickUnfold(srcs: seq<Source>, slots: seq<Option<S.Signal>>, ratio: real -> real)
    requires srcs != [] && AllPlayable(srcs, |slots|)
    ensures var r := SampleSource(srcs[0], slots, ratio);
      AllPlayable(srcs[1..], |r.1|)
      && Tick(srcs, slots, ratio) == Joined([r.0], Tick(srcs[1..], r.1, ratio))
  {
  }

  /// Joining one more sampled source.
  lemma JoinedAppend(played: seq<Source>, next: Source, rest: (seq<Source>, seq<Option<S.Signal>>))
    ensures Joined(played, Joined([next], rest)) == Joined(played + [next], rest)
  {
    assert played + ([next] + rest.0) == (played + [next]) + rest.0;
  }

  /// A buffer of `n > 0` frames is one pass and its mix in front of the other `n - 1`.
  lemma FramesUnfold(srcs: seq<Source>, slots: seq<Option<S.Signal>>, n: nat, monitored: seq<nat>, ratio: real -> real)
    requires n > 0 && AllPlayable(srcs, |slots|) && MonitorsFit(monitored, |slots|)
    ensures var t := Tick(srcs, slots, ratio);
      Frames(srcs, slots, n, monitored, ratio)
        == Extended([S.Mixed(T.Present(monitored, t.1))], Frames(t.0, t.1, n - 1, monitored, ratio))
  {
  }

  /// The first frame mixes the slots after one pass; the others are the frames that follow
  /// that pass.
  lemma FramesFirst(srcs: seq<Source>, slots: seq<Option<S.Signal>>, n: nat, monitored: seq<nat>, ratio: real -> real)
    requires n > 0 && AllPlayable(srcs, |slots|) && MonitorsFit(monitored, |slots|)
    ensures Frames(srcs, slots, n, monitored, ratio).2[0] == S.Mixed(T.Present(monitored, Tick(srcs, slots, ratio).1))
    ensures Frames(srcs, slots, n, monitored, ratio).2[1..]
      == Frames(Tick(srcs, slots, ratio).0, Tick(srcs, slots, ratio).1, n - 1, monitored, ratio).2
  {
    FramesUnfold(srcs, slots, n, monitored, ratio);
  }

  /// One turn of the buffer loop: after a pass and its mix, the frames so far and the
  /// `k - 1` still to come are the frames before the pass and the `k` that were to come.
  lemma FramesStep(frames: seq<S.Signal>, frame: S.Signal, pending: seq<Source>, before: seq<Option<S.Signal>>,
                   played: seq<Source>, slots: seq<Option<S.Signal>>, k: nat, monitored: seq<nat>, ratio: real -> real)
    requires k > 0 && AllPlayable(pending, |before|) && MonitorsFit(monitored, |before|)
    requires played == Tick(pending, before, ratio).0 && slots == Tick(pending, before, ratio).1
    requires frame == S.Mixed(T.Present(monitored, slots))
    ensures AllPlayable(played, |slots|) && MonitorsFit(monitored, |slots|)
    ensures Extended(frames, Frames(pending, before, k, monitored, ratio))
      == Extended(frames + [frame], Frames(played, slots, k - 1, monitored, ratio))
  {
    FramesUnfold(pending, before, k, monitored, ratio);
    ExtendedAppend(frames, frame, Frames(played, slots, k - 1, monitored, ratio));
  }

  /// Extending by one more frame.
  lemma ExtendedAppend(frames: seq<S.Signal>, frame: S.Signal, rest: (seq<Source>, seq<Option<S.Signal>>, seq<S.Signal>))
    ensures Extended(frames, Extended([frame], rest)) == Extended(frames + [frame], rest)
  {
    assert frames + ([frame] + rest.2) == (frames + [frame]) + rest.2;
  }

  /// The picking loop's state: the sources taken so far in front of what the rest gives.
  function Prefixed(taken: seq<Source>, rest: Result<seq<Source>, Error>): (r: Result<seq<Source>, Error>)
    ensures rest.Err? ==> r == rest
    ensures rest.Ok? ==> r == Ok(taken + rest.value)
  {
    match rest
    case Err(e) => Err(e)
    case Ok(s) => Ok(taken + s)
  }

  /// The buffer loop's state: the frames so far in front of the frames still to come.
  function Extended(frames: seq<S.Signal>, rest: (seq<Source>, seq<Option<S.Signal>>, seq<S.Signal>))
    : (r: (seq<Source>, seq<Option<S.Signal>>, seq<S.Signal>))
    ensures r.0 == rest.0 && r.1 == rest.1 && r.2 == frames + rest.2
  {
    (rest.0, rest.1, frames + rest.2)
  }

  // ---------------------------------------------------------------------------------------
  // The tests.

  /// A track with the given id and inputs, no cvs, gain and panning 0.0.
  function PlainTrack(id: nat, inputs: seq<nat>): Source {
    TrackSource(K.TrackState(id, inputs, None, None, 0.0, 0.0))
  }

  /// A clip with the given id and points at `position`, playing once.
  function DocClip(id: nat, points: seq<real>, position: nat): Source {
    ClipSource(C.ClipState(id, CS.Points(points), position, C.OneShot, 1.0))
  }

  /// A plain track depends on its inputs, a clip on nothing.
  lemma PlainDeps(id: nat, inputs: seq<nat>, points: seq<real>, position: nat)
    ensures Id(PlainTrack(id, inputs)) == id && Deps(PlainTrack(id, inputs)) == inputs
    ensures Id(DocClip(id, points, position)) == id && Deps(DocClip(id, points, position)) == []
  {
    assert inputs + [] + [] == inputs;
  }

  /// Adding a source after the others sets its id in the graph and in the map.
  lemma SourcesSnoc(srcs: seq<Source>, x: Source)
    ensures GraphOf(srcs + [x]) == GraphOf(srcs)[Id(x) := Deps(x)]
    ensures ById(srcs + [x]) == ById(srcs)[Id(x) := x]
  {
    assert (srcs + [x])[..|srcs|] == srcs;
  }

  /// The graph and the map of two sources.
  lemma TwoSources(a: Source, b: Source)
    ensures GraphOf([a, b]) == map[Id(a) := Deps(a)][Id(b) := Deps(b)]
    ensures ById([a, b]) == map[Id(a) := a][Id(b) := b]
  {
    SourcesSnoc([], a);
    assert [] + [a] == [a];
    SourcesSnoc([a], b);
    assert [a] + [b] == [a, b];
  }

  /// The graph and the map of three sources.
  lemma ThreeSources(a: Source, b: Source, c: Source)
    ensures GraphOf([a, b, c]) == map[Id(a) := Deps(a)][Id(b) := Deps(b)][Id(c) := Deps(c)]
    ensures ById([a, b, c]) == map[Id(a) := a][Id(b) := b][Id(c) := c]
  {
    TwoSources(a, b);
    SourcesSnoc([a, b], c);
    assert [a, b] + [c] == [a, b, c];
  }

  /// Two tracks that read each other fail with `CyclicDependencies`, in either key order.
  lemma CircularDependencyFails(keys: seq<nat>)
    requires G.IsKeyOrder(GraphOf([PlainTrack(0, [1]), PlainTrack(1, [0])]), keys)
    ensures Ordered([PlainTrack(0, [1]), PlainTrack(1, [0])], keys) == Err(CyclicDependencies)
  {
    var srcs := [PlainTrack(0, [1]), PlainTrack(1, [0])];
    PlainDeps(0, [1], [], 0);
    PlainDeps(1, [0], [], 0);
    TwoSources(srcs[0], srcs[1]);
    var g := GraphOf(srcs);
    assert g == map[0 := [1], 1 := [0]];
    var p := [0, 1, 0];
    assert p[0] == p[2];
    assert G.ReachableCycle(g, p);
    OrderedMeaning(srcs, keys);
  }

  /// A track reading clips 0, 1 and 2 sampled with only clip 0 fails with
  /// `MissingDependency`, in either key order.
  lemma DependencyFails(keys: seq<nat>)
    requires G.IsKeyOrder(GraphOf([DocClip(0, [0.1, 0.2, 0.2, 0.1], 0), PlainTrack(3, [0, 1, 2])]), keys)
    ensures Ordered([DocClip(0, [0.1, 0.2, 0.2, 0.1], 0), PlainTrack(3, [0, 1, 2])], keys) == Err(MissingDependency)
  {
    var srcs := [DocClip(0, [0.1, 0.2, 0.2, 0.1], 0), PlainTrack(3, [0, 1, 2])];
    PlainDeps(3, [0, 1, 2], [0.1, 0.2, 0.2, 0.1], 0);
    PlainDeps(0, [], [0.1, 0.2, 0.2, 0.1], 0);
    TwoSources(srcs[0], srcs[1]);
    var g := GraphOf(srcs);
    assert g == map[0 := [], 3 := [0, 1, 2]];
    G.RankedIsAcyclic(g, n => if n == 3 then 1 else 0);
    assert 1 in Deps(ById(srcs)[Id(srcs[1])]) && 1 !in ById(srcs);
    assert Missing(srcs);
    OrderedMeaning(srcs, keys);
  }

  const DocPointsA: seq<real> := [0.1, 0.2, 0.2, 0.1]
  const DocPointsB: seq<real> := [0.0, 0.0, 0.1, 0.3]

  /// The documented example's sources, in id order, with both clips at `position`: two
  /// clips and a track reading both.
  function DocSources(position: nat): seq<Source> {
    [DocClip(0, DocPointsA, position), DocClip(1, DocPointsB, position), PlainTrack(2, [0, 1])]
  }

  /// The example's clips' position after one more frame: they stop at their end.
  function DocNext(position: nat): nat {
    if position < 4 then position + 1 else 4
  }

  /// The sum of the example's two clips at `position`.
  function DocSum(position: nat): real {
    PointAt(DocPointsA, position) + PointAt(DocPointsB, position)
  }

  /// A clip's point at `position`, 0.0 once it has finished.
  function PointAt(points: seq<real>, position: nat): real {
    if position < |points| then points[position] else 0.0
  }

  /// The example's graph: the track (2) reads both clips (0 and 1).
  function DocGraph(): G.Graph {
    map[0 := [], 1 := [], 2 := [0, 1]]
  }

  /// With the keys in id order, the example's graph sorts to [0, 1, 2].
  lemma DocGraphSorts()
    ensures G.IsKeyOrder(DocGraph(), [0, 1, 2])
    ensures G.Sort(DocGraph(), [0, 1, 2]) == Ok([0, 1, 2])
  {
    var g := DocGraph();
    var keys := [0, 1, 2];
    assert G.IsKeyOrder(g, keys);
    assert 0 in G.Nodes(g) && 1 in G.Nodes(g) && 2 in G.Nodes(g);
    assert G.Sources(g, 0) == [] && G.Sources(g, 1) == [] && G.Sources(g, 2) == [0, 1];
    var e := G.Dfs(map[], []);
    G.VisitLeaf(g, e, 0);
    var after0 := G.Dfs(e.marks[0 := G.Permanent], e.result + [0]);
    G.VisitLeaf(g, after0, 1);
    var after1 := G.Dfs(after0.marks[1 := G.Permanent], after0.result + [1]);
    var visiting := after1.(marks := after1.marks[2 := G.Temporary]);
    assert G.Visit(g, visiting, 0) == Ok(visiting);
    G.VisitListStep(g, visiting, [0, 1], visiting);
    assert G.Visit(g, visiting, 1) == Ok(visiting);
    G.VisitListStep(g, visiting, [1], visiting);
    assert [0, 1][1..] == [1] && [1][1..] == [];
    G.VisitInner(g, after1, 2, visiting);
    var done := G.Dfs(visiting.marks[2 := G.Permanent], visiting.result + [2]);
    assert G.SortFrom(g, keys, after1, 2) == G.SortFrom(g, keys, done, 3);
    assert G.SortFrom(g, keys, after0, 1) == G.SortFrom(g, keys, after1, 2);
    assert done.result == [0, 1, 2];
  }

  /// The example's sources give the example's graph, and their map holds each by its id.
  lemma DocMaps(position: nat)
    ensures GraphOf(DocSources(position)) == DocGraph()
    ensures ById(DocSources(position))
      == map[0 := DocSources(position)[0], 1 := DocSources(position)[1], 2 := DocSources(position)[2]]
  {
    var srcs := DocSources(position);
    PlainDeps(0, [], DocPointsA, position);
    PlainDeps(1, [], DocPointsB, position);
    PlainDeps(2, [0, 1], [], 0);
    ThreeSources(srcs[0], srcs[1], srcs[2]);
  }

  /// The example's graph sorts, keys in id order, to the sources in id order.
  lemma DocSorts(position: nat)
    ensures G.IsKeyOrder(GraphOf(DocSources(position)), [0, 1, 2])
    ensures Ordered(DocSources(position), [0, 1, 2]) == Ok(DocSources(position))
  {
    var srcs := DocSources(position);
    DocMaps(position);
    DocGraphSorts();
    PickThree(srcs[0], srcs[1], srcs[2]);
    assert [srcs[0], srcs[1], srcs[2]] == srcs;
  }

  /// Taking ids 0, 1 and 2 out of a map holding just those gives their sources in order.
  lemma PickThree(x: Source, y: Source, z: Source)
    ensures Pick([0, 1, 2], map[0 := x, 1 := y, 2 := z]) == Ok([x, y, z])
  {
    var m := map[0 := x, 1 := y, 2 := z];
    PickAll([0, 1, 2], m);
    var o := Pick([0, 1, 2], m).value;
    assert o[0] == x && o[1] == y && o[2] == z;
    assert o == [x, y, z];
  }

  /// A one-shot clip of four points plays the point at its position (silence once finished)
  /// and moves on, stopping at the end.
  lemma ClipPlays(id: nat, points: seq<real>, position: nat, slots: seq<Option<S.Signal>>, ratio: real -> real)
    requires |points| == 4 && id < |slots|
    ensures Playable(DocClip(id, points, position), |slots|)
    ensures SampleSource(DocClip(id, points, position), slots, ratio)
      == (DocClip(id, points, if position < 4 then position + 1 else 4),
          slots[id := Some(S.Mono(PointAt(points, position)))])
  {
    var st := C.ClipState(id, CS.Points(points), position, C.OneShot, 1.0);
    assert CS.Len(st.audio) == 4 && CS.PointsOf(st.audio) == points;
    var (next, signal) := C.ClipStep(st);
    assert signal == S.Mono(PointAt(points, position));
  }

  /// The example's track, reading two mono signals, sends their sum to both channels.
  lemma TrackPlays(slots: seq<Option<S.Signal>>, a: real, b: real, ratio: real -> real)
    requires |slots| == 3 && slots[0] == Some(S.Mono(a)) && slots[1] == Some(S.Mono(b))
    ensures Playable(PlainTrack(2, [0, 1]), |slots|)
    ensures SampleSource(PlainTrack(2, [0, 1]), slots, ratio)
      == (PlainTrack(2, [0, 1]), slots[2 := Some(S.Stereo(a + b, a + b))])
  {
    var track := K.TrackState(2, [0, 1], None, None, 0.0, 0.0);
    assert K.FitsIn(track, 3);
    TwoMonoInputs(slots, a, b);
    FoldTwoMono(a, b);
    K.UnityTrackSum(track, [S.Mono(a), S.Mono(b)], ratio);
  }

  /// Ids 0 and 1 holding mono signals give those two signals as inputs.
  lemma TwoMonoInputs(slots: seq<Option<S.Signal>>, a: real, b: real)
    requires |slots| == 3 && slots[0] == Some(S.Mono(a)) && slots[1] == Some(S.Mono(b))
    ensures T.Present([0, 1], slots) == [S.Mono(a), S.Mono(b)]
  {
    assert [0, 1][..1] == [0] && [0][..0] == [];
    assert T.Present([0], slots) == [S.Mono(a)];
  }

  /// Summing the points of two mono signals.
  lemma FoldTwoMono(a: real, b: real)
    ensures S.Fold(0.0, [S.Mono(a), S.Mono(b)], S.SumPoints) == a + b
  {
    var inputs := [S.Mono(a), S.Mono(b)];
    assert inputs[..1] == [S.Mono(a)] && inputs[..1][..0] == [];
    assert S.Fold(0.0, inputs[..1], S.SumPoints) == a;
  }

  /// A pass over one source samples it.
  lemma TickOne(z: Source, slots: seq<Option<S.Signal>>, ratio: real -> real)
    requires Playable(z, |slots|)
    ensures AllPlayable([z], |slots|)
    ensures Tick([z], slots, ratio) == ([SampleSource(z, slots, ratio).0], SampleSource(z, slots, ratio).1)
  {
    assert AllPlayable([z], |slots|);
    TickUnfold([z], slots, ratio);
    var next := SampleSource(z, slots, ratio).1;
    assert [z][1..] == [];
    assert Tick([], next, ratio) == ([], next);
    assert [SampleSource(z, slots, ratio).0] + [] == [SampleSource(z, slots, ratio).0];
  }

  /// A pass over a source and then others samples the first and goes on with the rest.
  lemma TickCons(x: Source, rest: seq<Source>, slots: seq<Option<S.Signal>>, ratio: real -> real)
    requires Playable(x, |slots|) && AllPlayable(rest, |slots|)
    ensures AllPlayable([x] + rest, |slots|)
    ensures var r := SampleSource(x, slots, ratio);
      Tick([x] + rest, slots, ratio) == ([r.0] + Tick(rest, r.1, ratio).0, Tick(rest, r.1, ratio).1)
  {
    var srcs := [x] + rest;
    assert AllPlayable(srcs, |slots|) by {
      forall k | 0 <= k < |srcs|
        ensures Playable(srcs[k], |slots|)
      {
        if k > 0 {
          assert srcs[k] == rest[k - 1];
        }
      }
    }
    assert srcs[1..] == rest;
    TickUnfold(srcs, slots, ratio);
  }

  /// Literal lists, kept out of the passes' proofs where they are costly to unfold.
  lemma ConsTwo<X>(a: X, b: X)
    ensures [a] + [b] == [a, b]
  {
  }

  lemma ConsThree<X>(a: X, b: X, c: X)
    ensures [a] + [b, c] == [a, b, c]
  {
  }

  /// A pass over two sources samples them one after the other.
  lemma TickTwo(y: Source, z: Source, slots: seq<Option<S.Signal>>, ratio: real -> real,
                r2: (Source, seq<Option<S.Signal>>), r3: (Source, seq<Option<S.Signal>>))
    requires Playable(y, |slots|) && Playable(z, |slots|)
    requires r2 == SampleSource(y, slots, ratio) && r3 == SampleSource(z, r2.1, ratio)
    ensures AllPlayable([y, z], |slots|)
    ensures Tick([y, z], slots, ratio) == ([r2.0, r3.0], r3.1)
  {
    ConsTwo(y, z);
    ConsTwo(r2.0, r3.0);
    TickOne(z, r2.1, ratio);
    TickCons(y, [z], slots, ratio);
  }

  /// A pass over three sources samples them one after the other.
  lemma TickThree(x: Source, y: Source, z: Source, slots: seq<Option<S.Signal>>, ratio: real -> real,
                  r1: (Source, seq<Option<S.Signal>>), r2: (Source, seq<Option<S.Signal>>), r3: (Source, seq<Option<S.Signal>>))
    requires Playable(x, |slots|) && Playable(y, |slots|) && Playable(z, |slots|)
    requires r1 == SampleSource(x, slots, ratio) && r2 == SampleSource(y, r1.1, ratio)
    requires r3 == SampleSource(z, r2.1, ratio)
    ensures AllPlayable([x, y, z], |slots|)
    ensures Tick([x, y, z], slots, ratio) == ([r1.0, r2.0, r3.0], r3.1)
  {
    ConsThree(x, y, z);
    ConsThree(r1.0, r2.0, r3.0);
    TickTwo(y, z, r1.1, ratio, r2, r3);
    TickCons(x, [y, z], slots, ratio);
  }

  /// One pass over the example's sources at `position`: each clip plays its point and moves
  /// on (stopping at the end), and the track sends the sum of the two points to both
  /// channels.
  lemma DocTick(position: nat, slots: seq<Option<S.Signal>>, ratio: real -> real)
    requires |slots| == 3
    ensures AllPlayable(DocSources(position), |slots|)
    ensures Tick(DocSources(position), slots, ratio).0 == DocSources(DocNext(position))
    ensures |Tick(DocSources(position), slots, ratio).1| == 3
    ensures Tick(DocSources(position), slots, ratio).1[0] == Some(S.Mono(PointAt(DocPointsA, position)))
    ensures Tick(DocSources(position), slots, ratio).1[1] == Some(S.Mono(PointAt(DocPointsB, position)))
    ensures Tick(DocSources(position), slots, ratio).1[2] == Some(S.Stereo(DocSum(position), DocSum(position)))
  {
    var a, b := PointAt(DocPointsA, position), PointAt(DocPointsB, position);
    var x, y, z := DocClip(0, DocPointsA, position), DocClip(1, DocPointsB, position), PlainTrack(2, [0, 1]);
    assert DocSources(position) == [x, y, z];
    DocPass(DocPointsA, DocPointsB, position, DocNext(position), a, b, x, y, z, slots, ratio);
    assert DocSources(DocNext(position)) == [DocClip(0, DocPointsA, DocNext(position)),
      DocClip(1, DocPointsB, DocNext(position)), z];
    var s3 := slots[0 := Some(S.Mono(a))][1 := Some(S.Mono(b))][2 := Some(S.Stereo(a + b, a + b))];
    assert Tick(DocSources(position), slots, ratio) == (DocSources(DocNext(position)), s3);
    assert a + b == DocSum(position);
  }

  /// A pass over two one-shot clips of four points and a plain track reading them.
  lemma DocPass(pa: seq<real>, pb: seq<real>, position: nat, next: nat, a: real, b: real,
                x: Source, y: Source, z: Source, slots: seq<Option<S.Signal>>, ratio: real -> real)
    requires |pa| == 4 && |pb| == 4 && |slots| == 3 && next == DocNext(position)
    requires a == PointAt(pa, position) && b == PointAt(pb, position)
    requires x == DocClip(0, pa, position) && y == DocClip(1, pb, position) && z == PlainTrack(2, [0, 1])
    ensures AllPlayable([x, y, z], |slots|)
    ensures Tick([x, y, z], slots, ratio)
      == ([DocClip(0, pa, next), DocClip(1, pb, next), z],
          slots[0 := Some(S.Mono(a))][1 := Some(S.Mono(b))][2 := Some(S.Stereo(a + b, a + b))])
  {
    var s1 := slots[0 := Some(S.Mono(a))];
    var s2 := s1[1 := Some(S.Mono(b))];
    var r1 := SampleSource(x, slots, ratio);
    assert r1 == (DocClip(0, pa, next), s1) by {
      ClipPlays(0, pa, position, slots, ratio);
    }
    var r2 := SampleSource(y, r1.1, ratio);
    assert r2 == (DocClip(1, pb, next), s2) by {
      ClipPlays(1, pb, position, s1, ratio);
    }
    var r3 := SampleSource(z, r2.1, ratio);
    assert r3 == (z, s2[2 := Some(S.Stereo(a + b, a + b))]) by {
      TrackPlays(s2, a, b, ratio);
    }
    TickThree(x, y, z, slots, ratio, r1, r2, r3);
    assert [r1.0, r2.0, r3.0] == [DocClip(0, pa, next), DocClip(1, pb, next), z];
  }

  /// A buffer of two frames runs two passes and mixes what each leaves in the slots.
  lemma FramesTwo(srcs: seq<Source>, slots: seq<Option<S.Signal>>, monitored: seq<nat>, ratio: real -> real)
    requires AllPlayable(srcs, |slots|) && MonitorsFit(monitored, |slots|)
    ensures var t0 := Tick(srcs, slots, ratio);
      var t1 := Tick(t0.0, t0.1, ratio);
      var f := Frames(srcs, slots, 2, monitored, ratio);
      f.0 == t1.0 && f.1 == t1.1
      && f.2 == [S.Mixed(T.Present(monitored, t0.1)), S.Mixed(T.Present(monitored, t1.1))]
  {
    var t0 := Tick(srcs, slots, ratio);
    var f1 := Frames(t0.0, t0.1, 1, monitored, ratio);
    var t1 := Tick(t0.0, t0.1, ratio);
    assert f1.2 == [S.Mixed(T.Present(monitored, t1.1))] + [];
  }

  /// Mixing one stereo signal gives it back.
  lemma MixOne(x: real)
    ensures S.Mixed([S.Stereo(x, x)]) == S.Stereo(x, x)
  {
    var s := [S.Stereo(x, x)];
    assert s[..|s| - 1] == [];
    assert S.Fold(0.0, s, S.GetPoint) == x && S.Fold(0.0, s, S.RightOrPoint) == x;
    assert !S.AllMono(s) by { assert !S.IsMono(s[0]); }
  }

  /// One frame of the example at `position`: the sources move on and the monitored track
  /// holds the stereo sum of the two clips' points.
  lemma DocFrame(position: nat, slots: seq<Option<S.Signal>>, ratio: real -> real)
    requires |slots| == 3
    ensures AllPlayable(DocSources(position), |slots|)
    ensures var t := Tick(DocSources(position), slots, ratio);
      && t.0 == DocSources(DocNext(position)) && |t.1| == 3
      && S.Mixed(T.Present([2], t.1)) == S.Stereo(DocSum(position), DocSum(position))
  {
    var sum := DocSum(position);
    DocTick(position, slots, ratio);
    var t := Tick(DocSources(position), slots, ratio);
    PresentOne(2, t.1);
    MixOne(sum);
  }

  /// Monitoring one filled slot gives its signal.
  lemma PresentOne(id: nat, slots: seq<Option<S.Signal>>)
    requires id < |slots| && slots[id].Some?
    ensures T.Present([id], slots) == [slots[id].value]
  {
    assert [id][..0] == [];
  }

  /// Stereo output of two frames that carry the same point on both channels.
  lemma RenderTwo(x: real, y: real)
    ensures Render(Stereo, [S.Stereo(x, x), S.Stereo(y, y)]) == [x, x, y, y]
  {
    var out := Render(Stereo, [S.Stereo(x, x), S.Stereo(y, y)]);
    assert out[0] == x && out[1] == x && out[2] == y && out[3] == y;
  }

  /// Two frames of the example from `position`: both frames are the track's stereo sum, and
  /// stereo output writes each sum twice.
  lemma DocBuffer(position: nat, slots: seq<Option<S.Signal>>, ratio: real -> real)
    requires |slots| == 3
    ensures AllPlayable(DocSources(position), |slots|) && MonitorsFit([2], |slots|)
    ensures var f := Frames(DocSources(position), slots, 2, [2], ratio);
      && f.0 == DocSources(DocNext(DocNext(position)))
      && Render(Stereo, f.2)
        == [DocSum(position), DocSum(position), DocSum(DocNext(position)), DocSum(DocNext(position))]
  {
    var p1 := DocNext(position);
    var sum0, sum1 := DocSum(position), DocSum(p1);
    DocFrame(position, slots, ratio);
    var t0 := Tick(DocSources(position), slots, ratio);
    DocFrame(p1, t0.1, ratio);
    var t1 := Tick(DocSources(p1), t0.1, ratio);
    assert t1 == Tick(t0.0, t0.1, ratio);
    FramesTwo(DocSources(position), slots, [2], ratio);
    var frames := Frames(DocSources(position), slots, 2, [2], ratio).2;
    assert frames == [S.Stereo(sum0, sum0), S.Stereo(sum1, sum1)];
    RenderTwo(sum0, sum1);
  }

  /// The example's first call, from the start: [0.1, 0.1, 0.2, 0.2].
  lemma DocFirstCall(slots: seq<Option<S.Signal>>, ratio: real -> real)
    requires |slots| == 3
    ensures AllPlayable(DocSources(0), |slots|) && MonitorsFit([2], |slots|)
    ensures var f := Frames(DocSources(0), slots, 2, [2], ratio);
      f.0 == DocSources(2) && Render(Stereo, f.2) == [0.1, 0.1, 0.2, 0.2]
  {
    DocBuffer(0, slots, ratio);
    assert DocSum(0) == 0.1 && DocSum(1) == 0.2 && DocNext(DocNext(0)) == 2;
  }

  /// The example's second call, from the middle of the clips: [0.3, 0.3, 0.4, 0.4].
  lemma DocSecondCall(slots: seq<Option<S.Signal>>, ratio: real -> real)
    requires |slots| == 3
    ensures AllPlayable(DocSources(2), |slots|) && MonitorsFit([2], |slots|)
    ensures var f := Frames(DocSources(2), slots, 2, [2], ratio);
      f.0 == DocSources(4) && Render(Stereo, f.2) == [0.3, 0.3, 0.4, 0.4]
  {
    DocBuffer(2, slots, ratio);
    assert DocSum(2) == 0.3 && DocSum(3) == 0.4 && DocNext(DocNext(2)) == 4;
  }

  /// The example's third call, with both clips finished: silence.
  lemma DocThirdCall(slots: seq<Option<S.Signal>>, ratio: real -> real)
    requires |slots| == 3
    ensures AllPlayable(DocSources(4), |slots|) && MonitorsFit([2], |slots|)
    ensures Render(Stereo, Frames(DocSources(4), slots, 2, [2], ratio).2) == [0.0, 0.0, 0.0, 0.0]
  {
    DocBuffer(4, slots, ratio);
    assert DocSum(4) == 0.0 && DocNext(4) == 4;
  }

  /// The documented example: three calls of `sample` with a buffer of 2 on stereo output,
  /// each going on from the sources and slots the previous one left, give
  /// [0.1, 0.1, 0.2, 0.2], then [0.3, 0.3, 0.4, 0.4], then silence, whatever `ratio`.
  lemma DocExample(ratio: real -> real)
    ensures AllPlayable(DocSources(0), 3) && MonitorsFit([2], 3)
    ensures var f1 := Frames(DocSources(0), [Some(S.Silence), Some(S.Silence), Some(S.Silence)], 2, [2], ratio);
      var f2 := Frames(f1.0, f1.1, 2, [2], ratio);
      var f3 := Frames(f2.0, f2.1, 2, [2], ratio);
      && Render(Stereo, f1.2) == [0.1, 0.1, 0.2, 0.2]
      && Render(Stereo, f2.2) == [0.3, 0.3, 0.4, 0.4]
      && Render(Stereo, f3.2) == [0.0, 0.0, 0.0, 0.0]
  {
    var f1 := Frames(DocSources(0), [Some(S.Silence), Some(S.Silence), Some(S.Silence)], 2, [2], ratio);
    DocFirstCall([Some(S.Silence), Some(S.Silence), Some(S.Silence)], ratio);
    DocSecondCall(f1.1, ratio);
    var f2 := Frames(f1.0, f1.1, 2, [2], ratio);
    DocThirdCall(f2.1, ratio);
  }
}
