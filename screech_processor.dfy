/// The `Processor` of the `screech` crate, together with the module union it runs. The union
/// is what the `#[modularize]` attribute generates for the processor's own test modules
/// `Fixed`, `Divide` and `Mix`, plus the crate's `Dummy`: an enum whose `is_ready` and
/// `process` match on the variant and forward to it. None of these modules changes its own
/// fields when processed, so a module run is described by its result and the new patchbay
/// contents.
module ScreechProcessor {
  import opened Wrappers
  import P = ScreechPatchbay
  import A = ScreechPatchAccess
  import M = ScreechMix

  /// A divisor: the test `Divide` module divides by its value.
  type NonZero = x: real | x != 0.0 witness 1.0

  /// The module union. `Divide`'s `value` field is called `divisor` here.
  datatype Modules =
    | Fixed(value: real, output: P.PatchPoint)                   // writes a constant
    | Divide(divisor: NonZero, input: nat, output: P.PatchPoint)  // writes input / value
    | Mix(inputs: seq<nat>, output: P.PatchPoint)                 // writes the sum of two inputs
    | Dummy                                                       // does nothing

  /// Every slot a module reads or writes lies in a patchbay of `size` slots, and a test mix
  /// has its two inputs.
  predicate Fits(m: Modules, size: nat) {
    match m
    case Fixed(_, out) => out.id < size
    case Divide(_, input, out) => input < size && out.id < size
    case Mix(inputs, out) => |inputs| == 2 && (forall k :: 0 <= k < 2 ==> inputs[k] < size) && out.id < size
    case Dummy => true
  }

  predicate AllFit(ms: seq<Modules>, size: nat) {
    forall i :: 0 <= i < |ms| ==> Fits(ms[i], size)
  }

  /// The inputs of a test mix as the always-connected inputs of a mixer loop.
  function Connections(inputs: seq<nat>): (c: seq<Option<nat>>)
    ensures |c| == |inputs| && forall k :: 0 <= k < |inputs| ==> c[k] == Some(inputs[k])
  {
    seq(|inputs|, k requires 0 <= k < |inputs| => Some(inputs[k]))
  }

  /// What a module run leaves behind: its result and the new patchbay contents.
  datatype Outcome = Outcome(result: Result<(), A.PatchError>, bay: P.Bay)

  /// The generated `process`: forward to the variant.
  function Step(m: Modules, bay: P.Bay, policy: A.ReadPolicy): (o: Outcome)
    requires bay.Valid() && Fits(m, |bay.buffer|)
    ensures o.bay.Valid() && |o.bay.buffer| == |bay.buffer|
    ensures o.result.Err? || m.Dummy? ==> o.bay == bay
    ensures o.result.Ok? && !m.Dummy? ==> o.bay == A.Store(bay, m.output.id, o.bay.buffer[m.output.id])
    ensures A.AlwaysReadable(policy) ==> o.result.Ok?
    ensures m.Fixed? || m.Dummy? ==> o.result.Ok?
  {
    match m
    case Fixed(v, out) => Outcome(Ok(()), A.Store(bay, out.id, v))
    case Divide(d, input, out) =>
      (match A.GetSample(bay, policy, input)
       case Err(e) => Outcome(Err(e), bay)
       case Ok(x) => Outcome(Ok(()), A.Store(bay, out.id, x / d)))
    case Mix(inputs, out) =>
      M.SumReadsMeaning(Connections(inputs), bay, policy);
      (match M.SumReads(Connections(inputs), bay, policy)
       case Err(e) => Outcome(Err(e), bay)
       case Ok(sum) => Outcome(Ok(()), A.Store(bay, out.id, sum)))
    case Dummy => Outcome(Ok(()), bay)
  }

  /// What a successful module run writes to its output slot: the constant, the input
  /// divided by the divisor, or the sum of the two inputs.
  lemma StepWrites(m: Modules, bay: P.Bay, policy: A.ReadPolicy)
    requires bay.Valid() && Fits(m, |bay.buffer|) && !m.Dummy?
    requires Step(m, bay, policy).result.Ok?
    ensures m.Fixed? ==> Step(m, bay, policy).bay.buffer[m.output.id] == m.value
    ensures m.Divide? ==> Step(m, bay, policy).bay.buffer[m.output.id] == bay.buffer[m.input] / m.divisor
    ensures m.Mix? ==> Step(m, bay, policy).bay.buffer[m.output.id] == bay.buffer[m.inputs[0]] + bay.buffer[m.inputs[1]]
  {
    if m.Mix? {
      var c := Connections(m.inputs);
      M.SumReadsMeaning(c, bay, policy);
      assert c[..1][..0] == c[..0];
      assert c[..2][..1] == c[..1];
      assert c[..2] == c;
      assert M.ConnectedSum(c[..1], bay.buffer) == bay.buffer[m.inputs[0]];
    }
  }

  /// The generated `is_ready`: none of the variants overrides the default.
  function IsReady(m: Modules, pb: P.Patchbay): (ready: bool)
    reads pb, pb.buffer, pb.marks
    ensures ready
  {
    true
  }

  /// The generated `process` on a live patchbay.
  method ProcessModule(m: Modules, pb: P.Patchbay, policy: A.ReadPolicy) returns (r: Result<(), A.PatchError>)
    requires pb.Valid() && Fits(m, pb.size)
    modifies pb.buffer, pb.marks
    ensures pb.Valid()
    ensures Outcome(r, pb.Value()) == Step(m, old(pb.Value()), policy)
  {
    match m {
      case Fixed(v, out) =>
        A.SetSample(pb, out, v);
        r := Ok(());
      case Divide(d, input, out) =>
        var x := A.ReadSample(pb, policy, input);
        if x.Err? {
          return Err(x.error);
        }
        A.SetSample(pb, out, x.value / d);
        r := Ok(());
      case Mix(inputs, out) =>
        ghost var bay := pb.Value();
        var result := 0.0;
        var k := 0;
        while k < |inputs|
          invariant 0 <= k <= |inputs|
          invariant pb.Value() == bay
          invariant M.SumReads(Connections(inputs)[..k], bay, policy) == Ok(result)
        {
          assert Connections(inputs)[..k + 1][..k] == Connections(inputs)[..k];
          var x := A.ReadSample(pb, policy, inputs[k]);
          if x.Err? {
            M.SumReadsStopsAtError(Connections(inputs), k + 1, bay, policy);
            return Err(x.error);
          }
          result := result + x.value;
          k := k + 1;
        }
        assert Connections(inputs)[..|inputs|] == Connections(inputs);
        A.SetSample(pb, out, result);
        r := Ok(());
      case Dummy =>
        r := Ok(());
    }
  }

  /// No index occurs twice.
  predicate Distinct(s: seq<nat>) {
    forall a, b :: 0 <= a < b < |s| ==> s[a] != s[b]
  }

  /// `s` lists every index below `n` exactly once.
  predicate IsPermutation(s: seq<nat>, n: nat) {
    |s| == n && Distinct(s) && (forall k :: 0 <= k < |s| ==> s[k] < n) && (forall j :: 0 <= j < n ==> j in s)
  }

  /// The state of the discovery in `order_modules`: the `processed` flags, the order found so
  /// far (`order[..index]`), and the patchbay contents.
  datatype Round = Round(processed: seq<bool>, order: seq<nat>, bay: P.Bay)

  /// What the discovery keeps true: the order lists exactly the processed modules, once each.
  predicate RoundOk(ms: seq<Modules>, r: Round) {
    |r.processed| == |ms| && r.bay.Valid() && AllFit(ms, |r.bay.buffer|)
    && (forall k :: 0 <= k < |r.order| ==> r.order[k] < |ms|)
    && Distinct(r.order)
    && (forall j :: 0 <= j < |ms| ==> (r.processed[j] <==> j in r.order))
    && |r.order| + multiset(r.processed)[false] == |ms|
  }

  /// Marking an unprocessed module processed and appending it keeps the round consistent.
  lemma RecordOk(ms: seq<Modules>, r: Round, i: nat, bay: P.Bay)
    requires RoundOk(ms, r) && i < |ms| && !r.processed[i]
    requires bay.Valid() && |bay.buffer| == |r.bay.buffer|
    ensures RoundOk(ms, Round(r.processed[i := true], r.order + [i], bay))
  {
    var p := r.processed[i := true];
    assert multiset(p) == multiset(r.processed) - multiset{false} + multiset{true};
    assert i !in r.order;
    var o := r.order + [i];
    forall j | 0 <= j < |ms|
      ensures p[j] <==> j in o
    {
      assert j in o <==> j in r.order || j == i;
    }
  }

  /// One iteration of a pass over module `i`: skip it when processed, otherwise run it and
  /// record it when it succeeds.
  function Visit(ms: seq<Modules>, r: Round, i: nat, policy: A.ReadPolicy): (next: Round)
    requires RoundOk(ms, r) && i < |ms|
    ensures RoundOk(ms, next) && |next.bay.buffer| == |r.bay.buffer|
    ensures |next.order| == |r.order| ==> next.processed == r.processed
    ensures |next.order| == |r.order| || (!r.processed[i] && next.order == r.order + [i])
  {
    if r.processed[i] then r
    else
      var o := Step(ms[i], r.bay, policy);
      if o.result.Ok? then
        RecordOk(ms, r, i, o.bay);
        Round(r.processed[i := true], r.order + [i], o.bay)
      else
        r.(bay := o.bay)
  }

  /// One pass of the discovery loop, from module `i` on.
  function PassFrom(ms: seq<Modules>, r: Round, i: nat, policy: A.ReadPolicy): (next: Round)
    requires RoundOk(ms, r) && i <= |ms|
    ensures RoundOk(ms, next) && |next.bay.buffer| == |r.bay.buffer|
    ensures |r.order| <= |next.order|
    ensures |next.order| == |r.order| ==> next.processed == r.processed
    decreases |ms| - i
  {
    if i == |ms| then r else PassFrom(ms, Visit(ms, r, i, policy), i + 1, policy)
  }

  /// A pass from `before` has reached module `i` with the round `cur`.
  ghost predicate PassAt(ms: seq<Modules>, before: Round, cur: Round, i: nat, policy: A.ReadPolicy) {
    RoundOk(ms, before) && RoundOk(ms, cur) && i <= |ms|
    && PassFrom(ms, before, 0, policy) == PassFrom(ms, cur, i, policy)
  }

  /// Visiting module `i` moves a pass on by one module.
  lemma PassStep(ms: seq<Modules>, before: Round, cur: Round, i: nat, policy: A.ReadPolicy)
    requires PassAt(ms, before, cur, i, policy) && i < |ms|
    ensures PassAt(ms, before, Visit(ms, cur, i, policy), i + 1, policy)
  {
  }

  /// A pass that has visited every module has reached its result.
  lemma PassDone(ms: seq<Modules>, before: Round, cur: Round, policy: A.ReadPolicy)
    requires PassAt(ms, before, cur, |ms|, policy)
    ensures cur == PassFrom(ms, before, 0, policy)
  {
  }

  /// The discovery loop: repeat passes until one succeeds for no module.
  function Discover(ms: seq<Modules>, r: Round, policy: A.ReadPolicy): (d: Round)
    requires RoundOk(ms, r)
    ensures RoundOk(ms, d) && |d.bay.buffer| == |r.bay.buffer|
    decreases |ms| - |r.order|
  {
    var next := PassFrom(ms, r, 0, policy);
    if |next.order| == |r.order| then next else Discover(ms, next, policy)
  }

  /// The number of passes the discovery loop makes.
  function Passes(ms: seq<Modules>, r: Round, policy: A.ReadPolicy): (n: nat)
    requires RoundOk(ms, r)
    ensures n >= 1
    ensures |PassFrom(ms, r, 0, policy).order| == |r.order| ==> n == 1
    decreases |ms| - |r.order|
  {
    var next := PassFrom(ms, r, 0, policy);
    if |next.order| == |r.order| then 1 else 1 + Passes(ms, next, policy)
  }

  /// Every pass but the last records at least one new module, so the loop makes at most
  /// one pass more than there are modules still unprocessed.
  lemma {:induction false} PassesBounded(ms: seq<Modules>, r: Round, policy: A.ReadPolicy)
    requires RoundOk(ms, r)
    ensures Passes(ms, r, policy) <= |ms| - |r.order| + 1
    decreases |ms| - |r.order|
  {
    var next := PassFrom(ms, r, 0, policy);
    if |next.order| != |r.order| {
      PassesBounded(ms, next, policy);
    }
  }

  /// The indices from `i` on whose flag is unset, in ascending order.
  function UnprocessedFrom(processed: seq<bool>, i: nat): (r: seq<nat>)
    ensures i <= |processed| ==> |r| <= |processed| - i
    decreases |processed| - i
  {
    if i >= |processed| then []
    else if processed[i] then UnprocessedFrom(processed, i + 1)
    else [i] + UnprocessedFrom(processed, i + 1)
  }

  /// `UnprocessedFrom` lists exactly the unset flags from `i` on.
  lemma {:induction false} UnprocessedMembers(processed: seq<bool>, i: nat)
    ensures forall x :: x in UnprocessedFrom(processed, i) <==> i <= x < |processed| && !processed[x]
    decreases |processed| - i
  {
    if i < |processed| {
      UnprocessedMembers(processed, i + 1);
    }
  }

  /// With every flag from `i` on set, nothing is left to append.
  lemma {:induction false} NoneUnprocessed(processed: seq<bool>, i: nat)
    requires forall j :: i <= j < |processed| ==> processed[j]
    ensures UnprocessedFrom(processed, i) == []
    decreases |processed| - i
  {
    if i < |processed| {
      NoneUnprocessed(processed, i + 1);
    }
  }

  /// `UnprocessedFrom` is strictly ascending.
  lemma {:induction false} UnprocessedAscending(processed: seq<bool>, i: nat)
    ensures forall a, b :: 0 <= a < b < |UnprocessedFrom(processed, i)| ==>
      UnprocessedFrom(processed, i)[a] < UnprocessedFrom(processed, i)[b]
    decreases |processed| - i
  {
    if i < |processed| {
      UnprocessedAscending(processed, i + 1);
      UnprocessedMembers(processed, i + 1);
      var rest := UnprocessedFrom(processed, i + 1);
      assert forall b :: 0 <= b < |rest| ==> rest[b] in rest;
    }
  }

  /// `UnprocessedFrom` has one entry per unset flag.
  lemma {:induction false} UnprocessedCount(processed: seq<bool>, i: nat)
    requires i <= |processed|
    ensures |UnprocessedFrom(processed, i)| == multiset(processed[i..])[false]
    decreases |processed| - i
  {
    if i < |processed| {
      UnprocessedCount(processed, i + 1);
      assert processed[i..] == [processed[i]] + processed[i + 1..];
    }
  }

  /// The round the discovery starts from: nothing processed, every mark set.
  function StartRound(ms: seq<Modules>, bay: P.Bay): (r: Round)
    requires bay.Valid() && AllFit(ms, |bay.buffer|)
    ensures RoundOk(ms, r) && r.order == [] && forall j :: 0 <= j < |ms| ==> !r.processed[j]
  {
    var start := Round(seq(|ms|, _ => false), [], A.AllMarked(bay));
    CountAllFalse(start.processed);
    start
  }

  /// What follows the discovery loop: append the modules that never succeeded, in index
  /// order, and clear every mark.
  function Finish(d: Round): (r: Round)
    ensures r.processed == d.processed && |r.order| >= |d.order| && r.order[..|d.order|] == d.order
    ensures r.bay.buffer == d.bay.buffer && |r.bay.marks| == |d.bay.marks|
    ensures forall j :: 0 <= j < |r.bay.marks| ==> !r.bay.marks[j]
  {
    Round(d.processed, d.order + UnprocessedFrom(d.processed, 0), A.NoneMarked(d.bay))
  }

  /// The order `order_modules` settles on, with the patchbay contents it leaves.
  function OrderSpec(ms: seq<Modules>, bay: P.Bay, policy: A.ReadPolicy): (r: Round)
    requires bay.Valid() && AllFit(ms, |bay.buffer|)
    ensures r.bay.Valid() && |r.bay.buffer| == |bay.buffer|
  {
    Finish(Discover(ms, StartRound(ms, bay), policy))
  }

  lemma {:induction false} CountAllFalse(s: seq<bool>)
    requires forall k :: 0 <= k < |s| ==> !s[k]
    ensures multiset(s)[false] == |s|
  {
    if |s| > 0 {
      assert s == s[..|s| - 1] + [s[|s| - 1]];
      CountAllFalse(s[..|s| - 1]);
    }
  }

  /// Appending the never-successful modules to a consistent round gives a permutation of
  /// the module indices, whose tail is those modules in ascending order.
  lemma FinishIsPermutation(ms: seq<Modules>, d: Round)
    requires RoundOk(ms, d)
    ensures IsPermutation(Finish(d).order, |ms|)
  {
    var tail := UnprocessedFrom(d.processed, 0);
    UnprocessedMembers(d.processed, 0);
    UnprocessedCount(d.processed, 0);
    assert d.processed[0..] == d.processed;
    var o := d.order + tail;
    forall a, b | 0 <= a < b < |o|
      ensures o[a] != o[b]
    {
      if b >= |d.order| && a < |d.order| {
        assert o[a] in d.order && o[b] in tail;
      } else if a >= |d.order| {
        UnprocessedAscending(d.processed, 0);
      }
    }
    forall k | 0 <= k < |o|
      ensures o[k] < |ms|
    {
      if k >= |d.order| {
        assert o[k] in tail;
      }
    }
    forall j | 0 <= j < |ms|
      ensures j in o
    {
      if d.processed[j] {
        assert j in d.order;
      } else {
        assert j in tail;
      }
    }
  }

  /// The order is a permutation of the module indices: every module runs exactly once per
  /// tick. The modules that never succeeded come last, in ascending index order.
  lemma OrderIsPermutation(ms: seq<Modules>, bay: P.Bay, policy: A.ReadPolicy)
    requires bay.Valid() && AllFit(ms, |bay.buffer|)
    ensures IsPermutation(OrderSpec(ms, bay, policy).order, |ms|)
  {
    FinishIsPermutation(ms, Discover(ms, StartRound(ms, bay), policy));
  }

  /// The modules that never succeeded close the order, in ascending index order.
  lemma UnprocessedCloseOrder(ms: seq<Modules>, bay: P.Bay, policy: A.ReadPolicy)
    requires bay.Valid() && AllFit(ms, |bay.buffer|)
    ensures var s := OrderSpec(ms, bay, policy);
      var tail := UnprocessedFrom(s.processed, 0);
      |tail| <= |s.order| && s.order[|s.order| - |tail|..] == tail
      && (forall a, b :: 0 <= a < b < |tail| ==> tail[a] < tail[b])
      && (forall x :: x in tail <==> 0 <= x < |ms| && !s.processed[x])
  {
    FinishTail(Discover(ms, StartRound(ms, bay), policy));
  }

  /// Finishing a round closes its order with the unset flags, in ascending order.
  lemma FinishTail(d: Round)
    ensures var s := Finish(d);
      var tail := UnprocessedFrom(s.processed, 0);
      |tail| <= |s.order| && s.order[|s.order| - |tail|..] == tail
      && (forall a, b :: 0 <= a < b < |tail| ==> tail[a] < tail[b])
      && (forall x :: x in tail <==> 0 <= x < |d.processed| && !s.processed[x])
  {
    UnprocessedMembers(d.processed, 0);
    UnprocessedAscending(d.processed, 0);
    var tail := UnprocessedFrom(d.processed, 0);
    assert Finish(d).order[|Finish(d).order| - |tail|..] == tail;
  }

  /// Run the modules listed in `order` from position `k` on, ignoring their results.
  function RunFrom(ms: seq<Modules>, order: seq<nat>, k: nat, bay: P.Bay, policy: A.ReadPolicy): (b: P.Bay)
    requires bay.Valid() && AllFit(ms, |bay.buffer|)
    requires forall j :: 0 <= j < |order| ==> order[j] < |ms|
    ensures b.Valid() && |b.buffer| == |bay.buffer|
    decreases |order| - k
  {
    if k >= |order| then bay
    else RunFrom(ms, order, k + 1, Step(ms[order[k]], bay, policy).bay, policy)
  }

  /// Running from position `k` is running the suffix from its start.
  lemma {:induction false} RunFromDrop(ms: seq<Modules>, order: seq<nat>, k: nat, bay: P.Bay, policy: A.ReadPolicy)
    requires k <= |order|
    requires forall j :: 0 <= j < |order| ==> order[j] < |ms|
    requires bay.Valid() && AllFit(ms, |bay.buffer|)
    ensures RunFrom(ms, order, k, bay, policy) == RunFrom(ms, order[k..], 0, bay, policy)
    decreases |order| - k
  {
    if k < |order| {
      var b := Step(ms[order[k]], bay, policy).bay;
      RunFromDrop(ms, order, k + 1, b, policy);
      RunFromDrop(ms, order[k..], 1, b, policy);
      assert order[k..][1..] == order[k + 1..];
    }
  }

  /// The indices `i`, `i + 1`, ..., `n - 1`.
  function Range(i: nat, n: nat): (s: seq<nat>)
    ensures |s| == if i <= n then n - i else 0
    ensures forall k :: 0 <= k < |s| ==> s[k] == i + k
    decreases n - i
  {
    if i >= n then [] else [i] + Range(i + 1, n)
  }

  /// When every read succeeds, visiting an unprocessed module records it.
  lemma VisitReadable(ms: seq<Modules>, r: Round, i: nat, policy: A.ReadPolicy)
    requires RoundOk(ms, r) && i < |ms| && A.AlwaysReadable(policy) && !r.processed[i]
    ensures Visit(ms, r, i, policy)
      == Round(r.processed[i := true], r.order + [i], Step(ms[i], r.bay, policy).bay)
  {
  }

  /// Appending the indices from `i` is appending `i` and then the indices from `i + 1`.
  lemma AppendRange(s: seq<nat>, i: nat, n: nat)
    requires i < n
    ensures s + Range(i, n) == (s + [i]) + Range(i + 1, n)
  {
    assert Range(i, n) == [i] + Range(i + 1, n);
  }

  /// When every read succeeds, a pass records all the modules it has not processed yet, in
  /// index order.
  lemma {:induction false} PassAllReadable(ms: seq<Modules>, r: Round, i: nat, policy: A.ReadPolicy)
    requires RoundOk(ms, r) && i <= |ms| && A.AlwaysReadable(policy)
    requires forall j :: i <= j < |ms| ==> !r.processed[j]
    ensures PassFrom(ms, r, i, policy).order == r.order + Range(i, |ms|)
    decreases |ms| - i
  {
    if i < |ms| {
      VisitReadable(ms, r, i, policy);
      var r' := Visit(ms, r, i, policy);
      PassAllReadable(ms, r', i + 1, policy);
      AppendRange(r.order, i, |ms|);
    } else {
      assert r.order + Range(i, |ms|) == r.order;
    }
  }

  /// When every read succeeds, a pass leaves every module it visits processed.
  lemma {:induction false} PassAllReadableMarks(ms: seq<Modules>, r: Round, i: nat, policy: A.ReadPolicy, j: nat)
    requires RoundOk(ms, r) && i <= j < |ms| && A.AlwaysReadable(policy)
    requires forall j' :: i <= j' < |ms| ==> !r.processed[j']
    ensures PassFrom(ms, r, i, policy).processed[j]
    decreases |ms| - i
  {
    VisitReadable(ms, r, i, policy);
    var r' := Visit(ms, r, i, policy);
    assert PassFrom(ms, r, i, policy) == PassFrom(ms, r', i + 1, policy);
    if j == i {
      PassKeepsProcessed(ms, r', i + 1, policy, j);
    } else {
      PassAllReadableMarks(ms, r', i + 1, policy, j);
    }
  }

  /// A pass never unsets a flag.
  lemma {:induction false} PassKeepsProcessed(ms: seq<Modules>, r: Round, i: nat, policy: A.ReadPolicy, j: nat)
    requires RoundOk(ms, r) && i <= |ms| && j < |ms| && r.processed[j]
    ensures PassFrom(ms, r, i, policy).processed[j]
    decreases |ms| - i
  {
    if i < |ms| {
      PassKeepsProcessed(ms, Visit(ms, r, i, policy), i + 1, policy, j);
    }
  }

  /// When every read succeeds, a pass over unprocessed modules runs them in index order.
  lemma {:induction false} PassAllReadableRuns(ms: seq<Modules>, r: Round, i: nat, policy: A.ReadPolicy)
    requires RoundOk(ms, r) && i <= |ms| && A.AlwaysReadable(policy)
    requires forall j :: i <= j < |ms| ==> !r.processed[j]
    ensures PassFrom(ms, r, i, policy).bay == RunFrom(ms, Range(i, |ms|), 0, r.bay, policy)
    decreases |ms| - i
  {
    if i < |ms| {
      PassReadableStep(ms, r, i, policy);
      PassAllReadableRuns(ms, Visit(ms, r, i, policy), i + 1, policy);
    }
  }

  /// One module of such a pass: it is recorded, and its run is the first of the range.
  lemma PassReadableStep(ms: seq<Modules>, r: Round, i: nat, policy: A.ReadPolicy)
    requires RoundOk(ms, r) && i < |ms| && A.AlwaysReadable(policy)
    requires forall j :: i <= j < |ms| ==> !r.processed[j]
    ensures RoundOk(ms, Visit(ms, r, i, policy))
    ensures forall j :: i + 1 <= j < |ms| ==> !Visit(ms, r, i, policy).processed[j]
    ensures PassFrom(ms, r, i, policy).bay == PassFrom(ms, Visit(ms, r, i, policy), i + 1, policy).bay
    ensures RunFrom(ms, Range(i, |ms|), 0, r.bay, policy)
      == RunFrom(ms, Range(i + 1, |ms|), 0, Visit(ms, r, i, policy).bay, policy)
  {
    VisitReadable(ms, r, i, policy);
    var range := Range(i, |ms|);
    assert range[0] == i && range[1..] == Range(i + 1, |ms|);
    RunFromDrop(ms, range, 1, Step(ms[i], r.bay, policy).bay, policy);
  }

  /// A pass over modules that are all processed changes nothing.
  lemma {:induction false} PassAllProcessed(ms: seq<Modules>, r: Round, i: nat, policy: A.ReadPolicy)
    requires RoundOk(ms, r) && i <= |ms|
    requires forall j :: i <= j < |ms| ==> r.processed[j]
    ensures PassFrom(ms, r, i, policy) == r
    decreases |ms| - i
  {
    if i < |ms| {
      assert Visit(ms, r, i, policy) == r;
      PassAllProcessed(ms, r, i + 1, policy);
    }
  }

  /// When every read succeeds, the first pass records every module in index order and runs
  /// each once over the marked patchbay.
  lemma FirstPassAllReadable(ms: seq<Modules>, bay: P.Bay, policy: A.ReadPolicy)
    requires bay.Valid() && AllFit(ms, |bay.buffer|) && A.AlwaysReadable(policy)
    ensures PassFrom(ms, StartRound(ms, bay), 0, policy).order == Range(0, |ms|)
    ensures PassFrom(ms, StartRound(ms, bay), 0, policy).bay
      == RunFrom(ms, Range(0, |ms|), 0, A.AllMarked(bay), policy)
    ensures forall j :: 0 <= j < |ms| ==> PassFrom(ms, StartRound(ms, bay), 0, policy).processed[j]
  {
    var start := StartRound(ms, bay);
    PassAllReadable(ms, start, 0, policy);
    PassAllReadableProcesses(ms, start, policy);
    PassAllReadableRuns(ms, start, 0, policy);
  }

  /// When every read succeeds, a pass from an unprocessed round processes every module.
  lemma PassAllReadableProcesses(ms: seq<Modules>, r: Round, policy: A.ReadPolicy)
    requires RoundOk(ms, r) && A.AlwaysReadable(policy)
    requires forall j :: 0 <= j < |ms| ==> !r.processed[j]
    ensures forall j :: 0 <= j < |ms| ==> PassFrom(ms, r, 0, policy).processed[j]
  {
    forall j | 0 <= j < |ms|
      ensures PassFrom(ms, r, 0, policy).processed[j]
    {
      PassAllReadableMarks(ms, r, 0, policy, j);
    }
  }

  /// A discovery whose first pass processes every module stops after that pass.
  lemma DiscoverAfterFullPass(ms: seq<Modules>, r: Round, policy: A.ReadPolicy)
    requires RoundOk(ms, r)
    requires forall j :: 0 <= j < |ms| ==> PassFrom(ms, r, 0, policy).processed[j]
    ensures Discover(ms, r, policy) == PassFrom(ms, r, 0, policy)
    ensures Passes(ms, r, policy) == if |PassFrom(ms, r, 0, policy).order| == |r.order| then 1 else 2
  {
    var first := PassFrom(ms, r, 0, policy);
    if |first.order| != |r.order| {
      PassAllProcessed(ms, first, 0, policy);
    }
  }

  /// Finishing a round in which every module is processed appends nothing.
  lemma FinishAllProcessed(ms: seq<Modules>, d: Round)
    requires RoundOk(ms, d) && forall j :: 0 <= j < |ms| ==> d.processed[j]
    ensures Finish(d).order == d.order
  {
    NoneUnprocessed(d.processed, 0);
  }

  /// When every read succeeds, the order is the index order and `order_modules` leaves the
  /// patchbay as one run of every module in index order over the marked patchbay, with the
  /// marks cleared.
  lemma OrderWhenAllReadable(ms: seq<Modules>, bay: P.Bay, policy: A.ReadPolicy)
    requires bay.Valid() && AllFit(ms, |bay.buffer|) && A.AlwaysReadable(policy)
    ensures OrderSpec(ms, bay, policy).order == Range(0, |ms|)
    ensures OrderSpec(ms, bay, policy).bay
      == A.NoneMarked(RunFrom(ms, Range(0, |ms|), 0, A.AllMarked(bay), policy))
  {
    var start := StartRound(ms, bay);
    FirstPassAllReadable(ms, bay, policy);
    DiscoverAfterFullPass(ms, start, policy);
    FinishAllProcessed(ms, PassFrom(ms, start, 0, policy));
  }

  class Processor {
    const modules: array<Modules>
    const order: array<nat>
    var orderSet: bool

    ghost predicate Valid()
      reads this, order
    {
      order.Length == modules.Length
      && forall k :: 0 <= k < order.Length ==> order[k] < modules.Length
    }

    /// `Processor::new`: the given modules, an all-zero order and no order determined yet.
    constructor (ms: seq<Modules>)
      ensures Valid() && fresh(modules) && fresh(order)
      ensures modules[..] == ms && order[..] == seq(|ms|, _ => 0) && !orderSet
    {
      modules := new Modules[|ms|](i requires 0 <= i < |ms| => ms[i]);
      order := new nat[|ms|](_ => 0);
      orderSet := false;
    }

    /// `order_modules`: determine the run order by repeated passes that keep the modules
    /// whose `process` succeeds, append the rest in index order, and clear the marks.
    method OrderModules(pb: P.Patchbay, policy: A.ReadPolicy)
      requires Valid() && pb.Valid() && AllFit(modules[..], pb.size)
      modifies this, order, pb.buffer, pb.marks
      ensures Valid() && pb.Valid() && orderSet
      ensures order[..] == OrderSpec(modules[..], old(pb.Value()), policy).order
      ensures pb.Value() == OrderSpec(modules[..], old(pb.Value()), policy).bay
      ensures IsPermutation(order[..], modules.Length)
      ensures forall j :: 0 <= j < pb.size ==> !pb.marks[j]
    {
      ghost var bay0 := pb.Value();
      A.SetMarks(pb);
      var processed := new bool[modules.Length](_ => false);
      assert Round(processed[..], order[..0], pb.Value()) == StartRound(modules[..], bay0);
      var index := DiscoverOrder(pb, policy, processed);
      AppendUnprocessed(processed, index);
      orderSet := true;
      A.ClearMarks(pb);
      ghost var spec := OrderSpec(modules[..], bay0, policy);
      assert order[..] == spec.order;
      OrderIsPermutation(modules[..], bay0, policy);
      assert IsPermutation(order[..], modules.Length);
      forall k | 0 <= k < order.Length
        ensures order[k] < modules.Length
      {
        assert order[k] == order[..][k];
      }
    }

    /// The discovery loop of `order_modules`: passes over the modules until one records no
    /// success; returns how many modules were recorded in `order`.
    method DiscoverOrder(pb: P.Patchbay, policy: A.ReadPolicy, processed: array<bool>) returns (index: nat)
      requires order.Length == modules.Length == processed.Length && processed != pb.marks
      requires pb.Valid()
      requires RoundOk(modules[..], Round(processed[..], [], pb.Value()))
      modifies order, processed, pb.buffer, pb.marks
      ensures pb.Valid() && index <= order.Length
      ensures Round(processed[..], order[..index], pb.Value())
        == Discover(modules[..], Round(old(processed[..]), [], old(pb.Value())), policy)
    {
      ghost var ms := modules[..];
      ghost var start := Round(processed[..], [], pb.Value());
      index := 0;
      while true
        invariant pb.Valid() && index <= order.Length
        invariant RoundOk(ms, Round(processed[..], order[..index], pb.Value()))
        invariant Discover(ms, start, policy) == Discover(ms, Round(processed[..], order[..index], pb.Value()), policy)
        decreases order.Length - index
      {
        ghost var before := Round(processed[..], order[..index], pb.Value());
        var next := Pass(pb, policy, processed, index);
        if next == index {
          return;
        }
        index := next;
      }
    }

    /// One pass of the discovery loop: run every module not yet processed and record those
    /// that succeed after the first `index` entries of `order`.
    method Pass(pb: P.Patchbay, policy: A.ReadPolicy, processed: array<bool>, index: nat) returns (next: nat)
      requires order.Length == modules.Length == processed.Length && processed != pb.marks
      requires pb.Valid() && index <= order.Length
      requires RoundOk(modules[..], Round(processed[..], order[..index], pb.Value()))
      modifies order, processed, pb.buffer, pb.marks
      ensures pb.Valid() && index <= next <= order.Length
      ensures Round(processed[..], order[..next], pb.Value())
        == PassFrom(modules[..], Round(old(processed[..]), old(order[..index]), old(pb.Value())), 0, policy)
    {
      ghost var ms := modules[..];
      ghost var before := Round(processed[..], order[..index], pb.Value());
      ghost var cur := before;
      next := index;
      var i := 0;
      while i < modules.Length
        invariant 0 <= i <= modules.Length && pb.Valid() && index <= next <= order.Length
        invariant modules[..] == ms
        invariant cur == Round(processed[..], order[..next], pb.Value())
        invariant PassAt(ms, before, cur, i, policy)
      {
        PassStep(ms, before, cur, i, policy);
        next := VisitModule(pb, policy, processed, i, next, ms, cur);
        cur := Visit(ms, cur, i, policy);
        i := i + 1;
      }
      PassDone(ms, before, cur, policy);
    }

    /// The body of a pass for module `i`.
    method VisitModule(pb: P.Patchbay, policy: A.ReadPolicy, processed: array<bool>, i: nat, index: nat,
                       ghost ms: seq<Modules>, ghost cur: Round) returns (next: nat)
      requires order.Length == modules.Length == processed.Length && processed != pb.marks
      requires pb.Valid() && index <= order.Length && i < modules.Length
      requires ms == modules[..] && cur == Round(processed[..], order[..index], pb.Value()) && RoundOk(ms, cur)
      modifies order, processed, pb.buffer, pb.marks
      ensures pb.Valid() && index <= next <= order.Length
      ensures Round(processed[..], order[..next], pb.Value()) == Visit(ms, cur, i, policy)
    {
      next := index;
      if !processed[i] {
        assert Fits(modules[..][i], pb.size);
        var res := ProcessModule(modules[i], pb, policy);
        if res.Ok? {
          assert |Visit(ms, cur, i, policy).order| == index + 1;
          processed[i] := true;
          order[index] := i;
          assert order[..index + 1] == cur.order + [i];
          next := index + 1;
        }
      }
    }

    /// The closing loop of `order_modules`: append, in index order, every module that was
    /// never processed.
    method AppendUnprocessed(processed: array<bool>, index: nat)
      requires order.Length == processed.Length && index <= order.Length
      requires index + multiset(processed[..])[false] == order.Length
      modifies order
      ensures order[..] == old(order[..index]) + UnprocessedFrom(processed[..], 0)
    {
      ghost var p := processed[..];
      ghost var prefix := order[..index];
      UnprocessedCount(p, 0);
      assert p[0..] == p;
      var k := index;
      var i := 0;
      while i < processed.Length
        invariant 0 <= i <= processed.Length && k <= order.Length
        invariant order[..k] + UnprocessedFrom(p, i) == prefix + UnprocessedFrom(p, 0)
        invariant k + |UnprocessedFrom(p, i)| == order.Length
      {
        if !processed[i] {
          assert UnprocessedFrom(p, i) == [i] + UnprocessedFrom(p, i + 1);
          order[k] := i;
          assert order[..k + 1] == order[..k] + [i];
          k := k + 1;
        } else {
          assert UnprocessedFrom(p, i) == UnprocessedFrom(p, i + 1);
        }
        i := i + 1;
      }
      assert order[..] == order[..k];
    }

    /// `process_modules`: determine the order first if none is set, then run every module
    /// once in that order, ignoring its result.
    method ProcessModules(pb: P.Patchbay, policy: A.ReadPolicy)
      requires Valid() && pb.Valid() && AllFit(modules[..], pb.size)
      modifies this, order, pb.buffer, pb.marks
      ensures Valid() && pb.Valid() && orderSet
      ensures old(orderSet) ==>
        order[..] == old(order[..]) && pb.Value() == RunFrom(modules[..], order[..], 0, old(pb.Value()), policy)
      ensures !old(orderSet) ==> order[..] == OrderSpec(modules[..], old(pb.Value()), policy).order
      ensures !old(orderSet) ==>
        pb.Value() == RunFrom(modules[..], order[..], 0, OrderSpec(modules[..], old(pb.Value()), policy).bay, policy)
    {
      if !orderSet {
        OrderModules(pb, policy);
      }
      RunOrder(pb, policy);
    }

    /// The loop of `process_modules`: every module run once, in the order set.
    method RunOrder(pb: P.Patchbay, policy: A.ReadPolicy)
      requires Valid() && pb.Valid() && AllFit(modules[..], pb.size)
      modifies pb.buffer, pb.marks
      ensures pb.Valid() && pb.Value() == RunFrom(modules[..], order[..], 0, old(pb.Value()), policy)
    {
      ghost var ms := modules[..];
      ghost var ord := order[..];
      ghost var bay := pb.Value();
      ghost var cur := bay;
      var k := 0;
      while k < order.Length
        invariant 0 <= k <= order.Length && pb.Valid()
        invariant cur == pb.Value() && cur.Valid() && |cur.buffer| == |bay.buffer|
        invariant RunFrom(ms, ord, 0, bay, policy) == RunFrom(ms, ord, k, cur, policy)
      {
        assert Fits(ms[ord[k]], pb.size);
        RunStep(ms, ord, k, cur, policy);
        cur := Step(ms[ord[k]], cur, policy).bay;
        var _ := ProcessModule(modules[order[k]], pb, policy);
        k := k + 1;
      }
    }
  }

  /// Running the module at position `k` of the order moves the run on by one.
  lemma RunStep(ms: seq<Modules>, order: seq<nat>, k: nat, bay: P.Bay, policy: A.ReadPolicy)
    requires bay.Valid() && AllFit(ms, |bay.buffer|) && k < |order|
    requires forall j :: 0 <= j < |order| ==> order[j] < |ms|
    ensures RunFrom(ms, order, k, bay, policy) == RunFrom(ms, order, k + 1, Step(ms[order[k]], bay, policy).bay, policy)
  {
  }

  /// Running the three modules listed in `order`, spelled out.
  lemma RunThree(ms: seq<Modules>, order: seq<nat>, bay: P.Bay, policy: A.ReadPolicy)
    requires |order| == 3 && (forall j :: 0 <= j < 3 ==> order[j] < |ms|)
    requires bay.Valid() && AllFit(ms, |bay.buffer|)
    ensures RunFrom(ms, order, 0, bay, policy)
      == Step(ms[order[2]], Step(ms[order[1]], Step(ms[order[0]], bay, policy).bay, policy).bay, policy).bay
  {
    var b1 := Step(ms[order[0]], bay, policy).bay;
    var b2 := Step(ms[order[1]], b1, policy).bay;
    var b3 := Step(ms[order[2]], b2, policy).bay;
    assert RunFrom(ms, order, 2, b2, policy) == b3;
  }

  /// No slot is pending.
  predicate NonePending(bay: P.Bay) {
    forall j :: 0 <= j < |bay.marks| ==> !bay.marks[j]
  }

  /// Once `clear_marks` has run, every read succeeds under `Unmarked`, and a module run
  /// leaves no slot pending; so every tick of `process_modules` runs every module.
  lemma ClearedReadsSucceed(m: Modules, bay: P.Bay)
    requires bay.Valid() && Fits(m, |bay.buffer|) && NonePending(bay)
    ensures Step(m, bay, A.Unmarked).result.Ok?
    ensures NonePending(Step(m, bay, A.Unmarked).bay)
  {
    if m.Mix? {
      M.SumReadsMeaning(Connections(m.inputs), bay, A.Unmarked);
    }
  }

  /// The processor's test with a single fixed module: after one tick its slot holds 0.8.
  method SingleFixedExample() returns (result: real)
    ensures result == 0.8
  {
    var pb := new P.Patchbay(32);
    var point := pb.Point();
    var p := point.value;
    var processor := new Processor([Fixed(0.8, p)]);
    SingleFixedRun(processor.modules[..], pb.Value(), p);
    processor.ProcessModules(pb, A.Unmarked);
    result := pb.Get(p.Signal());
  }

  /// The tick of the single-fixed test: the one module succeeds in the first pass, and its
  /// run writes 0.8.
  lemma SingleFixedRun(ms: seq<Modules>, bay: P.Bay, p: P.PatchPoint)
    requires ms == [Fixed(0.8, p)] && bay.Valid() && p.id < |bay.buffer|
    ensures AllFit(ms, |bay.buffer|)
    ensures OrderSpec(ms, bay, A.Unmarked).order == [0]
    ensures RunFrom(ms, [0], 0, OrderSpec(ms, bay, A.Unmarked).bay, A.Unmarked).buffer[p.id] == 0.8
  {
    var r0 := StartRound(ms, bay);
    var r1 := Visit(ms, r0, 0, A.Unmarked);
    assert r1.processed == [true] && r1.order == [0];
    assert PassFrom(ms, r0, 0, A.Unmarked) == r1;
    DiscoverAfterFullPass(ms, r0, A.Unmarked);
    FinishAllProcessed(ms, r1);
    var b := OrderSpec(ms, bay, A.Unmarked).bay;
    RunStep(ms, [0], 0, b, A.Unmarked);
  }

  /// The modules of the processor's ordering test: two divides feeding each other from a
  /// fixed 0.8, listed before it.
  function OrderingModules(): (ms: seq<Modules>)
    ensures |ms| == 3 && forall size :: 3 <= size ==> AllFit(ms, size)
  {
    [Divide(4.0, 2, P.PatchPoint(1)), Divide(2.0, 1, P.PatchPoint(0)), Fixed(0.8, P.PatchPoint(2))]
  }

  /// The first discovery pass of the ordering test: both divides read a slot that is still
  /// pending and fail, so only the fixed module is recorded.
  lemma OrderingFirstPass(bay: P.Bay)
    requires bay.Valid() && |bay.buffer| == 32
    ensures PassFrom(OrderingModules(), StartRound(OrderingModules(), bay), 0, A.Unmarked)
      == Round([false, false, true], [2], A.Store(A.AllMarked(bay), 2, 0.8))
  {
    var ms := OrderingModules();
    var r0 := StartRound(ms, bay);
    assert r0.processed == [false, false, false];
    assert Visit(ms, r0, 0, A.Unmarked) == r0;
    assert Visit(ms, r0, 1, A.Unmarked) == r0;
    var r1 := Visit(ms, r0, 2, A.Unmarked);
    assert r1 == Round([false, false, true], [2], A.Store(A.AllMarked(bay), 2, 0.8));
    assert PassFrom(ms, r0, 2, A.Unmarked) == r1;
  }

  /// The round after the first pass of the ordering test is consistent.
  lemma OrderingFirstRoundOk(b1: P.Bay)
    requires b1.Valid() && |b1.buffer| == 32
    ensures RoundOk(OrderingModules(), Round([false, false, true], [2], b1))
  {
    assert multiset([false, false, true]) == multiset{false, false, true};
  }

  /// Visiting an unprocessed module whose run succeeds records it.
  lemma VisitSucceeds(ms: seq<Modules>, r: Round, i: nat, policy: A.ReadPolicy)
    requires RoundOk(ms, r) && i < |ms| && !r.processed[i] && Step(ms[i], r.bay, policy).result.Ok?
    ensures Visit(ms, r, i, policy) == Round(r.processed[i := true], r.order + [i], Step(ms[i], r.bay, policy).bay)
  {
  }

  /// The two visits that succeed in the second pass of the ordering test: the first divide
  /// now reads the fixed module's 0.8 and writes 0.2, which the second divide reads in the
  /// same pass and halves.
  lemma OrderingSecondVisits(b1: P.Bay)
    requires b1.Valid() && |b1.buffer| == 32 && b1.buffer[2] == 0.8 && !b1.marks[2]
    ensures RoundOk(OrderingModules(), Round([false, false, true], [2], b1))
    ensures var r2 := Visit(OrderingModules(), Round([false, false, true], [2], b1), 0, A.Unmarked);
      Visit(OrderingModules(), r2, 1, A.Unmarked)
        == Round([true, true, true], [2, 0, 1], A.Store(A.Store(b1, 1, 0.2), 0, 0.1))
  {
    var ms := OrderingModules();
    var r1 := Round([false, false, true], [2], b1);
    OrderingFirstRoundOk(b1);
    var b2 := A.Store(b1, 1, 0.2);
    assert Step(ms[0], b1, A.Unmarked) == Outcome(Ok(()), b2);
    VisitSucceeds(ms, r1, 0, A.Unmarked);
    var r2 := Visit(ms, r1, 0, A.Unmarked);
    assert Step(ms[1], b2, A.Unmarked) == Outcome(Ok(()), A.Store(b2, 0, 0.1));
    VisitSucceeds(ms, r2, 1, A.Unmarked);
    assert Visit(ms, r2, 1, A.Unmarked).processed == [true, true, true];
  }

  /// The second discovery pass of the ordering test records both divides.
  lemma OrderingSecondPass(b1: P.Bay)
    requires b1.Valid() && |b1.buffer| == 32 && b1.buffer[2] == 0.8 && !b1.marks[2]
    ensures RoundOk(OrderingModules(), Round([false, false, true], [2], b1))
    ensures PassFrom(OrderingModules(), Round([false, false, true], [2], b1), 0, A.Unmarked)
      == Round([true, true, true], [2, 0, 1], A.Store(A.Store(b1, 1, 0.2), 0, 0.1))
  {
    var ms := OrderingModules();
    OrderingSecondVisits(b1);
    var r3 := Round([true, true, true], [2, 0, 1], A.Store(A.Store(b1, 1, 0.2), 0, 0.1));
    assert PassFrom(ms, r3, 2, A.Unmarked) == r3;
  }

  /// Discovery of the ordering test: the fixed module in the first pass, both divides in
  /// the second, and a third pass that records nothing; the order found is [2, 0, 1].
  lemma OrderingDiscovers(bay: P.Bay)
    requires bay.Valid() && |bay.buffer| == 32
    ensures var b3 := A.Store(A.Store(A.Store(A.AllMarked(bay), 2, 0.8), 1, 0.2), 0, 0.1);
      Discover(OrderingModules(), StartRound(OrderingModules(), bay), A.Unmarked)
        == Round([true, true, true], [2, 0, 1], b3)
  {
    var ms := OrderingModules();
    var b1 := A.Store(A.AllMarked(bay), 2, 0.8);
    var r1 := Round([false, false, true], [2], b1);
    OrderingFirstPass(bay);
    OrderingSecondPass(b1);
    DiscoverAfterFullPass(ms, r1, A.Unmarked);
    assert Discover(ms, StartRound(ms, bay), A.Unmarked) == Discover(ms, r1, A.Unmarked);
  }

  /// The ordering test's discovery makes three passes: the divides, which fail in the
  /// first pass, are recorded in the second, and the third records nothing.
  lemma OrderingPasses(bay: P.Bay)
    requires bay.Valid() && |bay.buffer| == 32
    ensures Passes(OrderingModules(), StartRound(OrderingModules(), bay), A.Unmarked) == 3
  {
    var ms := OrderingModules();
    var b1 := A.Store(A.AllMarked(bay), 2, 0.8);
    var r1 := Round([false, false, true], [2], b1);
    OrderingFirstPass(bay);
    OrderingSecondPass(b1);
    DiscoverAfterFullPass(ms, r1, A.Unmarked);
    assert Passes(ms, StartRound(ms, bay), A.Unmarked) == 1 + Passes(ms, r1, A.Unmarked);
  }

  /// A tick of the ordering test in the order [2, 0, 1] with no slot pending: 0.8 / 4 = 0.2
  /// reaches the second divide, which writes 0.2 / 2 = 0.1.
  lemma OrderingTick(bay: P.Bay)
    requires bay.Valid() && |bay.buffer| == 32 && NonePending(bay)
    ensures RunFrom(OrderingModules(), [2, 0, 1], 0, bay, A.Unmarked).buffer[0] == 0.1
  {
    var ms := OrderingModules();
    RunThree(ms, [2, 0, 1], bay, A.Unmarked);
    ClearedReadsSucceed(ms[2], bay);
    var t1 := Step(ms[2], bay, A.Unmarked).bay;
    ClearedReadsSucceed(ms[0], t1);
    var t2 := Step(ms[0], t1, A.Unmarked).bay;
    assert t2.buffer[1] == 0.2;
    ClearedReadsSucceed(ms[1], t2);
  }

  /// `order_modules` on the ordering test settles on [2, 0, 1] and leaves no slot pending.
  lemma OrderingOrder(bay: P.Bay)
    requires bay.Valid() && |bay.buffer| == 32
    ensures var s := OrderSpec(OrderingModules(), bay, A.Unmarked);
      s.order == [2, 0, 1] && s.bay.Valid() && |s.bay.buffer| == 32 && NonePending(s.bay)
  {
    var ms := OrderingModules();
    OrderingDiscovers(bay);
    FinishAllProcessed(ms, Discover(ms, StartRound(ms, bay), A.Unmarked));
  }

  /// The processor's ordering test: 0.8 divided by 4 and then by 2 reaches 0.1 in one tick,
  /// because discovery put the fixed module first and the divides after it.
  method OrderingExample() returns (result: real)
    ensures result == 0.1
  {
    var pb := new P.Patchbay(32);
    var d2, d1, f := ThreePoints(pb);
    var processor := new Processor([Divide(4.0, 2, d1.value), Divide(2.0, 1, d2.value), Fixed(0.8, f.value)]);
    ghost var ms := processor.modules[..];
    assert ms == OrderingModules();
    ghost var b0 := pb.Value();
    OrderingOrder(b0);
    processor.ProcessModules(pb, A.Unmarked);
    OrderingTick(OrderSpec(ms, b0, A.Unmarked).bay);
    result := pb.Get(d2.value.Signal());
  }

  /// The modules of the processor's circular test: a mix of a fixed 0.8 and half of the
  /// mix's own previous output.
  function CircularModules(): (ms: seq<Modules>)
    ensures |ms| == 3 && forall size :: 3 <= size ==> AllFit(ms, size)
  {
    [Mix([2, 1], P.PatchPoint(0)), Fixed(0.8, P.PatchPoint(2)), Divide(2.0, 0, P.PatchPoint(1))]
  }

  /// The first discovery pass of the circular test: the mix and the divide read slots that
  /// are still pending, so only the fixed module is recorded.
  lemma CircularFirstPass(bay: P.Bay)
    requires bay.Valid() && |bay.buffer| == 32
    ensures PassFrom(CircularModules(), StartRound(CircularModules(), bay), 0, A.Unmarked)
      == Round([false, true, false], [1], A.Store(A.AllMarked(bay), 2, 0.8))
  {
    var ms := CircularModules();
    var r0 := StartRound(ms, bay);
    assert r0.processed == [false, false, false];
    M.SumReadsMeaning(Connections([2, 1]), r0.bay, A.Unmarked);
    assert Visit(ms, r0, 0, A.Unmarked) == r0;
    var b1 := A.Store(r0.bay, 2, 0.8);
    assert Step(ms[1], r0.bay, A.Unmarked) == Outcome(Ok(()), b1);
    VisitSucceeds(ms, r0, 1, A.Unmarked);
    var r1 := Visit(ms, r0, 1, A.Unmarked);
    assert r1.processed == [false, true, false];
    assert A.GetSample(b1, A.Unmarked, 0).Err?;
    assert Visit(ms, r1, 2, A.Unmarked) == r1;
    assert PassFrom(ms, r0, 1, A.Unmarked) == r1;
  }

  /// The second discovery pass of the circular test records nothing: the mix still waits
  /// on the divide and the divide on the mix.
  lemma CircularSecondPass(b1: P.Bay)
    requires b1.Valid() && |b1.buffer| == 32 && b1.marks[0] && b1.marks[1]
    requires RoundOk(CircularModules(), Round([false, true, false], [1], b1))
    ensures PassFrom(CircularModules(), Round([false, true, false], [1], b1), 0, A.Unmarked)
      == Round([false, true, false], [1], b1)
  {
    var ms := CircularModules();
    var r1 := Round([false, true, false], [1], b1);
    M.SumReadsMeaning(Connections([2, 1]), b1, A.Unmarked);
    assert Visit(ms, r1, 0, A.Unmarked) == r1;
    assert Visit(ms, r1, 1, A.Unmarked) == r1;
    assert Visit(ms, r1, 2, A.Unmarked) == r1;
  }

  /// Discovery of the circular test stops after the second pass, with only the fixed
  /// module recorded.
  lemma CircularDiscovers(bay: P.Bay)
    requires bay.Valid() && |bay.buffer| == 32
    ensures Discover(CircularModules(), StartRound(CircularModules(), bay), A.Unmarked)
      == Round([false, true, false], [1], A.Store(A.AllMarked(bay), 2, 0.8))
    ensures Passes(CircularModules(), StartRound(CircularModules(), bay), A.Unmarked) == 2
  {
    var ms := CircularModules();
    var b1 := A.Store(A.AllMarked(bay), 2, 0.8);
    var r1 := Round([false, true, false], [1], b1);
    CircularFirstPass(bay);
    CircularSecondPass(b1);
    assert Discover(ms, StartRound(ms, bay), A.Unmarked) == Discover(ms, r1, A.Unmarked);
    assert Passes(ms, StartRound(ms, bay), A.Unmarked) == 1 + Passes(ms, r1, A.Unmarked);
  }

  /// The order of the circular test: the fixed module, then the two modules that never
  /// succeeded in index order.
  lemma CircularOrder(bay: P.Bay)
    requires bay.Valid() && |bay.buffer| == 32
    ensures var s := OrderSpec(CircularModules(), bay, A.Unmarked);
      s.order == [1, 0, 2] && s.bay.Valid() && |s.bay.buffer| == 32 && NonePending(s.bay)
      && s.bay.buffer[2] == 0.8 && s.bay.buffer[1] == bay.buffer[1]
  {
    var b1 := A.Store(A.AllMarked(bay), 2, 0.8);
    var d := Round([false, true, false], [1], b1);
    CircularDiscovers(bay);
    CircularTail(d.processed, d.order);
    assert Finish(d).order == d.order + UnprocessedFrom(d.processed, 0);
  }

  /// The modules of the circular test that never succeed, in index order.
  lemma CircularTail(p: seq<bool>, found: seq<nat>)
    requires p == [false, true, false] && found == [1]
    ensures found + UnprocessedFrom(p, 0) == [1, 0, 2]
  {
    assert UnprocessedFrom(p, 2) == [2];
  }

  /// A tick of the circular test in the order [1, 0, 2] with no slot pending: the fixed
  /// module writes 0.8, the mix adds the divide slot as it was, and the divide halves the
  /// mix.
  lemma CircularRun(bay: P.Bay) returns (b: P.Bay)
    requires bay.Valid() && |bay.buffer| == 32 && NonePending(bay)
    ensures b == RunFrom(CircularModules(), [1, 0, 2], 0, bay, A.Unmarked)
    ensures b.Valid() && |b.buffer| == 32 && NonePending(b)
    ensures b.buffer[0] == 0.8 + bay.buffer[1] && b.buffer[2] == 0.8 && b.buffer[1] == b.buffer[0] / 2.0
  {
    var ms := CircularModules();
    RunThree(ms, [1, 0, 2], bay, A.Unmarked);
    ClearedReadsSucceed(ms[1], bay);
    var t1 := Step(ms[1], bay, A.Unmarked).bay;
    ClearedReadsSucceed(ms[0], t1);
    StepWrites(ms[0], t1, A.Unmarked);
    var t2 := Step(ms[0], t1, A.Unmarked).bay;
    ClearedReadsSucceed(ms[2], t2);
    b := RunFrom(ms, [1, 0, 2], 0, bay, A.Unmarked);
  }

  /// The processor's circular test: 0.8 on the first tick and 1.2 on the second.
  method CircularExample() returns (first: real, second: real)
    ensures first == 0.8 && second == 1.2
  {
    var pb := new P.Patchbay(32);
    var mixPoint, dividePoint, fixedPoint := ThreePoints(pb);
    var processor := new Processor([Mix([2, 1], mixPoint.value), Fixed(0.8, fixedPoint.value), Divide(2.0, 0, dividePoint.value)]);
    ghost var ms := processor.modules[..];
    assert ms == CircularModules();
    ghost var b0 := pb.Value();
    CircularOrder(b0);
    processor.ProcessModules(pb, A.Unmarked);
    ghost var t1 := CircularRun(OrderSpec(ms, b0, A.Unmarked).bay);
    first := pb.Get(mixPoint.value.Signal());
    processor.ProcessModules(pb, A.Unmarked);
    ghost var t2 := CircularRun(t1);
    second := pb.Get(mixPoint.value.Signal());
  }

  /// The first three points taken from a fresh patchbay are its first three slots.
  method ThreePoints(pb: P.Patchbay) returns (a: Option<P.PatchPoint>, b: Option<P.PatchPoint>, c: Option<P.PatchPoint>)
    requires pb.Valid() && pb.size == 32 && pb.marks[..] == seq(32, _ => false)
    modifies pb.marks
    ensures pb.Valid()
    ensures a == Some(P.PatchPoint(0)) && b == Some(P.PatchPoint(1)) && c == Some(P.PatchPoint(2))
  {
    a := pb.Point();
    b := pb.Point();
    assert !pb.marks[2];
    c := pb.Point();
  }
}
