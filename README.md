# screech in Dafny

A Dafny model of the audio-routing engine `screech`. The repository holds three generations of
the engine, and the model follows each of them one source file at a time.

- **The `screech` crate**, the newest generation.
  - A `Patchbay` is a fixed array of sample slots with one mark per slot. It is modelled as a
    class over two arrays (`ScreechPatchbay`).
  - A `Signal` addresses a slot, a fixed value or ground (`ScreechSignal`).
  - The `Module` contract and the concrete modules `Mix`, `Vca`, `Envelope` and `Clock` each
    get a module of their own.
  - The `Processor` discovers a run order by repeated passes, then runs every module once per
    tick in that order (`ScreechProcessor`). The module union that `#[modularize]` generates
    is a datatype with a forwarding match.
- **The `src/core` engine**.
  - A depth-first topological sort with cycle detection (`CoreGraph`).
  - `Primary::sample`, which orders the sources by their dependencies, samples them frame by
    frame and interleaves mono or stereo output (`Primary`).
  - Three trackers: a fixed array, a two-dimensional grid and a hash map (`CoreTracker`,
    `CoreBasicTracker`, `CoreDynamicTracker`).
  - The `Stream` and `Signal` combinators (`CoreStream`, `AudioSignal`).
  - The `basic` sources `Clip`, `Slew` and `Track`.
- **The oldest `src/` layer**.
  - The reversed topological sort (`Graph`).
  - The in-place `Stream` (`Stream`) and the buffer-filling `Sample::play` (`Sample`).
  - The string-keyed trackers with their connection lists (`BasicTracker`, `DynamicTracker`,
    `Routing`).
  - The `ModSource` lookup (`ModSource`).
- **Shared helpers**.
  - `Wrappers` holds `Option` and `Result`.
  - `Retain` models `Vec::retain`.
  - `Modulo` holds remainder facts.

Code that changes state in place is modelled imperatively: classes with `modifies` frames,
arrays, and loops with invariants. Each such method is proved against a specification
function, and the properties the source promises are proved about that function as lemmas.
Pure code is modelled as functions and lemmas.

Modelling choices:

- Every `f32` sample is a `real`, so the model has no rounding.
- A test whose expected values depend on f32 rounding is stated with the exact real values.
- A hash map's iteration order is left open. It is an explicit parameter: any list that
  enumerates the keys once each (`IsKeyOrder`).
- Library calls are parameters:
  - the ratio `10^(db/20)` that `powf` computes;
  - linear interpolation in `resample_linear`.
- `processor.rs`, `mix.rs` and `vca.rs` call `get_sample`, `set_sample` and `set_marks`, which
  the patchbay source does not define. They are stated on the patchbay's contents, with a
  mark meaning that a slot is pending, that is, not yet written since `set_marks`:
  - a read succeeds or fails as a `ReadPolicy` over the marks decides, and then yields the
    slot's sample;
  - `set_sample` writes the slot and clears its mark (`ScreechPatchAccess.Store`);
  - `set_marks` sets every mark, and `clear_marks` clears every mark.
- The processor's tests run under the policy `Unmarked`: a pending slot cannot be read.
  Under it, a module fails in a discovery pass while a slot it reads is still pending, and
  it is recorded in a later pass once another module has written that slot. In the
  ordering test both divides fail in the first pass and are recorded in the second, so the
  order is [2, 0, 1]. In the circular test the mix and the divide wait on each other and
  are never recorded. Once `clear_marks` has run, every read succeeds, so every tick runs
  every module (`ClearedReadsSucceed`).
- `Patchbay::set` in `patchbay.rs` marks the slot it writes, so it is a different
  operation from `set_sample`. The clock and the envelope call `set`.
- `src/core/signal.rs` is not part of this model. The core engine's `Signal` is assumed to
  be the one in `src/signal.rs`: the core code calls the same operations (`mix`, `mix_into`,
  `map_to_stereo`, `sum_points`, `get_point`, `silence`) on it, but the core's own
  definitions could not be compared.
- The older trackers' output `Signal` (a stream-valued type) is modelled as its vector of
  points.

Where the documentation and the code disagree, the model follows the code:

- `Slew::process` writes the right channel's new value into the left state.
- `Stream::slice` on a fixed stream ignores the requested length.
- The ADSR attack from 0.0 never leaves its first stage.
- `Track` panning runs the other way from its documentation. `src/basic/track.rs:64-68`
  says `-1.0` raises the left channel by 6 dB. Lines 89 and 93 give the left channel
  `panning_to_db(panning)` and the right one `panning_to_db(-panning)`, so `1.0` raises the
  left channel and `-1.0` the right one. `Track.HardPanning` states the code's direction.
- The clip tests in `src/basic/clip.rs` drive the clip through a `Primary::<N>::new(48_000)`
  API, which `src/core/primary.rs` does not have. They are stated on the clip's own run of
  signals (`Clip.Play`).

## Model

| member | source | states |
|---|---|---|
| ScreechPatchbay.Bay.Write | screech/src/patchbay.rs:51-55 | `set` on the contents: the slot holds the new sample and is marked, and every other slot and mark stays as it was |
| ScreechPatchbay.GetIn | screech/src/patchbay.rs:43-49 | a patch point reads its slot, a fixed signal its value, ground 0.0 |
| ScreechPatchbay.CheckIn | screech/src/patchbay.rs:58-64 | only a patch point can be out of date: a signal is up to date exactly when it is not a patch point or its slot is marked |
| ScreechPatchbay.FirstUnmarked | screech/src/patchbay.rs:31-40 | a slot found is in range, at or after the starting slot, and unmarked |
| ScreechPatchbay.FirstUnmarkedIsLowest | screech/src/patchbay.rs:31-40 | the slot `point()` looks for is the lowest unmarked one, and there is none exactly when every slot is marked |
| ScreechPatchbay.SuccessivePointsIncrease | screech/src/patchbay.rs:31-40 | two allocations with no `clear_marks` between them give strictly increasing, hence distinct, slots |
| ScreechPatchbay.Patchbay.constructor | screech/src/patchbay.rs:23-28 | `new` holds 0.0 in every slot and no mark |
| ScreechPatchbay.Patchbay.Point | screech/src/patchbay.rs:31-40 | `point` returns the lowest unmarked slot and marks it, and nothing else; `None` exactly when every mark is set; a fresh point already checks as up to date |
| ScreechPatchbay.Patchbay.Set | screech/src/patchbay.rs:51-55 | `set` writes the slot and marks it, leaving every other slot and mark; the slot then reads back the sample and checks as up to date |
| ScreechPatchbay.Patchbay.ClearMarks | screech/src/patchbay.rs:66-70 | every mark cleared and every sample kept; the next `point` hands out slot 0 again |
| ScreechPatchbay.PatchPoint.Signal | screech/src/patchbay.rs:82-84 | the read handle of a point addresses the point's own slot |
| ScreechPatchbay.Patchbay.Get | screech/src/patchbay.rs:43-49 | a patch point reads its slot, a fixed signal its value and ground 0.0 |
| ScreechPatchbay.Patchbay.Check | screech/src/patchbay.rs:58-64 | a patch point is up to date exactly when its slot is marked; a fixed signal and ground always are |
| ScreechPatchbay.PatchbayExample | screech/src/patchbay.rs:5-15 | a fresh point reads 0.0, and 1.0 after it is set to 1.0 |
| ScreechPatchbay.SignalExample | screech/src/signal.rs:8-23 | a point set to 0.4 reads 0.4, `Fixed(0.6)` reads 0.6 and `None` reads 0.0 |
| ScreechPatchAccess.GetSample | screech/src/processor.rs:134 | a read succeeds exactly when the read policy allows it, and then yields the slot's sample; a failure names the slot |
| ScreechPatchAccess.ReadSample | screech/src/processor.rs:134 | a module read succeeds exactly when the read policy allows it and then yields the slot's sample |
| ScreechPatchAccess.SetMarks | screech/src/processor.rs:32 | `set_marks` sets every mark and keeps the samples |
| ScreechPatchAccess.ClearMarks | screech/src/processor.rs:75 | `clear_marks` clears every mark and keeps the samples |
| ScreechPatchAccess.Store | screech/src/processor.rs:116 | `set_sample` on the contents: the slot holds the new sample and is no longer pending, and every other slot and mark stays as it was |
| ScreechPatchAccess.SetSample | screech/src/processor.rs:132-135 | `set_sample` on a live patchbay leaves the contents `Store` describes |
| ScreechPatchAccess.PendingUntilWritten | screech/src/processor.rs:132-135 | under `Unmarked`, after `set_marks` a slot cannot be read until it is written, and then reads back the sample while the other slots stay unreadable; after `clear_marks` every slot reads its sample |
| ScreechModule.DefaultIsReady | screech/src/module.rs:43-45 | the default `is_ready` holds for any patchbay, and only reads it |
| ScreechModule.RampStep | screech/src/module.rs:26-31 | the documented oscillator adds its increment and wraps by -2.0 exactly when the sum reaches 1.0; a phase in [-1, 1) stays there for an increment in [0, 2) |
| ScreechModule.ProcessSaw | screech/src/module.rs:23-35 | one `process` of the documented oscillator: the phase advances by 2 * frequency / SAMPLE_RATE and wraps, and only the output slot is written, with the new phase |
| ScreechMix.ConnectedSum | screech/src/modules/mix.rs:26-32 | the sum of the connected inputs' samples, 0.0 when no input is connected |
| ScreechMix.SumReads | screech/src/modules/mix.rs:26-32 | with no input connected the loop makes no read and yields `Ok(0.0)` |
| ScreechMix.SumReadsMeaning | screech/src/modules/mix.rs:25-33 | the read loop succeeds exactly when every connected input is readable, then yields the sum of the connected inputs, and otherwise fails with the error of the first unreadable input |
| ScreechMix.SumReadsStopsAtError | screech/src/modules/mix.rs:29-31 | once a read fails the loop returns that error: the later inputs do not matter |
| ScreechMix.UnconnectedSumIsZero | screech/src/modules/mix.rs:27-33 | with no input connected the sum is 0.0 |
| ScreechMix.Mix.constructor | screech/src/modules/mix.rs:12-17 | `new` leaves all 128 inputs disconnected |
| ScreechMix.Mix.AddInput | screech/src/modules/mix.rs:19-21 | `add_input` connects exactly slot `index` and leaves the other 127 |
| ScreechMix.Mix.Process | screech/src/modules/mix.rs:25-37 | `process` writes the sum of the reads to the output slot, which is no longer pending, and returns `Ok`; on a failed read it returns that error and leaves the patchbay untouched |
| ScreechVca.Product | screech/src/modules/vca.rs:24-27 | on success the value is input times modulator; a failure names the input slot or the modulator slot |
| ScreechVca.ProductMeaning | screech/src/modules/vca.rs:22-30 | the product succeeds exactly when both slots are readable and is then input times modulator; otherwise the error is the input's when it is unreadable, else the modulator's |
| ScreechVca.Vca.constructor | screech/src/modules/vca.rs:12-18 | `new` keeps the modulator, input and output it is given |
| ScreechVca.Vca.Process | screech/src/modules/vca.rs:22-30 | on success the output slot receives input times modulator, is no longer pending, and `Ok(())` is returned; on a failed read the error is returned and the patchbay is untouched |
| ScreechEnvelope.CurveStep | screech/src/modules/envelope.rs:45-91 | `process_curve` moves the stage at most one forward; past the curve's last stage it only switches the envelope off; the curve and the previous trigger never change |
| ScreechEnvelope.Run | screech/src/modules/envelope.rs:45-91 | running the curve never touches the remembered trigger or the curve; past the last stage the first sample switches the envelope off and later samples change nothing |
| ScreechEnvelope.StageNeverDecreases | screech/src/modules/envelope.rs:49-89 | however many samples the curve runs, the stage never moves back and the curve never changes |
| ScreechEnvelope.AdsrAttackFromZeroStalls | screech/src/modules/envelope.rs:66-71 | an ADSR attack from 0.0 multiplies 0.0 by (1 + a) and so never leaves stage 0 |
| ScreechEnvelope.ArFinishes | screech/src/modules/envelope.rs:63 | an AR envelope past its release is switched off and then stays as it is |
| ScreechEnvelope.Triggered | screech/src/modules/envelope.rs:101 | a trigger fires only on a rise: the new sample is above the previous one |
| ScreechEnvelope.Step | screech/src/modules/envelope.rs:99-129 | a trigger fires on a rising edge through 0.5; an inactive envelope that fires becomes active at stage 0 and outputs 0.0; one that does not fire outputs 0.0 and keeps its state; an active one becomes one `CurveStep` of its fields, restarted at stage 0 when it fires, and outputs the new value; the trigger read is remembered |
| ScreechEnvelope.Steps | screech/src/modules/envelope.rs:99-129 | repeated `process` calls reading the same trigger keep the curve and, after at least one call, remember that trigger |
| ScreechEnvelope.HeldTriggerFollowsCurve | screech/src/modules/envelope.rs:99-129 | while the trigger is held, any number of `process` calls move a running (or finished) envelope exactly as that many `process_curve` calls do |
| ScreechEnvelope.Envelope.constructor | screech/src/modules/envelope.rs:19-29 | `new`: inactive AR(0.1, 0.1) at stage 0, value 0.0, previous trigger 0.0 |
| ScreechEnvelope.Envelope.SetAr | screech/src/modules/envelope.rs:35-38 | `set_ar` changes only the curve |
| ScreechEnvelope.Envelope.SetAdsr | screech/src/modules/envelope.rs:40-43 | `set_adsr` changes only the curve |
| ScreechEnvelope.Envelope.ProcessCurve | screech/src/modules/envelope.rs:45-91 | the fields after `process_curve` are one curve step of the fields before |
| ScreechEnvelope.Envelope.IsReady | screech/src/modules/envelope.rs:95-97 | `is_ready` is exactly `check(trigger)`, and always holds for a fixed or grounded trigger |
| ScreechEnvelope.Envelope.Process | screech/src/modules/envelope.rs:99-129 | `process` reads the trigger, runs the stage machine with the patchbay size as sample rate, and writes only its own output slot |
| ScreechClock.Increment | screech/src/modules/clock.rs:26 | the increment times the sample rate times 60 is the bpm, so one beat advances the phase by 1.0; a non-negative bpm never moves the phase back |
| ScreechClock.Advance | screech/src/modules/clock.rs:26-30 | the phase adds the increment and wraps by -2.0 exactly when it reaches 2.0; a phase in [0, 2) stays there for an increment in [0, 2) |
| ScreechClock.Pulse | screech/src/modules/clock.rs:32 | the pulse is 1.0 exactly when the phase is at most 1.0 and 0.0 exactly when it is above |
| ScreechClock.Iterate | screech/src/modules/clock.rs:26-30 | after `n` samples the phase lies between the unwrapped sum and that sum less 2.0 per sample: each sample wraps at most once |
| ScreechClock.PhaseStaysInRange | screech/src/modules/clock.rs:25-35 | the phase stays in [0, 2) however many samples run |
| ScreechClock.Clock.constructor | screech/src/modules/clock.rs:11-17 | `new` starts the phase at 0.0 |
| ScreechClock.Clock.Process | screech/src/modules/clock.rs:25-35 | `process` advances the phase by (1 / SAMPLE_RATE) * (bpm / 60) with wrap-around and writes the pulse to the clock's own slot only |
| ScreechProcessor.Step | screech-macro/src/lib.rs:33-37 | the generated `process` forwards to the variant: a failed run leaves the patchbay as it was, a successful one writes only the module's output slot and clears its mark, every read succeeding makes every run succeed, and `Fixed` always succeeds |
| ScreechProcessor.StepWrites | screech/src/processor.rs:111-159 | a successful run writes the constant (`Fixed`), the input divided by the divisor (`Divide`) or the sum of the two inputs (`Mix`) |
| ScreechProcessor.IsReady | screech-macro/src/lib.rs:27-31 | the generated `is_ready` holds for every variant, none of which overrides the default |
| ScreechProcessor.ProcessModule | screech-macro/src/lib.rs:33-37 | running a module on a live patchbay gives the result and contents `Step` describes |
| ScreechProcessor.RecordOk | screech/src/processor.rs:46-55 | marking an unprocessed module processed and appending it keeps `order[..index]` listing exactly the processed modules, once each |
| ScreechProcessor.Visit | screech/src/processor.rs:40-58 | one iteration of a pass keeps the round consistent; it skips a processed module, and otherwise appends the module exactly when it was unprocessed and succeeded |
| ScreechProcessor.PassFrom | screech/src/processor.rs:40-59 | a pass keeps the round consistent, only appends to the order, and leaves the flags as they were when it records nothing |
| ScreechProcessor.PassStep | screech/src/processor.rs:40-59 | each iteration moves a pass on by one module towards its result |
| ScreechProcessor.PassDone | screech/src/processor.rs:40-59 | a pass that has visited every module has reached its result |
| ScreechProcessor.Discover | screech/src/processor.rs:37-64 | the discovery loop keeps the round consistent and the patchbay size |
| ScreechProcessor.Passes | screech/src/processor.rs:37-64 | the loop makes at least one pass, and exactly one when the first pass records no module |
| ScreechProcessor.PassesBounded | screech/src/processor.rs:37-64 | the loop terminates after at most one pass more than there are modules still unprocessed |
| ScreechProcessor.UnprocessedFrom | screech/src/processor.rs:67-72 | the closing loop appends at most one index per flag still to visit |
| ScreechProcessor.UnprocessedMembers | screech/src/processor.rs:67-72 | the closing loop appends exactly the modules whose flag is unset |
| ScreechProcessor.NoneUnprocessed | screech/src/processor.rs:67-72 | with every flag set the closing loop appends nothing |
| ScreechProcessor.UnprocessedAscending | screech/src/processor.rs:67-72 | the closing loop appends in strictly ascending index order |
| ScreechProcessor.UnprocessedCount | screech/src/processor.rs:67-72 | the closing loop appends one index per unset flag, so `index` ends at `MODULES` |
| ScreechProcessor.StartRound | screech/src/processor.rs:32-35 | discovery starts with nothing processed, an empty order and every mark set |
| ScreechProcessor.Finish | screech/src/processor.rs:66-75 | after the discovery the order found so far stays as the prefix, the flags and the samples are kept, and every mark is cleared |
| ScreechProcessor.OrderSpec | screech/src/processor.rs:31-76 | the order `order_modules` settles on keeps the patchbay's size and validity |
| ScreechProcessor.CountAllFalse | screech/src/processor.rs:35 | flags that are all unset count as unset once each |
| ScreechProcessor.FinishIsPermutation | screech/src/processor.rs:66-72 | appending the never-successful modules to a consistent round gives a permutation of 0..MODULES |
| ScreechProcessor.OrderIsPermutation | screech/src/processor.rs:31-76 | the order is a permutation of 0..MODULES, so every module runs exactly once per tick |
| ScreechProcessor.FinishTail | screech/src/processor.rs:66-72 | the closing loop leaves the successful modules first, in discovery order, then the others in ascending index order |
| ScreechProcessor.UnprocessedCloseOrder | screech/src/processor.rs:66-72 | the modules that never succeeded close the order, in ascending index order, after all the successful ones |
| ScreechProcessor.RunFrom | screech/src/processor.rs:93-95 | running modules in order keeps the patchbay's size and validity |
| ScreechProcessor.RunFromDrop | screech/src/processor.rs:93-95 | running from position `k` is running the suffix from its start |
| ScreechProcessor.VisitReadable | screech/src/processor.rs:45-56 | when every read succeeds, visiting an unprocessed module processes it, appends it and runs it |
| ScreechProcessor.PassAllReadable | screech/src/processor.rs:40-59 | when every read succeeds, a pass appends every unprocessed module in index order |
| ScreechProcessor.PassAllReadableMarks | screech/src/processor.rs:48 | when every read succeeds, a pass leaves every module it visits processed |
| ScreechProcessor.PassKeepsProcessed | screech/src/processor.rs:41-43 | a pass never unsets a flag |
| ScreechProcessor.PassAllReadableRuns | screech/src/processor.rs:40-59 | when every read succeeds, a pass runs the unprocessed modules once each in index order |
| ScreechProcessor.PassAllProcessed | screech/src/processor.rs:41-43 | a pass over processed modules changes nothing |
| ScreechProcessor.PassAllReadableProcesses | screech/src/processor.rs:40-59 | when every read succeeds, a pass from a round with nothing processed processes every module |
| ScreechProcessor.FirstPassAllReadable | screech/src/processor.rs:32-59 | when every read succeeds, the first pass records every module in index order and runs each once over the marked patchbay |
| ScreechProcessor.DiscoverAfterFullPass | screech/src/processor.rs:37-64 | once a pass has processed every module, the next pass records nothing and the loop stops: after one pass when that pass recorded nothing, else after two |
| ScreechProcessor.FinishAllProcessed | screech/src/processor.rs:67-72 | with every module processed the closing loop appends nothing |
| ScreechProcessor.OrderWhenAllReadable | screech/src/processor.rs:31-76 | when every read succeeds the order is 0..MODULES and the patchbay is one run of every module in index order over the marked patchbay, with the marks then cleared |
| ScreechProcessor.Processor.constructor | screech/src/processor.rs:20-26 | `new` keeps the modules, zeroes the order and sets no order |
| ScreechProcessor.Processor.OrderModules | screech/src/processor.rs:31-76 | `order_modules` leaves the order and patchbay `OrderSpec` describes, a permutation of 0..MODULES, `order_set` true and every mark cleared |
| ScreechProcessor.Processor.DiscoverOrder | screech/src/processor.rs:37-64 | the imperative discovery loop reaches the round `Discover` describes |
| ScreechProcessor.Processor.Pass | screech/src/processor.rs:38-59 | the imperative pass reaches the round `PassFrom` describes |
| ScreechProcessor.Processor.VisitModule | screech/src/processor.rs:41-58 | the loop body for module `i` reaches the round `Visit` describes |
| ScreechProcessor.Processor.AppendUnprocessed | screech/src/processor.rs:66-72 | the closing loop appends exactly the unprocessed modules, in index order, after `order[..index]` |
| ScreechProcessor.Processor.ProcessModules | screech/src/processor.rs:88-96 | `process_modules` runs `order_modules` only when no order is set, then runs every module once in the order, ignoring errors; an order already set is kept |
| ScreechProcessor.Processor.RunOrder | screech/src/processor.rs:93-95 | the run loop leaves the patchbay `RunFrom` describes for the order set |
| ScreechProcessor.RunStep | screech/src/processor.rs:93-95 | running the module at position `k` moves the run on by one |
| ScreechProcessor.RunThree | screech/src/processor.rs:93-95 | running an order of three modules is the three runs one after the other |
| ScreechProcessor.ClearedReadsSucceed | screech/src/processor.rs:75 | with no slot pending every module run succeeds under `Unmarked` and leaves no slot pending |
| ScreechProcessor.SingleFixedRun | screech/src/processor.rs:168-180 | the single fixed module is recorded in the first pass, so the order is [0], and the tick writes 0.8 to its slot |
| ScreechProcessor.SingleFixedExample | screech/src/processor.rs:168-180 | one `process_modules` over a single fixed module leaves 0.8 in its slot |
| ScreechProcessor.OrderingModules | screech/src/processor.rs:183-209 | the ordering test's three modules fit a patchbay of three or more slots |
| ScreechProcessor.OrderingFirstPass | screech/src/processor.rs:40-59 | in the ordering test's first pass both divides read a pending slot and fail; only the fixed module is recorded, writing 0.8 |
| ScreechProcessor.OrderingFirstRoundOk | screech/src/processor.rs:46-52 | the round after the ordering test's first pass is consistent |
| ScreechProcessor.VisitSucceeds | screech/src/processor.rs:45-56 | an unprocessed module whose run succeeds is flagged, appended to the order, and its run kept |
| ScreechProcessor.OrderingSecondVisits | screech/src/processor.rs:40-59 | in the second pass the first divide reads 0.8 and writes 0.2, which the second divide reads in the same pass and halves to 0.1 |
| ScreechProcessor.OrderingSecondPass | screech/src/processor.rs:40-59 | the ordering test's second pass records both divides, giving the order [2, 0, 1] |
| ScreechProcessor.OrderingDiscovers | screech/src/processor.rs:37-64 | discovery of the ordering test ends with every module processed in the order [2, 0, 1] |
| ScreechProcessor.OrderingPasses | screech/src/processor.rs:37-64 | discovery of the ordering test makes three passes: a module that fails in the first is recorded in the second |
| ScreechProcessor.OrderingOrder | screech/src/processor.rs:31-76 | `order_modules` on the ordering test sets the order [2, 0, 1] and leaves no slot pending |
| ScreechProcessor.OrderingTick | screech/src/processor.rs:211-215 | a tick in the order [2, 0, 1] with no slot pending: 0.8 / 4 then / 2 gives 0.1 in the final slot |
| ScreechProcessor.OrderingExample | screech/src/processor.rs:182-216 | the ordering test's `process_modules` leaves 0.1 in the final slot |
| ScreechProcessor.CircularModules | screech/src/processor.rs:219-245 | the circular test's three modules fit a patchbay of three or more slots |
| ScreechProcessor.CircularFirstPass | screech/src/processor.rs:40-59 | in the circular test's first pass the mix and the divide read pending slots and fail; only the fixed module is recorded |
| ScreechProcessor.CircularSecondPass | screech/src/processor.rs:40-59 | with the mix and divide slots still pending, the second pass records nothing |
| ScreechProcessor.CircularDiscovers | screech/src/processor.rs:37-64 | discovery of the circular test stops after two passes with only the fixed module recorded |
| ScreechProcessor.CircularTail | screech/src/processor.rs:66-72 | the closing loop appends the never-recorded mix and divide in index order after the fixed module |
| ScreechProcessor.CircularOrder | screech/src/processor.rs:31-76 | `order_modules` on the circular test sets the order [1, 0, 2], leaves no slot pending, 0.8 in the fixed slot and the divide slot as it was |
| ScreechProcessor.CircularRun | screech/src/processor.rs:219-245 | a tick in the order [1, 0, 2] with no slot pending: the fixed module writes 0.8, the mix sums it and the divide slot as it was, the divide halves the mix |
| ScreechProcessor.CircularExample | screech/src/processor.rs:218-254 | the circular test's two `process_modules` calls leave 0.8 and then 1.2 in the mix slot |
| ScreechProcessor.ThreePoints | screech/src/processor.rs:220-223 | the first three points of a fresh 32-slot patchbay are slots 0, 1 and 2 |
| AudioSignal.GetPoint | src/signal.rs:314-319 | the point of a mono signal, or the left point of a stereo pair |
| AudioSignal.GetRightPoint | src/signal.rs:330-335 | a right point exists exactly for a stereo signal |
| AudioSignal.SumPoints | src/signal.rs:322-327 | the left (or only) point plus the right point, if there is one |
| AudioSignal.IsMono | src/signal.rs:227-232 | mono exactly for a one-point signal |
| AudioSignal.IsStereo | src/signal.rs:245-250 | a signal is stereo exactly when it is not mono |
| AudioSignal.Map | src/signal.rs:70-79 | `f` is applied to every point and the channel kind is kept |
| AudioSignal.MapStereo | src/signal.rs:91-101 | `l` maps the left (or only) point, `r` the right one, and the channel kind is kept |
| AudioSignal.MapToStereo | src/signal.rs:113-123 | the result is always stereo, `f` receiving the mono point on both sides |
| AudioSignal.MapToStereoIsMapStereo | src/signal.rs:113-123 | with independent channel maps, `map_to_stereo` is `map_stereo` after `to_stereo` |
| AudioSignal.SumToMono | src/signal.rs:267-272 | the result is mono and holds the summed points; a mono signal is kept |
| AudioSignal.ToMono | src/signal.rs:286-291 | the result is mono and keeps the left (or only) point; a mono signal is kept |
| AudioSignal.ToStereo | src/signal.rs:305-310 | the result is stereo with a mono point copied to both sides; a stereo signal is kept |
| AudioSignal.ConversionsIdempotent | src/signal.rs:267-310 | converting twice is converting once, for all three conversions |
| AudioSignal.MatchChannels | src/signal.rs:209-214 | the result takes the channel kind of `other`: mono by summing points, stereo by `to_stereo` |
| AudioSignal.RightOrZero | src/signal.rs:151 | the right point of a stereo signal and 0.0 for mono, the share of `sum_points` beyond the left point |
| AudioSignal.RightOrPoint | src/signal.rs:181-186 | the right point of a stereo signal, the point itself for mono |
| AudioSignal.Fold | src/signal.rs:144-151 | folding signals that all project to 0.0 leaves the starting value |
| AudioSignal.FoldFromInit | src/signal.rs:141-157 | a fold from a starting value is that value plus the fold from zero |
| AudioSignal.FoldAgrees | src/signal.rs:141-157 | two projections that agree on every signal fold to the same total |
| AudioSignal.MixInto | src/signal.rs:141-157 | mixing into a signal keeps its channel kind |
| AudioSignal.Mixed | src/signal.rs:174-195 | the mix is mono exactly when every input is mono; its left (or only) point sums the inputs' left points, and a stereo mix's right point sums the right points with mono points counted on both sides |
| AudioSignal.Mix | src/signal.rs:174-195 | the accumulating loop gives the mix: mono exactly when every input is mono, silence for no inputs |
| AudioSignal.MixIntoSilenceIsMix | src/signal.rs:141-195 | for mono inputs, mixing into mono silence is `mix` of the inputs |
| AudioSignal.MixAddsMonoToBoth | src/signal.rs:185-190 | once the mix is stereo, a mono input adds its point to both channels |
| AudioSignal.FromPoints | src/signal.rs:337-339 | one mono signal per point, in order |
| AudioSignal.MixExample | src/signal.rs:163-172 | 0.1 and 0.2 mono with (0.3, 0.2) stereo mix to (0.6, 0.5) |
| AudioSignal.MixIntoExample | src/signal.rs:129-139 | 0.1 mono and (0.2, 0.3) stereo mixed into mono 0.4 give 1.0 |
| CoreStream.Empty | src/core/stream.rs:37-39 | a point stream of `size` points, every one 0.0 |
| CoreStream.FixedValue | src/core/stream.rs:51-53 | a stream of length one that reads as `value` at every position |
| CoreStream.Len | src/core/stream.rs:62-67 | a point stream's length is its number of points; a fixed stream counts as one |
| CoreStream.IsEmpty | src/core/stream.rs:76-78 | a stream is empty exactly when it is a point stream without points; a fixed stream never is |
| CoreStream.GetPoint | src/core/stream.rs:94-99 | a point stream has a point exactly at the positions below its length; a fixed stream has its point everywhere |
| CoreStream.GetPoints | src/core/stream.rs:111-116 | the points exist exactly for a point stream, and agree with `get_point` at every position |
| CoreStream.MaxLen | src/core/stream.rs:138 | the fold of `max` is at least every input's length, and 0 for no inputs |
| CoreStream.MaxLenIsLongest | src/core/stream.rs:138 | the length `mix` pads to is the length of one of the inputs |
| CoreStream.SumAt | src/core/stream.rs:142-144 | inputs whose point at the position is missing or 0.0 leave the sum at 0.0 |
| CoreStream.ShortStreamsAddNothing | src/core/stream.rs:144-147 | a stream too short to reach a position adds nothing to the sum there |
| CoreStream.SumStreamsAt | src/core/stream.rs:144-147 | the inner fold of `mix` is the sum of the inputs' points at the position, missing ones counting 0.0 |
| CoreStream.Mix | src/core/stream.rs:137-150 | `mix` returns a point stream as long as the longest input, each point the sum of the inputs' points there |
| CoreStream.MixInto | src/core/stream.rs:170-185 | a fixed receiver is returned unchanged; a point receiver keeps its length and adds the inputs' sum at each position |
| CoreStream.Mapped | src/core/stream.rs:198-211 | mapping keeps the kind and length of the stream and applies `f` to each point |
| CoreStream.Map | src/core/stream.rs:198-211 | the in-place loop of `map` produces the mapped stream |
| CoreStream.Invert | src/core/stream.rs:262-264 | `invert` is `map` with negation |
| CoreStream.InvertTwice | src/core/stream.rs:262-264 | inverting twice gives the stream back |
| CoreStream.Padded | src/core/stream.rs:234-240 | a point receiver padded with 0.0 reads like `get_point(pos).unwrap_or(0.0)`; a fixed receiver is a single point at position 0 |
| CoreStream.Applied | src/core/stream.rs:227-250 | two fixed streams combine to a fixed stream; otherwise the result is as long as the longer stream and combines the receiver's points, padded with 0.0, with the other's points, 0.0 where it has none |
| CoreStream.PointsOf | src/core/stream.rs:230-233 | the points `apply` starts from: a fixed stream's single point, or the stream's points, agreeing with `get_point` |
| CoreStream.Apply | src/core/stream.rs:227-250 | the in-place resize-and-combine loop of `apply` produces the combined stream |
| CoreStream.Slice | src/core/stream.rs:278-292 | on a point stream it fails with `SliceOutOfBounds` exactly when the range runs past the end, and otherwise returns those points; a fixed stream gives its one point |
| CoreStream.LoopedSlice | src/core/stream.rs:305-315 | `length` points read from `from` on, wrapping around the end of the stream |
| CoreStream.ResampleLinear | src/core/stream.rs:361-392 | a factor of 0.0 or less fails with `ResampleBadFactor`; any other factor succeeds |
| CoreStream.MixExample | src/core/stream.rs:448-471 | streams of five, three and one points mix to [0.6, 0.1, -0.1, -0.2, -0.3] |
| CoreStream.MixExampleSums | src/core/stream.rs:448-471 | the sums at the five positions of the `mix` test |
| CoreStream.SliceExamples | src/core/stream.rs:474-491 | the four slices of the `slice` test, two of them out of bounds |
| CoreStream.LoopedSliceExample | src/core/stream.rs:494-512 | seven points of [0.0, 0.1] from position 1 alternate 0.1 and 0.0 |
| CoreGraph.SourcesAreNodes | src/core/graph.rs:28-31 | every source a node lists is itself a node the search can visit |
| CoreGraph.MarkingShrinks | src/core/graph.rs:25-26 | marking an unmarked node leaves fewer nodes unmarked, which bounds the recursion of `visit` |
| CoreGraph.Visit | src/core/graph.rs:16-39 | a successful visit only adds marks |
| CoreGraph.VisitList | src/core/graph.rs:28-32 | visiting the sources in order, stopping at the first error, only adds marks |
| CoreGraph.InProgressIsCycle | src/core/graph.rs:24 | meeting a node still marked `Temporary` closes a cycle through the chain of visits in progress |
| CoreGraph.StartKeeps | src/core/graph.rs:25-26 | marking an unmarked node `Temporary` pushes it on the chain of visits in progress |
| CoreGraph.FinishKeeps | src/core/graph.rs:34-36 | marking the top node `Permanent` and pushing it, once its sources are finished, keeps the search invariant |
| CoreGraph.FinishOrder | src/core/graph.rs:35 | pushing a node whose sources are all in the result keeps the result free of repeats and in post-order |
| CoreGraph.VisitKeeps | src/core/graph.rs:16-39 | a visit keeps the search invariant, finishes the node and only appends to the result; a failure exhibits a cycle through the nodes in progress |
| CoreGraph.VisitUnmarkedKeeps | src/core/graph.rs:25-36 | the same for a node not marked yet: its sources are visited with it in progress, then it is finished |
| CoreGraph.VisitListKeeps | src/core/graph.rs:28-32 | visiting a node's sources keeps the invariant and finishes every one of them, or exhibits a cycle |
| CoreGraph.VisitListRestKeeps | src/core/graph.rs:29-31 | the same once the first source is finished |
| CoreGraph.SortFrom | src/core/graph.rs:45-49 | once every key still to visit is marked, the loop returns the result unchanged; `SortFromKeeps` states what it returns from any consistent search state |
| CoreGraph.Sort | src/core/graph.rs:41-52 | an empty graph sorts to the empty list; what every other sort returns is stated by `SortOk` and `ErrorIffCycle` |
| CoreGraph.SortFromKeeps | src/core/graph.rs:45-51 | the key loop returns distinct nodes of the graph in post-order including every key, or fails only when a cycle is reachable from a key |
| CoreGraph.SortFromVisit | src/core/graph.rs:46-48 | the same at a key not marked yet, which is visited |
| CoreGraph.RootCycle | src/core/graph.rs:47 | a cycle found below a key is reachable from that key |
| CoreGraph.KeysSoFar | src/core/graph.rs:45-49 | keys already in the result stay there, and the key just visited joins them |
| CoreGraph.SortOk | src/core/graph.rs:41-52 | a successful sort lists every node of the graph, every key and every source, once each and after all of its sources |
| CoreGraph.PathMovesEarlier | src/core/graph.rs:41-52 | along a path starting inside a post-ordered result, every step moves to an earlier position, so such a result excludes cycles |
| CoreGraph.PathInResult | src/core/graph.rs:41-52 | a path starting inside a post-ordered result stays inside it |
| CoreGraph.ErrorIffCycle | src/core/graph.rs:41-52 | the sort fails exactly when a cycle is reachable from a key, whatever order the keys are visited in |
| CoreGraph.RankFalls | src/core/graph.rs:41-52 | in a graph ranked so that every source ranks below its reader, the rank falls along every path |
| CoreGraph.RankedIsAcyclic | src/core/graph.rs:41-52 | such a ranked graph has no reachable cycle, so its sort never fails |
| CoreGraph.Search.constructor | src/core/graph.rs:42-43 | the search starts with no marks and an empty result |
| CoreGraph.Search.VisitNode | src/core/graph.rs:16-39 | the recursive `visit` updating the marks map and result vector in place reaches the state `Visit` describes, or its error |
| CoreGraph.TopologicalSort | src/core/graph.rs:41-52 | `topological_sort` returns every node of the graph once each after all of its sources, and fails exactly when a cycle is reachable from a key |
| CoreGraph.VisitLeaf | src/core/graph.rs:25-36 | an unmarked node without sources is finished at once |
| CoreGraph.VisitInner | src/core/graph.rs:25-36 | an unmarked node is finished after its sources' visits |
| CoreGraph.VisitListStep | src/core/graph.rs:29-31 | a list whose first source visits successfully goes on with the rest |
| CoreGraph.TestGraphVisitsTwo | src/core/graph.rs:61-65 | in the test graph, visiting 2 finishes 1, 3 and 2 in that order |
| CoreGraph.TestGraphVisitsZero | src/core/graph.rs:61-65 | in the test graph, visiting key 0 finishes 1, 3, 2, 4 and 0 in that order |
| CoreGraph.TestGraphSorts | src/core/graph.rs:58-68 | with the keys visited in ascending order the test graph sorts to [1, 3, 2, 4, 0] |
| CoreGraph.CyclicGraphFails | src/core/graph.rs:70-80 | the cyclic test graph fails with `NoDirectedAcyclicGraph` in every key order |
| Graph.Reverse | src/graph.rs:52 | the result reversed: the same length, element `k` taken from the other end |
| Graph.Sort | src/graph.rs:43-55 | succeeds exactly when the shared search does, with its post-order reversed |
| Graph.ReversePostOrder | src/graph.rs:43-55 | reversing a post-order gives an order in which every node precedes its sources, with the same nodes once each |
| Graph.SortMeaning | src/graph.rs:43-55 | on success every node of the graph is listed once, before all of its sources; the sort fails exactly when a cycle is reachable from a key |
| Graph.TopologicalSort | src/graph.rs:43-55 | `topological_sort`, the shared search followed by an in-place reversal, returns that result |
| Graph.TestGraphSorts | src/graph.rs:62-71 | with the keys visited in ascending order the test graph sorts to [0, 4, 2, 3, 1] |
| Graph.CyclicGraphFails | src/graph.rs:74-83 | the cyclic test graph fails with `NoDirectedAcyclicGraph` in every key order |
| CoreTracker.Present | src/core/primary.rs:138-141 | the signals present for a list of ids: no more than there are ids, exactly the signals stored for one of them, and, when every id has a signal, one per id in the ids' order |
| CoreTracker.PresentAppend | src/core/primary.rs:138-141 | the filter keeps the order of the ids: filtering a concatenation is filtering each part, one after the other |
| CoreTracker.BasicTracker.constructor | src/core/tracker.rs:27-33 | a new tracker has every slot empty and its counter at 0 |
| CoreTracker.BasicTracker.GetSignal | src/core/tracker.rs:49-51 | a signal is found exactly when the id's slot holds one, and it is that signal |
| CoreTracker.BasicTracker.CreateId | src/core/tracker.rs:37-43 | the counter is handed out and moved on, and the new id reads as silence; no other slot changes |
| CoreTracker.BasicTracker.ClearId | src/core/tracker.rs:45-47 | the slot of `id` becomes empty and no other slot changes |
| CoreTracker.BasicTracker.SetSignal | src/core/tracker.rs:53-55 | `get_signal(id)` gives the new signal and every other slot keeps its signal |
| CoreTracker.CreateTwoIds | src/core/tracker.rs:14-26 | two ids created on a new tracker are 0 and 1, so they differ |
| CoreBasicTracker.BasicTracker.constructor | src/core/tracker/basic_tracker.rs:30-35 | a new tracker has every cell of the grid empty and its counter at 0 |
| CoreBasicTracker.BasicTracker.GetSignal | src/core/tracker/basic_tracker.rs:52-54 | a signal is found exactly when the addressed cell holds one, and it is that signal |
| CoreBasicTracker.BasicTracker.CreateSourceId | src/core/tracker/basic_tracker.rs:41-46 | the counter is handed out and moved on; the grid is not touched |
| CoreBasicTracker.BasicTracker.ClearSource | src/core/tracker/basic_tracker.rs:48-50 | clearing a source changes nothing |
| CoreBasicTracker.BasicTracker.SetSignal | src/core/tracker/basic_tracker.rs:56-58 | the addressed cell holds the signal and every other cell keeps its value |
| CoreBasicTracker.CreateTwoSources | src/core/tracker/basic_tracker.rs:7-20 | two sources created on one tracker get ids 0 and 1, so they differ |
| CoreDynamicTracker.DynamicTracker.constructor | src/core/tracker/dynamic_tracker.rs:27-32 | a new tracker has no signals and its counter at 0 |
| CoreDynamicTracker.DynamicTracker.GetSignal | src/core/tracker/dynamic_tracker.rs:47-49 | a signal is found exactly for an id that has one stored, and it is that signal |
| CoreDynamicTracker.DynamicTracker.CreateId | src/core/tracker/dynamic_tracker.rs:36-41 | the counter is handed out and moved on; no signal is registered |
| CoreDynamicTracker.DynamicTracker.ClearId | src/core/tracker/dynamic_tracker.rs:43-45 | the signal of `id`, and of no other id, is removed |
| CoreDynamicTracker.DynamicTracker.SetSignal | src/core/tracker/dynamic_tracker.rs:51-53 | the signal is stored for `id`, replacing any earlier one, and the others are kept |
| CoreDynamicTracker.CreateTwoIds | src/core/tracker/dynamic_tracker.rs:8-19 | two ids created on a new tracker are 0 and 1, so they differ |
| Primary.SampleSource | src/core/primary.rs:133-135 | sampling a source keeps its id and dependencies and leaves every other slot; a clip moves to its next state and stores the signal `ClipStep` plays; a track is unchanged and the slots become `TrackSample` of them |
| Primary.Tick | src/core/primary.rs:133-135 | a pass over the sources keeps their number, the number of slots and what each source needs to sample |
| Primary.TickMeaning | src/core/primary.rs:133-135 | after a pass every source keeps its id and dependencies, every source's slot holds a signal, and slots of ids that are not sources are untouched |
| Primary.TickFirst | src/core/primary.rs:133-135 | a pass samples the first source and then the rest from the slots it leaves |
| Primary.TickKeepsSource | src/core/primary.rs:133-135 | a pass keeps the id and dependencies of each source |
| Primary.TickLeavesSlot | src/core/primary.rs:133-135 | a pass leaves the slot of an id that is not a source as it was |
| Primary.TickSourceAt | src/core/primary.rs:133-135 | source `k` leaves a pass as sampling it leaves it, from the slots the sources before it leave |
| Primary.TickStoresLast | src/core/primary.rs:133-135 | when no later source shares its id, the slot of source `k` holds what sampling it stored: a clip's `ClipStep` signal, or the track's `TrackSample` over the slots the sources before it leave |
| Primary.TickFillsSlot | src/core/primary.rs:133-135 | after a pass the slot of each source holds the signal stored by the last source of the pass with that id, sampled from the slots the sources before it leave |
| Primary.Ticks | src/core/primary.rs:132-135 | repeated passes keep the number of slots and what each source needs |
| Primary.Frames | src/core/primary.rs:129-144 | the buffer loop yields `buffer_size` frames and keeps the number of slots |
| Primary.FramesAreTicks | src/core/primary.rs:132-144 | frame `k` mixes what the monitored ids hold after `k + 1` passes, and the buffer leaves the sources and slots as that many passes do |
| Primary.FramesFirst | src/core/primary.rs:132-144 | the first frame mixes the slots after one pass; the rest are the frames that follow it |
| Primary.FramesStep | src/core/primary.rs:132-144 | one turn of the buffer loop: a pass and its mix in front of the frames still to come |
| Primary.NothingMonitoredIsSilent | src/core/primary.rs:137-143 | with no monitored ids every frame is mono silence |
| Primary.SilentMix | src/core/primary.rs:137-143 | mixing the signals of no monitored ids gives mono silence |
| Primary.Render | src/core/primary.rs:146-162 | mono output writes one summed point per frame; stereo output writes two points per frame, the left and then the right one, repeating the left for a mono frame |
| Primary.StereoRepeatsMono | src/core/primary.rs:154-159 | for a mono frame both stereo points equal the frame's mono output |
| Primary.Id | src/basic/track.rs:124-126 | `get_id` of a track, and likewise of a clip (src/basic/clip.rs:69-71), is the id stored in its own fields |
| Primary.Deps | src/basic/track.rs:128-140 | a clip depends on nothing; a track on exactly its inputs and whichever cvs are set |
| Primary.GraphOf | src/core/primary.rs:113-116 | the graph has exactly the ids of the map of sources by id, each mapped to the dependencies of the source kept under it |
| Primary.ById | src/core/primary.rs:113-116 | the map holds every source's id, each id mapped to a source of the list that carries it |
| Primary.GraphMatchesSources | src/core/primary.rs:113-116 | the graph has one key per source id, listing the dependencies of the source kept for that id |
| Primary.Pick | src/core/primary.rs:122-127 | taking the sorted keys' sources out of the map fails only with `MissingDependency`, and otherwise gives one source of the map per key |
| Primary.PickMissing | src/core/primary.rs:125 | a sorted key without a source makes the picking fail |
| Primary.PickAll | src/core/primary.rs:124-127 | distinct keys that all have a source are picked in order, each to its own source |
| Primary.Ordered | src/core/primary.rs:110-127 | the ordering step never reports `MissingMonitor`, and on success yields sources taken from the list |
| Primary.MissingIsSorted | src/core/primary.rs:118-125 | after a successful sort a dependency no source has is among the sorted keys |
| Primary.SortedHaveSources | src/core/primary.rs:118-125 | after a successful sort with no missing dependency every sorted key has a source |
| Primary.OrderedOk | src/core/primary.rs:110-127 | on success the ordered sources are the sources kept by id, each once, each after those it depends on |
| Primary.PickedFacts | src/core/primary.rs:118-127 | a successful sort and pick give the kept sources for the sorted ids, in order |
| Primary.PickedDistinct | src/core/primary.rs:124-127 | sources picked for distinct ids have distinct ids |
| Primary.PickedCovers | src/core/primary.rs:113-127 | when every source id is sorted, the kept source of every id is picked |
| Primary.PickedOrdered | src/core/primary.rs:118-127 | sources picked in post-order come after the sources they depend on |
| Primary.OrderedMeaning | src/core/primary.rs:109-127 | `sample` fails with `CyclicDependencies` exactly when a cycle is reachable, with `MissingDependency` exactly when there is none but a dependency has no source; on success every id is taken once and every source comes after its dependencies |
| Primary.OrderedCycle | src/core/primary.rs:118-120 | a failed sort is reported as `CyclicDependencies` and comes from a reachable cycle |
| Primary.Primary.constructor | src/core/primary.rs:73-81 | a new primary monitors nothing, outputs stereo and has an empty tracker |
| Primary.Primary.AddMonitor | src/core/primary.rs:84-87 | the id is appended to the monitored ids |
| Primary.Primary.RemoveMonitor | src/core/primary.rs:90-94 | every occurrence of the id leaves the monitored ids, the others keep their order |
| Primary.Primary.OutputMono | src/core/primary.rs:97-100 | the output mode becomes mono and nothing else changes |
| Primary.Primary.OutputStereo | src/core/primary.rs:103-106 | the output mode becomes stereo and nothing else changes |
| Primary.Primary.CreateId | src/core/primary.rs:169-171 | `create_id` is the tracker's: the counter is handed out and its slot reads as silence |
| Primary.Primary.GetSignal | src/core/primary.rs:173-175 | `get_signal` is the tracker's slot for the id |
| Primary.Primary.SetSignal | src/core/primary.rs:177-179 | `set_signal` stores the signal in the tracker's slot for the id and nowhere else |
| Primary.Primary.SampleOne | src/core/primary.rs:134 | sampling one source through the tracker gives the source's new fields and slots `SampleSource` describes |
| Primary.Primary.SampleAll | src/core/primary.rs:133-135 | the inner loop leaves the sources and slots one pass gives |
| Primary.Primary.FillBuffer | src/core/primary.rs:129-144 | the buffer loop leaves the sources, slots and frames `Frames` describes |
| Primary.Primary.Sample | src/core/primary.rs:109-165 | `sample` never reports `MissingMonitor`; an ordering failure is returned with nothing sampled and the slots untouched; otherwise the frames of the ordered sources are written out in the output mode |
| Primary.Collect | src/core/primary.rs:113-116 | the first loop builds the graph of ids and dependencies and the map of sources by id |
| Primary.TakeSorted | src/core/primary.rs:122-127 | the removal loop gives what `Pick` describes |
| Primary.WriteOut | src/core/primary.rs:146-162 | the output loop writes what `Render` describes |
| Primary.PlainDeps | src/basic/track.rs:128-140 | a track without cvs depends on its inputs, a clip on nothing |
| Primary.CircularDependencyFails | src/core/primary.rs:265-282 | two tracks reading each other fail with `CyclicDependencies`, in either key order |
| Primary.DependencyFails | src/core/primary.rs:241-262 | a track reading three clips sampled with only one of them fails with `MissingDependency`, in either key order |
| Primary.DocGraphSorts | src/core/primary.rs:20-25 | the example's graph, keys in id order, sorts to [0, 1, 2] |
| Primary.DocMaps | src/core/primary.rs:20-25 | the example's sources give the example's graph and a map holding each by its id |
| Primary.DocSorts | src/core/primary.rs:20-29 | the example's sources are ordered as they are given |
| Primary.ClipPlays | src/basic/clip.rs:41-67 | a one-shot clip of four points plays the point at its position, silence once finished, and moves on, stopping at its end |
| Primary.TrackPlays | src/basic/track.rs:82-122 | the example's track, reading two mono signals, sends their sum to both channels |
| Primary.DocTick | src/core/primary.rs:20-29 | one pass over the example's sources: each clip plays its point and moves on, and the track holds the stereo sum of the two points |
| Primary.FramesTwo | src/core/primary.rs:132-144 | a buffer of two frames runs two passes and mixes what each leaves |
| Primary.DocFrame | src/core/primary.rs:20-29 | one frame of the example: the sources move on and the monitored track holds the stereo sum of the clips' points |
| Primary.DocBuffer | src/core/primary.rs:16-41 | two frames of the example: both are the track's stereo sum and stereo output writes each twice |
| Primary.DocFirstCall | src/core/primary.rs:28-31 | the example's first call gives [0.1, 0.1, 0.2, 0.2] |
| Primary.DocSecondCall | src/core/primary.rs:33-36 | the example's second call gives [0.3, 0.3, 0.4, 0.4] |
| Primary.DocThirdCall | src/core/primary.rs:38-41 | the example's third call, with both clips finished, gives silence |
| Primary.DocExample | src/core/primary.rs:16-41 | three calls of `sample`, each going on from the state the previous one left, give [0.1, 0.1, 0.2, 0.2], then [0.3, 0.3, 0.4, 0.4], then silence |
| Retain.RemoveAll | src/core/primary.rs:92 | `retain(\|&b\| a != b)` removes every occurrence of the value and keeps every other element |
| Retain.RemoveAllAppend | src/core/primary.rs:92 | the removal works piecewise, so the kept elements keep their order |
| Clip.ClipStep | src/basic/clip.rs:41-61 | only the position changes; at or past the end the clip plays silence, otherwise the point at the position; the position advances by one before the last index, and at the last index a one-shot clip stops at the length while a loop returns to 0; the new position is always in range |
| Clip.Play | src/basic/clip.rs:41-61 | `n` steps produce exactly `n` signals and keep the audio and play style |
| Clip.FinishedClipIsSilent | src/basic/clip.rs:44-46 | a finished one-shot clip never moves again and plays only silence |
| Clip.PlayIndex | src/basic/clip.rs:41-61 | the `k`-th signal of a run is what a single step plays from the state reached after `k` steps |
| Clip.PlayPositions | src/basic/clip.rs:52-60 | a looping clip at position `p` is at `(p + n) mod length` after `n` steps |
| Clip.LoopPlaysModulo | src/basic/clip.rs:41-61 | a looping clip at position `p` plays point `(p + k) mod length` at step `k` |
| Clip.LoopRun | src/basic/clip.rs:41-61 | `n` steps of a loop play the points from `p` on, wrapping around the end, and leave the clip at `(p + n) mod length` |
| Clip.OneShotRun | src/basic/clip.rs:41-61 | `n` steps of a one-shot clip play the points from `p` on and then silence, and leave it at `min(p + n, length)` |
| Clip.Clip.constructor | src/basic/clip.rs:30-38 | a new clip takes a fresh id from the tracker (which now reads silence there), starts at 0, plays once, at speed 1.0 |
| Clip.Clip.Step | src/basic/clip.rs:41-61 | the returned signal and the new fields are those of one step of the clip's state |
| Clip.Clip.Sample | src/basic/clip.rs:65-67 | the clip steps once and the tracker holds the played signal under its id, every other slot unchanged |
| Clip.Clip.GetSources | src/basic/clip.rs:73-75 | a clip depends on no other source |
| Clip.LoopExample | src/basic/clip.rs:86-109 | a nine-point loop read five at a time gives 0.0-0.4, then 0.5-0.8 and 0.0, then 0.1-0.5 |
| Clip.LoopFirst | src/basic/clip.rs:95-98 | the first five points, leaving the loop at 5 |
| Clip.LoopSecond | src/basic/clip.rs:100-103 | the last four points and the first, leaving the loop at 1 |
| Clip.LoopThird | src/basic/clip.rs:105-108 | five points from the second, leaving the loop at 6 |
| Clip.LoopWindow | src/basic/clip.rs:86-129 | a loop read for `n` steps from `start` gives exactly the expected wrapped points and ends at `(start + n) mod length` |
| Clip.LoopLongerExample | src/basic/clip.rs:112-129 | a five-point loop read eight at a time wraps within each call: 0.0-0.4, 0.0-0.2, then 0.3, 0.4, 0.0-0.4, 0.0 |
| Clip.LoopLongerFirst | src/basic/clip.rs:121-124 | the first eight values, leaving the loop at 3 |
| Clip.LoopLongerSecond | src/basic/clip.rs:125-128 | the second eight values, from position 3 |
| Clip.OneShotExample | src/basic/clip.rs:132-150 | a five-point one-shot clip read eight at a time gives its points then three silences, then only silence |
| Track.CvToDb | src/basic/track.rs:144-146 | a cv in -1.0 .. 1.0 maps into -114 dB .. +6 dB, with 0.9 as unity |
| Track.PanningToDb | src/basic/track.rs:149-155 | panning 0.0 is 0 dB, -1.0 .. 1.0 maps into -114 dB .. +6 dB, and the level is positive exactly when the panning is |
| Track.ConversionsMonotone | src/basic/track.rs:143-155 | both conversions preserve order |
| Track.ConversionExamples | src/basic/track.rs:165-178 | the conversions' test values: 6, 0 and -114 dB for cv; 6, 3, 0, -57 and -114 dB for panning |
| Track.Clamp | src/core/point.rs:14 | the result lies within the bounds and equals the input when it already does |
| Track.Amplify | src/core/point.rs:9-16 | 0 dB leaves a point untouched; any other level yields a point within -1.0 .. 1.0 |
| Track.TrackStep | src/basic/track.rs:82-97 | the output is stereo; both channels carry the summed points of the inputs, at the track's gain plus the gain cv's level plus each side's panning level |
| Track.UnityTrackSum | src/basic/track.rs:82-97 | with no gain, no panning and the default cv, both channels carry the unaltered sum of the inputs |
| Track.MixExample | src/basic/track.rs:181-197 | the two clips of the mixing test sum to 0.2, 0.2, 0.4, 0.4 on both channels |
| Track.SingleInputPanning | src/basic/track.rs:82-97 | a single input at unity gain reaches each channel at that side's panning level |
| Track.HardPanning | src/basic/track.rs:229-259 | full panning to one side raises that side by 6 dB and lowers the other by 114 dB |
| Track.Sources | src/basic/track.rs:128-140 | the inputs come first and in order, followed by each cv that is set; an id is listed exactly when it is an input or a cv |
| Track.CvValue | src/basic/track.rs:107-117 | a cv's value is the summed points of its source's signal, or the default when no cv is set or its source has no signal |
| Track.TrackSample | src/basic/track.rs:101-122 | the track's slot receives `TrackStep` of the present input signals, the gain cv (0.9 when missing) and the panning cv (0.0 when missing), a stereo signal; every other slot is unchanged |
| Track.Track.constructor | src/basic/track.rs:23-32 | a new track takes a fresh id, has no inputs and no cvs, and gain and panning 0.0 |
| Track.Track.AddInput | src/basic/track.rs:35-38 | the source is appended to the inputs; nothing else changes |
| Track.Track.RemoveInput | src/basic/track.rs:41-45 | every occurrence of the source leaves the inputs, which keep their order; nothing else changes |
| Track.Track.SetGainCv | src/basic/track.rs:53-56 | the gain cv is set to the source; nothing else changes |
| Track.Track.UnsetGainCv | src/basic/track.rs:59-62 | the gain cv is cleared; nothing else changes |
| Track.Track.SetPanningCv | src/basic/track.rs:70-73 | the panning cv is set to the source; nothing else changes |
| Track.Track.UnsetPanningCv | src/basic/track.rs:76-79 | the panning cv is cleared; nothing else changes |
| Track.Track.GetSources | src/basic/track.rs:128-140 | the track's sources as listed by `Sources` |
| Track.Track.Sample | src/basic/track.rs:101-122 | the tracker's slots become those of `TrackSample` on the track's state |
| Slew.MaxIncrease | src/basic/slew.rs:46 | the largest change per sample, which over one second of samples adds up to 1000 times the change per millisecond; non-negative for a non-negative rate |
| Slew.NewValue | src/basic/slew.rs:45-65 | for a non-negative rate the new value moves from the old by at most one step, reaches the input when it is within a step, and never overshoots it in either direction |
| Slew.NewValueIsClamp | src/basic/slew.rs:48-64 | the nested comparisons equal the old value plus the rise clamped to plus or minus one step |
| Slew.Step | src/basic/slew.rs:68-83 | as written: the shape of the signal is kept, each output channel is `NewValue` from its own state, the right state never changes, and after a stereo signal the left state holds the right output |
| Slew.StepIntended | src/basic/slew.rs:68-83 | as intended: each channel's output is the limited value against its own state, which then holds that output |
| Slew.MonoStepsAgree | src/basic/slew.rs:69-75 | on a mono signal the written and the intended step are the same |
| Slew.Run | src/basic/slew.rs:68-83 | processing a list of signals gives one output per signal |
| Slew.RunIntended | src/basic/slew.rs:68-83 | the intended processing gives one output per signal |
| Slew.Follow | src/basic/slew.rs:45-65 | limiting one channel gives one value per input |
| Slew.FollowRecurrence | src/basic/slew.rs:45-65 | any list that starts at the limited first input and whose every value is the limited step from the previous one is exactly `Follow` |
| Slew.Rights | src/basic/slew.rs:76-81 | the right points of a list of signals, one per signal |
| Slew.Lefts | src/basic/slew.rs:70-75 | the left points of a list of signals, one per signal |
| Slew.IntendedLeftFollows | src/basic/slew.rs:70-75 | the intended limiter limits the left channel of a stereo stream independently of the right |
| Slew.IntendedRightFollows | src/basic/slew.rs:76-81 | the intended limiter limits the right channel of a stereo stream independently of the left |
| Slew.MonoRunFollows | src/basic/slew.rs:68-83 | on mono signals `process` limits the single channel exactly as `Follow` does |
| Slew.RightChannelOverwritesLeft | src/basic/slew.rs:76-81 | with two steady stereo inputs of 1.0 at 5000 Hz, the code as written gives (0.2, 0.2) then (0.4, 0.2); the intended limiter gives (0.2, 0.2) then (0.4, 0.4) |
| Slew.Limiter.constructor | src/basic/slew.rs:37-43 | both channel states start at 0.0 with the given rate |
| Slew.Limiter.Process | src/basic/slew.rs:68-83 | the output and the new states are those of `Step`, and the right state is kept |
| Slew.FromRest | src/basic/slew.rs:68-83 | from rest, `process` over mono points gives any list that satisfies the limiter's recurrence |
| Slew.SlewUp | src/basic/slew.rs:94-106 | at 5000 Hz and 1.0 per ms a step up to 1.0 climbs by 0.2 per sample |
| Slew.SlewDown | src/basic/slew.rs:109-121 | at 5000 Hz and 1.0 per ms a step down to -1.0 falls by 0.2 per sample |
| Slew.SlewUpDown | src/basic/slew.rs:8-25 | at 4000 Hz an alternating input is followed in steps of 0.25 |
| Stream.Zeros | src/stream.rs:38-43 | `n` points, all of them 0.0 |
| Stream.Resized | src/stream.rs:73-81 | exactly `n` points: the stream's own points where it has them, 0.0 beyond its end |
| Stream.SampleAt | src/stream.rs:58-63 | the point at `position` exactly when it is in range, otherwise `NonExistentIndex(position)` |
| Stream.Sum | src/stream.rs:75-77 | other streams that end before the position add nothing to the receiver's point |
| Stream.Mixed | src/stream.rs:73-81 | the mix keeps the receiver's length, and each point is its own value plus the other streams' points at that position |
| Stream.MixNothing | src/stream.rs:102-106 | mixing an empty list leaves the points as they were |
| Stream.ExtraPointsIgnored | src/stream.rs:66-72 | points of longer streams past the receiver's end play no part in the mix |
| Stream.CutTo | src/stream.rs:66-72 | each stream is cut to at most `n` points and left as it is when already shorter |
| Stream.SumCut | src/stream.rs:74-78 | at a position below `n`, cutting the others to `n` points leaves the fold unchanged |
| Stream.ShorterCountsAsSilence | src/stream.rs:66-72 | a shorter stream mixes as if padded with silence up to the receiver's length |
| Stream.SumPadded | src/stream.rs:74-78 | padding one of the others with zeros leaves the fold at each position unchanged |
| Stream.Clamp1 | src/stream.rs:88 | the result lies in [-1, 1], equals the input inside that range, and is the nearer bound outside it |
| Stream.Scaled | src/stream.rs:88 | an amplified point lies in [-1, 1] |
| Stream.Amplified | src/stream.rs:84-92 | amplification keeps the length and scales and clamps each point |
| Stream.AmplifiedBounded | src/stream.rs:84-92 | every amplified point lies in [-1, 1], and silence stays silent |
| Stream.AmplifiedMonotone | src/stream.rs:84-92 | a positive gain keeps the order of points and the sign of each point |
| Stream.Stream.Empty | src/stream.rs:38-43 | `size` points of silence with the given channel count |
| Stream.Stream.FromSamples | src/stream.rs:46-48 | the points and channel count as given |
| Stream.Stream.Len | src/stream.rs:53-55 | the number of points, whatever the channel count |
| Stream.Stream.GetSample | src/stream.rs:58-63 | the lookup of `SampleAt` on the stream's points |
| Stream.Stream.Mix | src/stream.rs:73-81 | the points become `Mixed` of the old points and the others; the channel count stays |
| Stream.Stream.Amplify | src/stream.rs:84-92 | the points become `Amplified` by the gain for `db`; the channel count stays |
| Stream.SumTwo | src/stream.rs:74-78 | folding in two streams adds both of their points at that position, with missing points as 0.0 |
| Stream.MixExamples | src/stream.rs:113-130 | the mix tests: two full-length streams give 0.6, 0.3, 0.0, -0.3, -0.6, and a short pair gives 0.6, 0.1, -0.1, -0.2, -0.3 |
| Sample.Slot | src/sample.rs:57-66 | a loop reads the stream at the position (an error past its end); a one-shot writes silence once at or past the end, and otherwise reads the stream |
| Sample.Next | src/sample.rs:68-83 | a loop's next position stays below the length, a one-shot's stays at most the length, and before the last point both move on by one |
| Sample.Played | src/sample.rs:53-87 | no more points than slots are written, and all of them when no error stops the run |
| Sample.ErrorSticks | src/sample.rs:58 | once a read has failed, further slots change nothing |
| Sample.LoopPlaysModulo | src/sample.rs:53-87 | a loop from a position within the stream never fails; slot `k` holds the point at `position + k` wrapped around the stream, and so does the final position |
| Sample.OneShotPlays | src/sample.rs:53-87 | a one-shot from within or at the end of a non-empty stream never fails; it writes the points from the position and then silence, and stops at the end |
| Sample.LoopOverNothingFails | src/sample.rs:58 | a loop over an empty stream fails on its first slot with `NonExistentIndex` of the position, writing nothing |
| Sample.PlayStep | src/sample.rs:56-84 | one turn of the loop writes the read value into the next slot of the buffer and moves the position on |
| Sample.Sample.constructor | src/sample.rs:32-43 | a new sample starts at 0, loops, has speed 1.0, and owns a fresh empty buffer with the stream's channel count |
| Sample.Sample.Play | src/sample.rs:53-87 | the buffer's slots are overwritten, in order, with the played points; the position moves on; the result is the buffer, or the error that stopped the run; the stream is untouched |
| Sample.Sample.SetBufferSize | src/sample.rs:89-94 | the buffer is cut or padded with 0.0 to the new size; its channel count stays |
| Sample.LoopWrites | src/sample.rs:53-87 | a loop over `n` slots writes exactly the expected wrapped points and ends at `(position + n) mod length` |
| Sample.LoopSmallerFirst | src/sample.rs:107-110 | five slots over nine points from the start give 0.0-0.4 and leave the position at 5 |
| Sample.LoopSmallerSecond | src/sample.rs:112-113 | the second call gives 0.5-0.8 and 0.0, leaving the position at 1 |
| Sample.LoopSmallerThird | src/sample.rs:115-116 | the third call gives 0.1-0.5 |
| Sample.LoopLargerBuffer | src/sample.rs:120-130 | eight slots over five points wrap within each call: 0.0-0.4 and 0.0-0.2, then 0.3, 0.4, 0.0-0.4 and 0.0 |
| Sample.OneShotBuffer | src/sample.rs:133-144 | eight slots over five points play the points and three silences, and a second call plays only silence |
| BasicTracker.BasicTracker.constructor | src/tracker/basic_tracker.rs:30-38 | a new tracker has `SOURCES_SIZE` empty input and output slots, its counter at 0, the given buffer size and no messages |
| BasicTracker.BasicTracker.GetBufferSize | src/tracker/basic_tracker.rs:42-44 | the buffer size the tracker holds |
| BasicTracker.BasicTracker.CreateSourceId | src/tracker/basic_tracker.rs:46-51 | the counter is handed out and moved on by one; nothing else changes |
| BasicTracker.BasicTracker.ClearSource | src/tracker/basic_tracker.rs:53-55 | clearing a source changes nothing |
| BasicTracker.BasicTracker.GetSources | src/tracker/basic_tracker.rs:57-67 | the ids listed are exactly the sources of the outputs connected to some input of the source, gathered input by input in the map's iteration order |
| BasicTracker.BasicTracker.GetOutput | src/tracker/basic_tracker.rs:69-71 | the points of the named output exactly when it has been initialised |
| BasicTracker.BasicTracker.InitOutput | src/tracker/basic_tracker.rs:77-79 | the named output holds a buffer of silence, replacing any earlier points; every other output is unchanged |
| BasicTracker.BasicTracker.InitInput | src/tracker/basic_tracker.rs:81-83 | the named input is connected to nothing, and any earlier connections are dropped; every other input is unchanged |
| BasicTracker.BasicTracker.GetInput | src/tracker/basic_tracker.rs:85-89 | the outputs connected to the named input exactly when it has been initialised |
| BasicTracker.BasicTracker.ResizeBuffers | src/tracker/basic_tracker.rs:91-98 | the new size is kept, and every output of every source is cut or padded with silence to it; no output appears or disappears |
| BasicTracker.BasicTracker.ConnectSignal | src/tracker/basic_tracker.rs:100-104 | an initialised input gains the output at the end of its list; an uninitialised one stays absent; other sources are untouched |
| BasicTracker.BasicTracker.ClearConnection | src/tracker/basic_tracker.rs:106-110 | an initialised input loses every copy of the output, keeping the order of the rest; other sources are untouched |
| BasicTracker.BasicTracker.SendMessage | src/tracker/basic_tracker.rs:112-116 | a message is appended only to an id's existing list, so the set of ids in the store never changes |
| BasicTracker.BasicTracker.GetMessages | src/tracker/basic_tracker.rs:118-120 | the messages sent to `id` exactly when it has a list |
| BasicTracker.BasicTracker.ClearMessages | src/tracker/basic_tracker.rs:122-124 | the store is emptied |
| BasicTracker.MessagesNeverArrive | src/tracker/basic_tracker.rs:112-120 | on a fresh tracker a sent message can never be read back |
| BasicTracker.CreateTwoSources | src/tracker/basic_tracker.rs:14-18 | two ids created on one tracker differ |
| BasicTracker.ConnectAndClear | src/tracker/basic_tracker.rs:100-110 | an input connected to two outputs lists them in connection order, and clearing one leaves exactly the other |
| DynamicTracker.Slot | src/tracker/dynamic_tracker.rs:80-99 | the entries of a source that has a map, and none for a source without one |
| DynamicTracker.ResizedSources | src/tracker/dynamic_tracker.rs:107-115 | the same sources, each with every output cut or padded to the size |
| DynamicTracker.DynamicTracker.constructor | src/tracker/dynamic_tracker.rs:28-35 | a new tracker has no sources, its counter at 0 and the given buffer size |
| DynamicTracker.DynamicTracker.GetBufferSize | src/tracker/dynamic_tracker.rs:39-41 | the buffer size the tracker holds |
| DynamicTracker.DynamicTracker.CreateSourceId | src/tracker/dynamic_tracker.rs:43-48 | the counter is handed out and moved on by one; nothing else changes |
| DynamicTracker.DynamicTracker.ClearSource | src/tracker/dynamic_tracker.rs:50-52 | the source's outputs are dropped, while its inputs, and so its connections, stay |
| DynamicTracker.DynamicTracker.GetSources | src/tracker/dynamic_tracker.rs:54-66 | the ids listed are exactly the sources of the outputs connected to some input of the source, in input order, and nothing for an unknown source |
| DynamicTracker.DynamicTracker.GetOutput | src/tracker/dynamic_tracker.rs:68-72 | the points of the named output exactly when its source and the output have been initialised |
| DynamicTracker.DynamicTracker.InitOutput | src/tracker/dynamic_tracker.rs:80-89 | the source gains a map if it had none, and the named output holds a buffer of silence; nothing else changes |
| DynamicTracker.DynamicTracker.InitInput | src/tracker/dynamic_tracker.rs:91-99 | the source gains a map if it had none, and the named input is connected to nothing; nothing else changes |
| DynamicTracker.DynamicTracker.GetInput | src/tracker/dynamic_tracker.rs:101-105 | the outputs connected to the named input exactly when its source and the input have been initialised |
| DynamicTracker.DynamicTracker.ResizeBuffers | src/tracker/dynamic_tracker.rs:107-115 | the new size is kept, and every output of every source is cut or padded with silence to it |
| DynamicTracker.DynamicTracker.ConnectSignal | src/tracker/dynamic_tracker.rs:117-125 | an initialised input gains the output at the end of its list; nothing else changes |
| DynamicTracker.DynamicTracker.ClearConnection | src/tracker/dynamic_tracker.rs:127-135 | an initialised input loses every copy of the output, keeping the order of the rest; nothing else changes |
| DynamicTracker.CreateTwoSources | src/tracker/dynamic_tracker.rs:14-17 | two ids created on one tracker differ |
| DynamicTracker.ClearKeepsConnections | src/tracker/dynamic_tracker.rs:50-66 | after a source is cleared its output reads as absent, yet it still lists the source it was connected to |
| Routing.SourceIds | src/tracker/basic_tracker.rs:61-63 | the source id of each output, one per output and in order |
| Routing.SourcesOf | src/tracker/basic_tracker.rs:57-67 | inputs with no connected output contribute no ids |
| Routing.SourcesOfListed | src/tracker/basic_tracker.rs:57-67 | an id is gathered exactly when some output connected to one of the visited inputs belongs to it |
| Routing.SourcesOfMeaning | src/tracker/basic_tracker.rs:57-67 | over all of the inputs, an id is gathered exactly when some connected output belongs to it |
| Routing.CollectSources | src/tracker/basic_tracker.rs:57-67 | the nested loops push exactly the source ids of `SourcesOf`, input by input and output by output |
| Routing.ResizedAll | src/tracker/basic_tracker.rs:93-97 | the same signal names, each cut or padded with 0.0 to exactly `size` points |
| Routing.ResizeSource | src/tracker/basic_tracker.rs:94-96 | visiting the signals in any order resizes every one of them as `ResizedAll` does |
| Routing.Connected | src/tracker/basic_tracker.rs:100-104 | an initialised input gains the output at the end of its list, and no input appears or disappears |
| Routing.Disconnected | src/tracker/basic_tracker.rs:106-110 | an initialised input loses every copy of the output, and no input appears or disappears |
| Routing.ConnectThenClear | src/tracker/basic_tracker.rs:100-110 | connecting an output that was not yet connected and then clearing it restores the inputs |
| ModSource.FirstWithKey | src/mod_source.rs:16-18 | the index of the first pair with the key, and none exactly when no pair has it |
| ModSource.Get | src/mod_source.rs:12-22 | an owned source gives its signal; an external one gives the signal of the first pair with its key, and nothing exactly when no pair has it |
| ModSource.ExternalFindsFirst | src/mod_source.rs:15-20 | the first pair carrying the key supplies the signal |
| ModSource.LaterPairsIgnored | src/mod_source.rs:15-20 | pairs appended after a match do not change the result |
| ModSource.DuplicateKeys | src/mod_source.rs:15-20 | of two pairs with the same key the earlier wins, and a missing key gives nothing |

## Left out

- f32 arithmetic: rounding, overflow to infinity and NaN are not modelled. Test values that depend on rounding, such as `0.001995262`, are stated as exact reals or left out.
- The oscillators (`screech/src/modules/oscillator.rs`, `src/basic/oscillator.rs`, `src/oscillator.rs`) are left out because their outputs depend on floating-point approximations. For the same reason the gain test of `src/basic/track.rs` (lines 200-226), whose cv comes from an oscillator, is left out.
- Track.Amplify: the gain `10^(db/20)` is a parameter `ratio`, not computed, because `powf` is a foreign library call.
- Stream.Stream.Amplify: the same `ratio` parameter stands in for `10_f32.powf(db / 20.0)`.
- CoreStream.ResampleLinear: only the `factor <= 0` error is modelled; the interpolated stream is a parameter.
- `u8_to_point`, `i16_to_point` and `i32_to_point` in `src/stream.rs` are float divisions and are not modelled.
- `get_mut_output` of the older trackers hands out a mutable reference into a map. Reading through it is `GetOutput`, and writes through it are not modelled.
- The `Dummy` module of the `screech` crate always succeeds and writes nothing. It appears only as a variant of the module union.
- The examples, benches, WAV output and other file I/O are left out. So are the proc-macro's token generation and the module wiring files.
- `src/clip.rs`, `src/track.rs`, `src/primary.rs`, `src/slew.rs` and `src/traits.rs` are left out because they are written against APIs that are not in the repository.
- Sources given to `Primary::sample` are values (a datatype per source kind, `Clip` or `Track`) rather than trait objects. Sampling a source is the function for its kind.
- Primary.Primary.constructor: the tracker's number of slots is a constructor parameter, where the Rust type takes a const generic.
- `test_complex_dependencies` in `src/core/primary.rs` (lines 190-238) is left out; it needs the oscillator.
- Clip.ClipStep: on an empty stream `audio_length - 1` underflows a `usize` and panics, so the model requires a non-empty stream.
- Sample.Sample.Play: a one-shot sample over an empty stream underflows the same way, so the model requires a non-empty stream for one-shot playback.
- Clip.Clip.constructor: the `speed` field is kept but never used, as in the source.
- Slew.MaxIncrease: a sample rate of 0 divides by zero (`inf` in f32), so the model requires a positive sample rate.
- ScreechEnvelope.Envelope.SetAr: the attack and release times are non-zero. An AR stage divides by them, and a zero time gives a non-finite f32.
- ScreechProcessor.Step: the test `Divide` module's divisor is non-zero for the same reason.
- BasicTracker.BasicTracker.GetOutput: a source id outside the fixed array panics in Rust, so the model requires the id to fit (`Fits`). `GetSources`, `InitOutput`, `InitInput`, `GetInput`, `ConnectSignal` and `ClearConnection` of the same tracker index the same array and require the same.
- CoreBasicTracker.BasicTracker.GetSignal: ids outside the grid panic in Rust, and the model requires them to fit.
- CoreTracker.BasicTracker.CreateId: an id past the end of the `SIZE` slots panics in Rust when it is written to, so the model requires a free slot. `get_signal`, `set_signal` and `clear_id` likewise require the id to be one of the slots.
- CoreStream.LoopedSlice: requires a non-empty point stream when `length` is positive. For an empty stream, `src/core/stream.rs:305-315` computes `% 0` and panics.
- Stream.Mixed: `mix` takes the other streams' point vectors; their channel counts play no part, as in the source.

## Findings

| source | as written | input that shows it | evidently intended | confidence | as-written member | corrected member |
|---|---|---|---|---|---|---|
| src/basic/slew.rs:76-81 | the right channel's closure reads the right state but writes its new value into the left state, so the right state stays at 0.0 and the left one is overwritten | two steady stereo inputs `Stereo(1.0, 1.0)` at 5000 Hz and 1.0 per ms give `(0.2, 0.2)` then `(0.4, 0.2)` | each closure keeps its own channel's state, giving `(0.2, 0.2)` then `(0.4, 0.4)`, so each channel is limited on its own | high (not executed) | Slew.Step / Slew.RightChannelOverwritesLeft | Slew.StepIntended / Slew.IntendedRightFollows |
