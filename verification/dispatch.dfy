/** What one call of `dispatchCas` does, as a pure function of the session's
    objects, the scratch pool and the device's answers: the GPU commands it
    records (copy-in, timestamp brackets, compute dispatches, copy-back), the
    pool slot it leaves behind, and the GPU time sample it feeds to the
    session's averaging counter. */
module Dispatch {
  import opened XrTypes
  import opened Formats
  import opened TempPool
  import opened PassPlan
  import opened Session

  /** A command recorded on the application's immediate context, or an
      event of `xrEndFrame` around the processing. */
  datatype Event =
    | CopyIn(source: Handle, slice: bv32, box: Box)          // source slice -> input texture
    | TimingBegin                                            // disjoint query begun, begin stamp
    | Dispatch(step: PassStep, groupsX: u32, groupsY: u32)
    | TimingEnd                                              // end stamp, disjoint query ended
    | CopyBack(source: Handle, slice: bv32, from: Slot, box: Box)
    | PreComposition
    | PostComposition
    | EndFrameForwarded

  /** The device's answers during one `dispatchCas`: the `ensureCasObjects`
      outcome, the creation of the two scratch textures, the first CAS pass
      whose shader-resource or unordered-access view is refused (if any),
      and the GPU time read back from the timestamp queries (absent when a
      query is not ready or the interval was disjoint). */
  datatype DeviceAnswers = DeviceAnswers(
    init: InitOutcome, inputCreated: bool, outputCreated: bool,
    failingPass: Option<nat>, readback: Option<real>)

  /** The format and MSAA gate. */
  predicate Admits(td: TexDesc)
    ensures Admits(td) ==>
      && td.sampleCount == 1
      && IsLinearViewFormat(MapSrvFormat(td.format))
      && IsLinearViewFormat(MapUavFormat(td.format))
  {
    Supported(td.format) && td.sampleCount == 1
  }

  /** `tempPool[key]`: the stored slot, or a default one for a new key. */
  function PoolSlot(pool: map<PoolKey, TempTextures>, key: PoolKey): TempTextures {
    if key in pool then pool[key] else EMPTY_SLOT
  }

  /** The texture of a slot behind a `Slot` label. */
  function SlotTexture(slot: TempTextures, which: Slot): Option<Handle> {
    if which == Input then slot.input else slot.output
  }

  /** The first CAS pass that returns early: a view over a missing output
      texture cannot be made, so a slot without output fails at pass 0. */
  function FirstFailure(slot: TempTextures, failingPass: Option<nat>): (r: Option<nat>)
    ensures r.None? <==> slot.output.Some? && failingPass.None?
    ensures slot.output.None? ==> r == Some(0)
  {
    if slot.output.None? then Some(0) else failingPass
  }

  /** The number of CAS passes that dispatch before the first failure. */
  function PassesRun(n: nat, failure: Option<nat>): (run: nat)
    ensures run <= n
    ensures run == n <==> failure.None? || failure.value >= n
  {
    if failure.Some? && failure.value < n then failure.value else n
  }

  function Dispatches(steps: seq<PassStep>, gx: u32, gy: u32): (events: seq<Event>)
    ensures |events| == |steps|
  {
    seq(|steps|, i requires 0 <= i < |steps| => Dispatch(steps[i], gx, gy))
  }

  /** The commands up to the end of the CAS loop: the copy-in, the begin
      stamp when the session has its queries, and the CAS dispatches that
      ran. */
  function CasPhase(source: Handle, sub: SubImage, td: TexDesc, run: nat, timed: bool): seq<Event> {
    [CopyIn(source, sub.arraySlice, CopyBox(sub, td))]
    + (if timed then [TimingBegin] else [])
    + Dispatches(CasSteps(run), GroupCount(CopyWidth(sub, td)), GroupCount(CopyHeight(sub, td)))
  }

  /** The commands after a complete CAS loop: the end stamp, the enabled
      post passes and the copy-back from the latest result. */
  function PostPhase(source: Handle, sub: SubImage, td: TexDesc, n: nat, timed: bool,
                     fakeHdr: bool, levels: bool): seq<Event> {
    (if timed then [TimingEnd] else [])
    + Dispatches(PostSteps(CasRead(n), fakeHdr, levels), GroupCount(CopyWidth(sub, td)), GroupCount(CopyHeight(sub, td)))
    + [CopyBack(source, sub.arraySlice, ResultSlot(n, fakeHdr, levels), CopyBox(sub, td))]
  }

  /** The commands of a `dispatchCas` that got past the pool. */
  function DispatchTrace(source: Handle, sub: SubImage, td: TexDesc, n: nat, failure: Option<nat>,
                         timed: bool, fakeHdr: bool, levels: bool): (t: seq<Event>)
    ensures var run := PassesRun(n, failure);
      var stamp := if timed then 1 else 0;
      |t| == 1 + stamp + run
        + (if run == n then stamp + (if fakeHdr then 1 else 0) + (if levels then 1 else 0) + 1 else 0)
  {
    var run := PassesRun(n, failure);
    CasPhase(source, sub, td, run, timed)
    + (if run == n then PostPhase(source, sub, td, n, timed, fakeHdr, levels) else [])
  }

  predicate IsCopyBack(e: Event) {
    e.CopyBack?
  }

  predicate IsDispatch(e: Event) {
    e.Dispatch?
  }

  function CountCopyBacks(events: seq<Event>): nat {
    if |events| == 0 then 0 else (if IsCopyBack(events[0]) then 1 else 0) + CountCopyBacks(events[1..])
  }

  lemma {:induction false} CountCopyBacksAppend(a: seq<Event>, b: seq<Event>)
    ensures CountCopyBacks(a + b) == CountCopyBacks(a) + CountCopyBacks(b)
    decreases |a|
  {
    if |a| == 0 {
      assert a + b == b;
    } else {
      assert (a + b)[0] == a[0];
      assert (a + b)[1..] == a[1..] + b;
      CountCopyBacksAppend(a[1..], b);
    }
  }

  lemma {:induction false} NoCopyBackAmongDispatches(steps: seq<PassStep>, gx: u32, gy: u32)
    ensures CountCopyBacks(Dispatches(steps, gx, gy)) == 0
    decreases |steps|
  {
    var d := Dispatches(steps, gx, gy);
    if |steps| > 0 {
      assert d[1..] == Dispatches(steps[1..], gx, gy);
      NoCopyBackAmongDispatches(steps[1..], gx, gy);
    }
  }

  /** A `dispatchCas` that returns early (a refused view in the CAS loop)
      issues no copy-back, so the swapchain image is left untouched; one that
      completes issues exactly one copy-back, as its last command, reading
      the texture that `ResultSlot` names with the same box the copy-in used,
      at the same array slice. */
  lemma {:induction false} CopyBackOnlyWhenComplete(source: Handle, sub: SubImage, td: TexDesc, n: nat,
                                                   failure: Option<nat>, timed: bool, fakeHdr: bool, levels: bool)
    ensures var t := DispatchTrace(source, sub, td, n, failure, timed, fakeHdr, levels);
      && |t| > 0 && t[0] == CopyIn(source, sub.arraySlice, CopyBox(sub, td))
      && (PassesRun(n, failure) < n ==> CountCopyBacks(t) == 0)
      && (PassesRun(n, failure) == n ==>
            && CountCopyBacks(t) == 1
            && t[|t| - 1] == CopyBack(source, sub.arraySlice, ResultSlot(n, fakeHdr, levels), CopyBox(sub, td)))
  {
    var gx, gy := GroupCount(CopyWidth(sub, td)), GroupCount(CopyHeight(sub, td));
    var run := PassesRun(n, failure);
    var begin: seq<Event> := if timed then [TimingBegin] else [];
    var end: seq<Event> := if timed then [TimingEnd] else [];
    var cas := Dispatches(CasSteps(run), gx, gy);
    var post := Dispatches(PostSteps(CasRead(n), fakeHdr, levels), gx, gy);
    var copyIn := [CopyIn(source, sub.arraySlice, CopyBox(sub, td))];
    var copyBack := [CopyBack(source, sub.arraySlice, ResultSlot(n, fakeHdr, levels), CopyBox(sub, td))];
    NoCopyBackAmongDispatches(CasSteps(run), gx, gy);
    NoCopyBackAmongDispatches(PostSteps(CasRead(n), fakeHdr, levels), gx, gy);
    assert CountCopyBacks(copyIn) == 0 && CountCopyBacks(begin) == 0 && CountCopyBacks(end) == 0;
    assert CountCopyBacks(copyBack) == 1;
    CountCopyBacksAppend(copyIn, begin);
    CountCopyBacksAppend(copyIn + begin, cas);
    assert CountCopyBacks(CasPhase(source, sub, td, run, timed)) == 0;
    if run == n {
      CountCopyBacksAppend(end, post);
      CountCopyBacksAppend(end + post, copyBack);
      CountCopyBacksAppend(CasPhase(source, sub, td, run, timed), PostPhase(source, sub, td, n, timed, fakeHdr, levels));
    } else {
      assert DispatchTrace(source, sub, td, n, failure, timed, fakeHdr, levels) == CasPhase(source, sub, td, run, timed);
    }
  }

  /** The dispatches of a complete run are exactly the ping-pong plan, and
      the timestamps, when the session has its queries, bracket the CAS
      passes only: the begin stamp directly follows the copy-in and the end
      stamp directly follows the last CAS pass, before any FakeHDR or Levels
      pass. */
  lemma CompleteRunFollowsPlan(source: Handle, sub: SubImage, td: TexDesc, n: nat,
                               failure: Option<nat>, timed: bool, fakeHdr: bool, levels: bool)
    requires PassesRun(n, failure) == n
    ensures var t := DispatchTrace(source, sub, td, n, failure, timed, fakeHdr, levels);
      var p := Plan(n, fakeHdr, levels);
      var stamp := if timed then 1 else 0;
      && |t| == |p| + 2 + 2 * stamp
      && (timed ==> t[1] == TimingBegin && t[n + 2] == TimingEnd)
      && (forall i :: 0 <= i < n ==> t[i + 1 + stamp].Dispatch? && t[i + 1 + stamp].step == p[i])
      && (forall i :: n <= i < |p| ==> t[i + 1 + 2 * stamp].Dispatch? && t[i + 1 + 2 * stamp].step == p[i])
  {
    var gx, gy := GroupCount(CopyWidth(sub, td)), GroupCount(CopyHeight(sub, td));
    CompleteTraceLayout(source, sub, td, n, failure, timed, fakeHdr, levels);
    TraceFollowsPlan(DispatchTrace(source, sub, td, n, failure, timed, fakeHdr, levels), timed,
                     CopyIn(source, sub.arraySlice, CopyBox(sub, td)),
                     CopyBack(source, sub.arraySlice, ResultSlot(n, fakeHdr, levels), CopyBox(sub, td)),
                     Plan(n, fakeHdr, levels), n, PostSteps(CasRead(n), fakeHdr, levels), gx, gy);
  }

  /** A complete trace is the copy-in, the optional begin stamp, the CAS
      dispatches, the optional end stamp, the post dispatches and the
      copy-back. */
  lemma CompleteTraceLayout(source: Handle, sub: SubImage, td: TexDesc, n: nat,
                            failure: Option<nat>, timed: bool, fakeHdr: bool, levels: bool)
    requires PassesRun(n, failure) == n
    ensures var gx, gy := GroupCount(CopyWidth(sub, td)), GroupCount(CopyHeight(sub, td));
      DispatchTrace(source, sub, td, n, failure, timed, fakeHdr, levels)
        == ([CopyIn(source, sub.arraySlice, CopyBox(sub, td))] + (if timed then [TimingBegin] else [])
            + Dispatches(CasSteps(n), gx, gy))
           + ((if timed then [TimingEnd] else []) + Dispatches(PostSteps(CasRead(n), fakeHdr, levels), gx, gy)
              + [CopyBack(source, sub.arraySlice, ResultSlot(n, fakeHdr, levels), CopyBox(sub, td))])
  {
  }

  /** Where each planned pass lies in a trace laid out as the copy-in, the
      optional begin stamp, the CAS dispatches, the optional end stamp, the
      post dispatches and the copy-back. */
  lemma TraceFollowsPlan(t: seq<Event>, timed: bool, copyIn: Event, copyBack: Event,
                         p: seq<PassStep>, n: nat, steps: seq<PassStep>, gx: u32, gy: u32)
    requires p == CasSteps(n) + steps
    requires t == ([copyIn] + (if timed then [TimingBegin] else []) + Dispatches(CasSteps(n), gx, gy))
                  + ((if timed then [TimingEnd] else []) + Dispatches(steps, gx, gy) + [copyBack])
    ensures var stamp := if timed then 1 else 0;
      && |t| == |p| + 2 + 2 * stamp
      && (timed ==> t[1] == TimingBegin && t[n + 2] == TimingEnd)
      && (forall i :: 0 <= i < n ==> t[i + 1 + stamp].Dispatch? && t[i + 1 + stamp].step == p[i])
      && (forall i :: n <= i < |p| ==> t[i + 1 + 2 * stamp].Dispatch? && t[i + 1 + 2 * stamp].step == p[i])
  {
    var stamp := if timed then 1 else 0;
    var head := [copyIn] + (if timed then [TimingBegin] else []);
    var mid: seq<Event> := if timed then [TimingEnd] else [];
    var cas := Dispatches(CasSteps(n), gx, gy);
    var rest := mid + Dispatches(steps, gx, gy) + [copyBack];
    assert |head| == 1 + stamp && |mid| == stamp;
    assert t == (head + cas) + rest;
    if timed {
      assert t[1] == head[1];
      assert t[n + 2] == rest[0];
    }
    forall i | 0 <= i < n ensures t[i + 1 + stamp].Dispatch? && t[i + 1 + stamp].step == p[i] {
      assert t[i + 1 + stamp] == cas[i];
    }
    forall i | n <= i < |p| ensures t[i + 1 + 2 * stamp].Dispatch? && t[i + 1 + 2 * stamp].step == p[i] {
      assert t[i + 1 + 2 * stamp] == rest[stamp + i - n];
    }
  }

  /** A run cut short by a refused view dispatches the CAS passes before the
      refused one and nothing else. */
  lemma ShortRunStopsAtFailure(source: Handle, sub: SubImage, td: TexDesc, n: nat, k: nat,
                               timed: bool, fakeHdr: bool, levels: bool)
    requires k < n
    ensures var t := DispatchTrace(source, sub, td, n, Some(k), timed, fakeHdr, levels);
      && |t| == 1 + (if timed then 1 else 0) + k
      && (forall i :: 0 <= i < |t| ==> !t[i].TimingEnd? && !t[i].CopyBack?)
  {
  }

  /** A slot without an output texture never gets past the first pass. */
  lemma MissingOutputStopsFirstPass(slot: TempTextures, failingPass: Option<nat>, n: nat)
    requires slot.output.None? && 1 <= n
    ensures PassesRun(n, FirstFailure(slot, failingPass)) == 0
  {
  }

  /** The result of one `dispatchCas`: the pool and the next texture handle
      afterwards, the commands recorded, and the GPU time sample fed to the
      averaging counter. */
  datatype DispatchResult = DispatchResult(pool: map<PoolKey, TempTextures>, next: Handle,
                                           events: seq<Event>, sample: Option<real>)

  predicate FakeHdrActive(c: CasObjects) {
    c.fakeHdr.enabled && c.fakeHdr.shader && c.fakeHdr.buffer
  }

  predicate LevelsActive(c: CasObjects) {
    c.levels.enabled && c.levels.shader && c.levels.buffer
  }

  predicate Timed(c: CasObjects) {
    c.queries.disjoint && c.queries.begin && c.queries.end
  }

  /** `dispatchCas` after `ensureCasObjects` answered `ready` and left the
      session's objects as `c`. */
  function DispatchWith(c: CasObjects, ready: bool, sharpness: real, pool: map<PoolKey, TempTextures>, next: Handle,
                        swapchain: Swapchain, source: Handle, td: TexDesc, sub: SubImage, dev: DeviceAnswers): (r: DispatchResult)
    ensures !ready || !Admits(td) ==> r == DispatchResult(pool, next, [], None)
  {
    if !ready || !Admits(td) then DispatchResult(pool, next, [], None)
    else
      var key := MakeTempKey(swapchain, sub.arraySlice);
      var p := PrepareSlot(PoolSlot(pool, key), td, dev.inputCreated, dev.outputCreated, next);
      if !p.proceed then DispatchResult(pool[key := p.slot], p.nextHandle, [], None)
      else
        var n := PassCount(sharpness);
        var failure := FirstFailure(p.slot, dev.failingPass);
        DispatchResult(pool[key := p.slot], p.nextHandle,
                       DispatchTrace(source, sub, td, n, failure, Timed(c), FakeHdrActive(c), LevelsActive(c)),
                       if PassesRun(n, failure) == n && Timed(c) then dev.readback else None)
  }

  /** `dispatchCas` on a session whose objects are `c` before the call. */
  function DispatchRun(c: CasObjects, hasDevice: bool, sharpness: real, pool: map<PoolKey, TempTextures>, next: Handle,
                       swapchain: Swapchain, source: Handle, td: TexDesc, sub: SubImage, dev: DeviceAnswers): (r: DispatchResult)
    ensures !hasDevice || !Admits(td) ==> r.events == [] && r.sample.None?
  {
    var e := EnsureStep(c, hasDevice, dev.init);
    DispatchWith(e.0, e.1, sharpness, pool, next, swapchain, source, td, sub, dev)
  }

  predicate PoolWellFormed(pool: map<PoolKey, TempTextures>, next: Handle) {
    forall key :: key in pool ==> SlotWellFormed(pool[key], next)
  }

  /** Storing a slot whose textures are all older than `next2` keeps the
      pool well formed. */
  lemma StoreKeepsPoolWellFormed(pool: map<PoolKey, TempTextures>, next: Handle, key: PoolKey,
                                 slot: TempTextures, next2: Handle)
    requires PoolWellFormed(pool, next) && next <= next2 && SlotWellFormed(slot, next2)
    ensures PoolWellFormed(pool[key := slot], next2)
  {
    var pool1 := pool[key := slot];
    forall k | k in pool1
      ensures SlotWellFormed(pool1[k], next2)
    {
      if k != key {
        assert pool1[k] == pool[k];
        assert SlotWellFormed(pool[k], next);
      }
    }
  }

  /** The pool stays well formed, only the slot of the image's key changes,
      and nothing at all changes (no pool entry, no command) when the
      session is not ready or the image's format or sample count is
      rejected. */
  lemma DispatchKeepsPool(c: CasObjects, hasDevice: bool, sharpness: real, pool: map<PoolKey, TempTextures>, next: Handle,
                          swapchain: Swapchain, source: Handle, td: TexDesc, sub: SubImage, dev: DeviceAnswers)
    requires PoolWellFormed(pool, next)
    ensures var r := DispatchRun(c, hasDevice, sharpness, pool, next, swapchain, source, td, sub, dev);
      && PoolWellFormed(r.pool, r.next)
      && next <= r.next
      && (forall key :: key in pool && key != MakeTempKey(swapchain, sub.arraySlice) ==> key in r.pool && r.pool[key] == pool[key])
      && (!EnsureStep(c, hasDevice, dev.init).1 || !Admits(td) ==> r == DispatchResult(pool, next, [], None))
  {
    var e := EnsureStep(c, hasDevice, dev.init);
    if e.1 && Admits(td) {
      var key := MakeTempKey(swapchain, sub.arraySlice);
      var slot := PoolSlot(pool, key);
      PrepareKeepsSlotWellFormed(slot, td, dev.inputCreated, dev.outputCreated, next);
      var p := PrepareSlot(slot, td, dev.inputCreated, dev.outputCreated, next);
      StoreKeepsPoolWellFormed(pool, next, key, p.slot, p.nextHandle);
    }
  }

  /** A session without a device, or whose primary shader failed for good,
      never records a command. */
  lemma UnreadySessionRecordsNothing(c: CasObjects, hasDevice: bool, sharpness: real, pool: map<PoolKey, TempTextures>,
                                     next: Handle, swapchain: Swapchain, source: Handle, td: TexDesc, sub: SubImage,
                                     dev: DeviceAnswers)
    requires !hasDevice || (Consistent(c) && c.initFailed)
    ensures DispatchRun(c, hasDevice, sharpness, pool, next, swapchain, source, td, sub, dev).events == []
  {
  }

  /** A sample reaches the averaging counter only after every CAS pass ran
      with the session's three queries in place. */
  lemma SampleOnlyAfterCompleteTimedRun(c: CasObjects, hasDevice: bool, sharpness: real, pool: map<PoolKey, TempTextures>,
                                        next: Handle, swapchain: Swapchain, source: Handle, td: TexDesc, sub: SubImage,
                                        dev: DeviceAnswers)
    ensures var r := DispatchRun(c, hasDevice, sharpness, pool, next, swapchain, source, td, sub, dev);
      r.sample.Some? ==> r.sample == dev.readback && TimingEnd in r.events && CountCopyBacks(r.events) == 1
  {
    var e := EnsureStep(c, hasDevice, dev.init);
    var r := DispatchRun(c, hasDevice, sharpness, pool, next, swapchain, source, td, sub, dev);
    if r.sample.Some? {
      var key := MakeTempKey(swapchain, sub.arraySlice);
      var p := PrepareSlot(PoolSlot(pool, key), td, dev.inputCreated, dev.outputCreated, next);
      var n := PassCount(sharpness);
      var failure := FirstFailure(p.slot, dev.failingPass);
      CopyBackOnlyWhenComplete(source, sub, td, n, failure, true, FakeHdrActive(e.0), LevelsActive(e.0));
      var cas := CasPhase(source, sub, td, n, true);
      assert r.events == cas + PostPhase(source, sub, td, n, true, FakeHdrActive(e.0), LevelsActive(e.0));
      assert r.events[|cas|] == TimingEnd;
    }
  }
}
