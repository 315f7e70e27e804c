/** The API layer object (`OpenXrLayer`): the sessions it created, the
    swapchain bookkeeping, the scratch-texture pool shared by all sessions,
    and the overridden entry points `xrCreateSession`, `xrCreateSwapchain`,
    `xrDestroySwapchain`, `xrAcquireSwapchainImage`,
    `xrReleaseSwapchainImage` and `xrEndFrame`, with `dispatchCas` as the
    work done for each processed view. The commands the layer records on the
    application's immediate context, and the frame events around them, are
    kept as a sequence of `Event`s. */
module ApiLayer {
  import opened XrTypes
  import opened TempPool
  import opened PassPlan
  import opened ConfigResolver
  import opened Session
  import opened Dispatch
  import opened Tracker

  /** What one `xrEndFrame` reads but does not change: whether the session
      has a device, its sharpness, the swapchain bookkeeping before the
      frame, and the answers of the runtime and of the device (the image
      enumeration of a swapchain, the description of a texture, and the
      device's answers for the `i`-th view). */
  datatype Frame = Frame(hasDevice: bool, sharpness: real, bookkeeping: Tracker,
                         enumerate: Swapchain -> Option<seq<Option<Handle>>>,
                         describe: Handle -> TexDesc,
                         answers: nat -> DeviceAnswers)

  /** What the views of one frame change: the session's objects and GPU
      timing counter, the cached image lists, the pool and its next texture
      handle, the recorded events, and the image chosen for each view so
      far. */
  datatype FrameState = FrameState(objects: CasObjects, timing: Timing,
                                   images: map<Swapchain, seq<Option<Handle>>>,
                                   pool: map<PoolKey, TempTextures>, next: Handle,
                                   events: seq<Event>, processed: seq<Option<Handle>>)

  /** One view of the first projection layer: pick its image and, if there
      is one, run `dispatchCas` on it. */
  function ViewStep(f: Frame, st: FrameState, sub: SubImage, index: nat): (r: FrameState)
    requires st.timing.frames < TIMING_WINDOW
    ensures r.timing.frames < TIMING_WINDOW
  {
    var sel := SelectImage(f.bookkeeping.(images := st.images), sub, f.enumerate);
    var st1 := st.(images := sel.1, processed := st.processed + [sel.0]);
    match sel.0
    case None => st1
    case Some(source) =>
      var dev := f.answers(index);
      var r := DispatchRun(st.objects, f.hasDevice, f.sharpness, st.pool, st.next,
                           sub.swapchain, source, f.describe(source), sub, dev);
      st1.(objects := EnsureStep(st.objects, f.hasDevice, dev.init).0,
           timing := if r.sample.Some? then TimingStep(st.timing, r.sample.value).0 else st.timing,
           pool := r.pool, next := r.next, events := st.events + r.events)
  }

  /** The views from the `index`-th on, in order. */
  function FrameRun(f: Frame, st: FrameState, views: seq<SubImage>, index: nat): (r: FrameState)
    requires st.timing.frames < TIMING_WINDOW
    ensures r.timing.frames < TIMING_WINDOW
    decreases |views|
  {
    if |views| == 0 then st
    else FrameRun(f, ViewStep(f, st, views[0], index), views[1..], index + 1)
  }

  /** One step of `FrameRun` at position `index` of `views`. */
  lemma FrameRunUnfolds(f: Frame, st: FrameState, views: seq<SubImage>, index: nat)
    requires st.timing.frames < TIMING_WINDOW && index < |views|
    ensures FrameRun(f, st, views[index..], index)
         == FrameRun(f, ViewStep(f, st, views[index], index), views[index + 1..], index + 1)
  {
    assert views[index..][0] == views[index] && views[index..][1..] == views[index + 1..];
  }

  /** The images a frame processes are exactly those `SelectAll` picks, and
      the image lists end as `SelectAll` leaves them: processing never
      changes which image a later view gets. */
  lemma {:induction false} FrameSelectsLikeSelectAll(f: Frame, st: FrameState, views: seq<SubImage>, index: nat)
    requires st.timing.frames < TIMING_WINDOW
    ensures var r := FrameRun(f, st, views, index);
      var sel := SelectAll(f.bookkeeping.(images := st.images), views, f.enumerate);
      r.processed == st.processed + sel.0 && r.images == sel.1
    decreases |views|
  {
    if |views| > 0 {
      var t := f.bookkeeping.(images := st.images);
      var first := SelectImage(t, views[0], f.enumerate);
      var st1 := ViewStep(f, st, views[0], index);
      assert st1.images == first.1 && st1.processed == st.processed + [first.0];
      assert f.bookkeeping.(images := st1.images) == t.(images := first.1);
      FrameSelectsLikeSelectAll(f, st1, views[1..], index + 1);
      assert st.processed + [first.0] + SelectAll(t.(images := first.1), views[1..], f.enumerate).0
          == st.processed + ([first.0] + SelectAll(t.(images := first.1), views[1..], f.enumerate).0);
    }
  }

  /** Over a whole frame the pool stays well formed, texture handles are
      never reused, and events are only appended. */
  lemma {:induction false} FrameKeepsPool(f: Frame, st: FrameState, views: seq<SubImage>, index: nat)
    requires st.timing.frames < TIMING_WINDOW
    requires PoolWellFormed(st.pool, st.next)
    ensures var r := FrameRun(f, st, views, index);
      && PoolWellFormed(r.pool, r.next)
      && st.next <= r.next
      && |st.events| <= |r.events| && r.events[..|st.events|] == st.events
    decreases |views|
  {
    if |views| > 0 {
      var st1 := ViewStep(f, st, views[0], index);
      var sel := SelectImage(f.bookkeeping.(images := st.images), views[0], f.enumerate);
      if sel.0.Some? {
        var source := sel.0.value;
        DispatchKeepsPool(st.objects, f.hasDevice, f.sharpness, st.pool, st.next,
                          views[0].swapchain, source, f.describe(source), views[0], f.answers(index));
      }
      assert st1.events[..|st.events|] == st.events;
      FrameKeepsPool(f, st1, views[1..], index + 1);
      var r := FrameRun(f, st1, views[1..], index + 1);
      assert r.events[..|st.events|] == r.events[..|st1.events|][..|st.events|];
    }
  }

  /** A session without a D3D11 device records no command, keeps its pool
      and its objects, whatever the frame submits. */
  lemma {:induction false} FrameWithoutDeviceRecordsNothing(f: Frame, st: FrameState, views: seq<SubImage>, index: nat)
    requires st.timing.frames < TIMING_WINDOW
    requires !f.hasDevice
    ensures var r := FrameRun(f, st, views, index);
      r.events == st.events && r.pool == st.pool && r.next == st.next && r.objects == st.objects && r.timing == st.timing
    decreases |views|
  {
    if |views| > 0 {
      var st1 := ViewStep(f, st, views[0], index);
      var sel := SelectImage(f.bookkeeping.(images := st.images), views[0], f.enumerate);
      if sel.0.Some? {
        var source := sel.0.value;
        assert EnsureStep(st.objects, false, f.answers(index).init) == (st.objects, false);
        assert st1.events == st.events + [];
      }
      FrameWithoutDeviceRecordsNothing(f, st1, views[1..], index + 1);
    }
  }

  /** Every copy-in and copy-back of a `dispatchCas` uses the image it was
      given. */
  lemma TraceTouchesOnlySource(source: Handle, sub: SubImage, td: TexDesc, n: nat, failure: Option<nat>,
                               timed: bool, fakeHdr: bool, levels: bool)
    ensures forall e :: e in DispatchTrace(source, sub, td, n, failure, timed, fakeHdr, levels) ==>
                          (e.CopyIn? || e.CopyBack?) ==> e.source == source
  {
    var gx, gy := GroupCount(CopyWidth(sub, td)), GroupCount(CopyHeight(sub, td));
    var cas := Dispatches(CasSteps(PassesRun(n, failure)), gx, gy);
    var post := Dispatches(PostSteps(CasRead(n), fakeHdr, levels), gx, gy);
    assert forall e :: e in cas ==> e.Dispatch?;
    assert forall e :: e in post ==> e.Dispatch?;
  }

  /** The images the layer reads from and writes to. */
  predicate TouchesOnly(events: seq<Event>, images: seq<Option<Handle>>) {
    forall e :: e in events && (e.CopyIn? || e.CopyBack?) ==> Some(e.source) in images
  }

  /** The layer copies only from and into the images it selected for the
      views of the frame. */
  lemma {:induction false} FrameTouchesOnlySelectedImages(f: Frame, st: FrameState, views: seq<SubImage>, index: nat)
    requires st.timing.frames < TIMING_WINDOW
    requires TouchesOnly(st.events, st.processed)
    ensures var r := FrameRun(f, st, views, index);
      TouchesOnly(r.events, r.processed)
    decreases |views|
  {
    if |views| > 0 {
      var st1 := ViewStep(f, st, views[0], index);
      var sel := SelectImage(f.bookkeeping.(images := st.images), views[0], f.enumerate);
      assert st1.processed == st.processed + [sel.0];
      if sel.0.Some? {
        var source := sel.0.value;
        var td := f.describe(source);
        var dev := f.answers(index);
        var c := EnsureStep(st.objects, f.hasDevice, dev.init).0;
        var r := DispatchRun(st.objects, f.hasDevice, f.sharpness, st.pool, st.next,
                             views[0].swapchain, source, td, views[0], dev);
        var key := MakeTempKey(views[0].swapchain, views[0].arraySlice);
        var p := PrepareSlot(PoolSlot(st.pool, key), td, dev.inputCreated, dev.outputCreated, st.next);
        TraceTouchesOnlySource(source, views[0], td, PassCount(f.sharpness), FirstFailure(p.slot, dev.failingPass),
                               Timed(c), FakeHdrActive(c), LevelsActive(c));
        assert forall e :: e in r.events && (e.CopyIn? || e.CopyBack?) ==> e.source == source;
        assert st1.events == st.events + r.events;
      }
      FrameTouchesOnlySelectedImages(f, st1, views[1..], index + 1);
    }
  }

  /** The session state `xrCreateSession` builds: the composition framework
      if one is available, the device of the first D3D11 binding in the
      chain, and the resolved configuration; no object is created yet. */
  method NewSession(compositionAvailable: bool, chain: seq<ChainRecord>, env: Environment, files: ConfigFiles,
                    parseReal: string -> Option<real>, parseInt: string -> Option<i32>)
    returns (s: SessionState)
    ensures fresh(s) && s.Valid()
    ensures var cfg := EffectConfigOf(env, files, parseReal, parseInt);
      && s.composition == compositionAvailable
      && s.device == DeviceFromChain(chain)
      && s.Settings() == cfg
      && s.Objects() == CasObjects(false, false, false, Queries(false, false, false), false, false,
                                   Effect(cfg.levelsEnabled, false, false), Effect(cfg.fakeHdrEnabled, false, false))
      && s.TimingState() == Timing(0, 0.0)
  {
    var device := FindD3D11Device(chain);
    var cfg := ReadEffectConfig(env, files, parseReal, parseInt);
    s := new SessionState.Open(compositionAvailable, device, cfg);
  }

  /** `OpenXrLayer`: the state the layer keeps across calls. */
  class OpenXrLayer {
    var sessions: map<SessionHandle, SessionState>
    var acquired: map<Swapchain, seq<u32>>
    var lastReleased: map<Swapchain, Option<u32>>
    var swapchainImages: map<Swapchain, seq<Option<Handle>>>
    var tempPool: map<PoolKey, TempTextures>
    /** The handle the next created scratch texture gets. */
    var nextTexture: Handle
    /** The commands and frame events recorded so far. */
    var commands: seq<Event>

    function Bookkeeping(): Tracker
      reads this
    {
      Tracker(acquired, lastReleased, swapchainImages)
    }

    /** The scratch-texture pool is well formed. */
    predicate Valid()
      reads this`tempPool, this`nextTexture
    {
      PoolWellFormed(tempPool, nextTexture)
    }

    /** Every registered session keeps its own invariant. */
    predicate SessionsValid()
      reads this, sessions.Values
    {
      forall h :: h in sessions ==> sessions[h].Valid()
    }

    lemma SessionValid(s: SessionState)
      requires SessionsValid() && s in sessions.Values
      ensures s.Valid()
    {
      var h :| h in sessions && sessions[h] == s;
    }

    /** The frame as seen from session `s`. */
    function FrameFor(s: SessionState, enumerate: Swapchain -> Option<seq<Option<Handle>>>,
                      describe: Handle -> TexDesc, answers: nat -> DeviceAnswers): Frame
      reads this, s
    {
      Frame(s.device.Some?, s.sharpness, Bookkeeping(), enumerate, describe, answers)
    }

    /** `f` describes the frame as session `s` and the layer see it: the
        parts of the state processing a frame leaves alone. */
    predicate Serves(s: SessionState, f: Frame)
      reads s`device, s`sharpness, this`acquired, this`lastReleased
    {
      && f.hasDevice == s.device.Some? && f.sharpness == s.sharpness
      && f.bookkeeping.acquired == acquired && f.bookkeeping.lastReleased == lastReleased
    }

    /** The part of the layer's and of session `s`'s state a frame changes. */
    function StateFor(s: SessionState, events: seq<Event>, processed: seq<Option<Handle>>): FrameState
      reads this, s
    {
      FrameState(s.Objects(), s.TimingState(), swapchainImages, tempPool, nextTexture, events, processed)
    }

    constructor()
      ensures Valid() && SessionsValid()
      ensures sessions == map[] && Bookkeeping() == Tracker(map[], map[], map[])
      ensures tempPool == map[] && commands == []
    {
      sessions := map[];
      acquired, lastReleased, swapchainImages := map[], map[], map[];
      tempPool := map[];
      nextTexture := 0;
      commands := [];
    }

    /** `xrCreateSession`: when the runtime created the session, a new
        session state gets the composition framework if one is available,
        the device of the first D3D11 binding in the chain, and the
        resolved configuration, and is stored under the new handle
        (replacing any earlier state stored there). */
    method CreateSession(handle: SessionHandle, created: bool, compositionAvailable: bool,
                         chain: seq<ChainRecord>, env: Environment, files: ConfigFiles,
                         parseReal: string -> Option<real>, parseInt: string -> Option<i32>)
      requires SessionsValid()
      modifies this`sessions
      ensures SessionsValid()
      ensures !created ==> sessions == old(sessions)
      ensures created ==>
        && handle in sessions && fresh(sessions[handle])
        && sessions == old(sessions)[handle := sessions[handle]]
      ensures created ==>
        var s := sessions[handle];
        var cfg := EffectConfigOf(env, files, parseReal, parseInt);
        && s.composition == compositionAvailable
        && s.device == DeviceFromChain(chain)
        && s.Settings() == cfg
        && s.Objects() == CasObjects(false, false, false, Queries(false, false, false), false, false,
                                     Effect(cfg.levelsEnabled, false, false), Effect(cfg.fakeHdrEnabled, false, false))
        && s.TimingState() == Timing(0, 0.0)
    {
      if !created {
        return;
      }
      var s := NewSession(compositionAvailable, chain, env, files, parseReal, parseInt);
      sessions := sessions[handle := s];
    }

    /** `xrCreateSwapchain`: for a swapchain the runtime created in a
        session with a D3D11 device, a successful non-empty enumeration of
        its images is cached. */
    method CreateSwapchain(session: SessionHandle, swapchain: Swapchain, created: bool,
                           enumerated: Option<seq<Option<Handle>>>)
      modifies this`swapchainImages
      ensures swapchainImages ==
        if created && session in sessions && sessions[session].device.Some?
        then CacheImages(old(swapchainImages), swapchain, enumerated)
        else old(swapchainImages)
    {
      if created && session in sessions && sessions[session].device.Some? {
        if enumerated.Some? && |enumerated.value| > 0 {
          swapchainImages := swapchainImages[swapchain := enumerated.value];
        }
      }
    }

    /** `xrDestroySwapchain`: the swapchain's bookkeeping is erased; the
        pool is left alone. */
    method DestroySwapchain(swapchain: Swapchain)
      modifies this`acquired, this`lastReleased, this`swapchainImages
      ensures Bookkeeping() == Destroy(old(Bookkeeping()), swapchain)
    {
      acquired := acquired - {swapchain};
      lastReleased := lastReleased - {swapchain};
      swapchainImages := swapchainImages - {swapchain};
    }

    /** `xrAcquireSwapchainImage`: `index` is the runtime's answer, none when
        the call failed. */
    method AcquireSwapchainImage(swapchain: Swapchain, index: Option<u32>)
      modifies this`acquired
      ensures Bookkeeping() == if index.Some? then Acquire(old(Bookkeeping()), swapchain, index.value) else old(Bookkeeping())
    {
      if index.Some? {
        var queue := if swapchain in acquired then acquired[swapchain] else [];
        acquired := acquired[swapchain := queue + [index.value]];
      }
    }

    /** `xrReleaseSwapchainImage`: on success the front of the queue is
        popped into the last released index; looking both maps up inserts an
        entry for the swapchain. */
    method ReleaseSwapchainImage(swapchain: Swapchain, succeeded: bool)
      modifies this`acquired, this`lastReleased
      ensures Bookkeeping() == if succeeded then Release(old(Bookkeeping()), swapchain) else old(Bookkeeping())
    {
      if succeeded {
        var queue := if swapchain in acquired then acquired[swapchain] else [];
        acquired := acquired[swapchain := queue];
        if |queue| > 0 {
          lastReleased := lastReleased[swapchain := Some(queue[0])];
          acquired := acquired[swapchain := queue[1..]];
        }
        if swapchain !in lastReleased {
          lastReleased := lastReleased[swapchain := None];
        }
      }
    }

    /** The pool block of `dispatchCas`: look the slot up (inserting a
        default one), recreate its textures when needed, and store it. */
    method PrepareScratch(key: PoolKey, td: TexDesc, inputOk: bool, outputOk: bool)
      returns (slot: TempTextures, proceed: bool)
      modifies this`tempPool, this`nextTexture
      ensures var p := PrepareSlot(PoolSlot(old(tempPool), key), td, inputOk, outputOk, old(nextTexture));
        && slot == p.slot && proceed == p.proceed
        && nextTexture == p.nextHandle && tempPool == old(tempPool)[key := p.slot]
    {
      slot := if key in tempPool then tempPool[key] else EMPTY_SLOT;
      proceed := true;
      if NeedsRecreate(slot, td) {
        if !inputOk {
          slot := slot.(input := None);
          proceed := false;
        } else {
          slot := slot.(input := Some(nextTexture));
          nextTexture := nextTexture + 1;
          if !outputOk {
            slot := slot.(output := None);
            proceed := false;
          } else {
            slot := slot.(output := Some(nextTexture));
            nextTexture := nextTexture + 1;
            slot := slot.(width := td.width, height := td.height, format := td.format);
          }
        }
      }
      tempPool := tempPool[key := slot];
    }

    /** The CAS loop of `dispatchCas`: pass `i` reads one scratch texture
        and writes the other, then they swap; a pass whose view cannot be
        made (the device refuses it, or the texture is missing) ends the
        call. */
    method RunCasPasses(slot: TempTextures, n: nat, gx: u32, gy: u32, failingPass: Option<nat>)
      returns (complete: bool, latest: Slot)
      requires slot.input.Some?
      modifies this`commands
      ensures complete <==> PassesRun(n, FirstFailure(slot, failingPass)) == n
      ensures commands == old(commands) + Dispatches(CasSteps(PassesRun(n, FirstFailure(slot, failingPass))), gx, gy)
      ensures complete ==> latest == CasRead(n)
    {
      var read, write := Input, Output;
      var pass := 0;
      while pass < n
        invariant 0 <= pass <= n
        invariant read == CasRead(pass) && write == read.Other()
        invariant commands == old(commands) + Dispatches(CasSteps(pass), gx, gy)
        invariant pass > 0 ==> slot.output.Some? && (failingPass.None? || failingPass.value >= pass)
      {
        if SlotTexture(slot, write).None? || failingPass == Some(pass) {
          return false, read;
        }
        assert Dispatches(CasSteps(pass + 1), gx, gy) == Dispatches(CasSteps(pass), gx, gy) + [Event.Dispatch(CasStep(pass), gx, gy)];
        commands := commands + [Event.Dispatch(PassStep(Cas, read, write), gx, gy)];
        read, write := write, read;
        pass := pass + 1;
      }
      return true, read;
    }

    /** The FakeHDR and Levels passes: each reads the latest result and
        writes whichever scratch texture is not the one holding it. */
    method RunPostPasses(slot: TempTextures, casFinal: Slot, n: nat, fakeHdr: bool, levels: bool, gx: u32, gy: u32)
      returns (final: Slot)
      requires slot.input.Some? && slot.output.Some? && slot.input != slot.output
      requires casFinal == CasRead(n)
      modifies this`commands
      ensures commands == old(commands) + Dispatches(PostSteps(casFinal, fakeHdr, levels), gx, gy)
      ensures final == ResultSlot(n, fakeHdr, levels)
    {
      final := casFinal;
      if fakeHdr {
        var dst := if SlotTexture(slot, final) == slot.input then Output else Input;
        commands := commands + [Event.Dispatch(PassStep(FakeHdr, final, dst), gx, gy)];
        final := dst;
      }
      if levels {
        var dst := if SlotTexture(slot, final) == slot.input then Output else Input;
        commands := commands + [Event.Dispatch(PassStep(Levels, final, dst), gx, gy)];
        final := if SlotTexture(slot, dst) == slot.input then Input else Output;
      }
    }

    /** The first part of the commands `dispatchCas` records once the slot
        is ready: the copy-in, the begin stamp when the session has its
        queries, and the CAS loop. */
    method RecordCasPhase(s: SessionState, source: Handle, td: TexDesc, sub: SubImage,
                          slot: TempTextures, dev: DeviceAnswers)
      returns (complete: bool, latest: Slot)
      requires slot.input.Some?
      modifies this`commands
      ensures var n := PassCount(s.sharpness);
        var run := PassesRun(n, FirstFailure(slot, dev.failingPass));
        && commands == old(commands) + CasPhase(source, sub, td, run, Timed(s.Objects()))
        && (complete <==> run == n)
        && (complete ==> latest == CasRead(n) && slot.output.Some?)
    {
      ghost var log0 := commands;
      commands := commands + [CopyIn(source, sub.arraySlice, CopyBox(sub, td))];
      if s.qDisjoint && s.qBegin && s.qEnd {
        commands := commands + [TimingBegin];
      }
      ghost var log1 := commands;
      var gx, gy := GroupCount(CopyWidth(sub, td)), GroupCount(CopyHeight(sub, td));
      var n := PassCount(s.sharpness);
      complete, latest := RunCasPasses(slot, n, gx, gy, dev.failingPass);
      assert commands == log1 + Dispatches(CasSteps(PassesRun(n, FirstFailure(slot, dev.failingPass))), gx, gy);
    }

    /** The end of the timed interval: the end stamp, and the readback
        (when the queries answer) fed to the averaging counter. */
    method EndTiming(s: SessionState, readback: Option<real>)
      requires s.Valid()
      modifies this`commands, s`timingFrameCounter, s`timingAccumMs
      ensures s.Valid() && s.Objects() == old(s.Objects())
      ensures commands == old(commands) + if Timed(s.Objects()) then [TimingEnd] else []
      ensures s.TimingState() ==
        if Timed(s.Objects()) && readback.Some? then TimingStep(old(s.TimingState()), readback.value).0
        else old(s.TimingState())
    {
      if s.qDisjoint && s.qBegin && s.qEnd {
        commands := commands + [TimingEnd];
        if readback.Some? {
          var _ := s.RecordGpuTime(readback.value);
        }
      }
    }

    /** The rest of the commands after a complete CAS loop: the enabled
        post passes and the copy-back from the latest result. */
    method RecordPostPasses(s: SessionState, source: Handle, td: TexDesc, sub: SubImage,
                            slot: TempTextures, latest: Slot)
      requires slot.input.Some? && slot.output.Some? && slot.input != slot.output
      requires latest == CasRead(PassCount(s.sharpness))
      modifies this`commands
      ensures var c := s.Objects();
        var n := PassCount(s.sharpness);
        commands == old(commands)
          + Dispatches(PostSteps(CasRead(n), FakeHdrActive(c), LevelsActive(c)), GroupCount(CopyWidth(sub, td)), GroupCount(CopyHeight(sub, td)))
          + [CopyBack(source, sub.arraySlice, ResultSlot(n, FakeHdrActive(c), LevelsActive(c)), CopyBox(sub, td))]
    {
      var gx, gy := GroupCount(CopyWidth(sub, td)), GroupCount(CopyHeight(sub, td));
      var n := PassCount(s.sharpness);
      var fakeHdr := s.fakeHdrEnabled && s.fakeHdrCS && s.fakeHdrCB;
      var levels := s.levelsEnabled && s.levelsCS && s.levelsCB;
      var final := RunPostPasses(slot, latest, n, fakeHdr, levels, gx, gy);
      commands := commands + [CopyBack(source, sub.arraySlice, final, CopyBox(sub, td))];
    }

    /** Everything after a complete CAS loop, as `PostPhase` lists it. */
    method FinishRun(s: SessionState, source: Handle, td: TexDesc, sub: SubImage,
                     slot: TempTextures, latest: Slot, readback: Option<real>)
      requires s.Valid()
      requires slot.input.Some? && slot.output.Some? && slot.input != slot.output
      requires latest == CasRead(PassCount(s.sharpness))
      modifies this`commands, s`timingFrameCounter, s`timingAccumMs
      ensures s.Valid() && s.Objects() == old(s.Objects())
      ensures var c := s.Objects();
        commands == old(commands) + PostPhase(source, sub, td, PassCount(s.sharpness), Timed(c), FakeHdrActive(c), LevelsActive(c))
      ensures s.TimingState() ==
        if Timed(s.Objects()) && readback.Some? then TimingStep(old(s.TimingState()), readback.value).0
        else old(s.TimingState())
    {
      ghost var log0, c := commands, s.Objects();
      ghost var endStamp: seq<Event> := if Timed(c) then [TimingEnd] else [];
      EndTiming(s, readback);
      ghost var log1 := commands;
      RecordPostPasses(s, source, td, sub, slot, latest);
      ghost var rest := commands[|log1|..];
      assert commands == log1 + rest;
      assert endStamp + rest == PostPhase(source, sub, td, PassCount(s.sharpness), Timed(c), FakeHdrActive(c), LevelsActive(c));
      assert commands == log0 + (endStamp + rest);
    }

    /** The commands `dispatchCas` records once the slot is ready, as
        `DispatchTrace` lists them; a readback after a complete timed run
        reaches the session's averaging counter. */
    method RecordPasses(s: SessionState, source: Handle, td: TexDesc, sub: SubImage,
                        slot: TempTextures, dev: DeviceAnswers)
      requires s.Valid()
      requires slot.input.Some? && (slot.output.Some? ==> slot.input != slot.output)
      modifies this`commands, s`timingFrameCounter, s`timingAccumMs
      ensures s.Valid()
      ensures var n := PassCount(s.sharpness);
        var failure := FirstFailure(slot, dev.failingPass);
        var c := s.Objects();
        && commands == old(commands) + DispatchTrace(source, sub, td, n, failure, Timed(c), FakeHdrActive(c), LevelsActive(c))
        && s.TimingState() ==
             if PassesRun(n, failure) == n && Timed(c) && dev.readback.Some?
             then TimingStep(old(s.TimingState()), dev.readback.value).0
             else old(s.TimingState())
    {
      ghost var log0 := commands;
      var complete, latest := RecordCasPhase(s, source, td, sub, slot, dev);
      if complete {
        ghost var log1 := commands;
        FinishRun(s, source, td, sub, slot, latest, dev.readback);
        assert commands == log0 + (log1[|log0|..] + commands[|log1|..]);
      }
    }

    /** `dispatchCas` after `ensureCasObjects` answered `ready`: when the
        session is ready and the image's format and sample count are
        accepted, prepare the pool slot, then record the commands. */
    method DispatchReady(s: SessionState, ready: bool, swapchain: Swapchain, source: Handle, td: TexDesc,
                         sub: SubImage, dev: DeviceAnswers)
      requires Valid() && s.Valid()
      modifies this`tempPool, this`nextTexture, this`commands, s`timingFrameCounter, s`timingAccumMs
      ensures Valid() && s.Valid() && s.Objects() == old(s.Objects())
      ensures var r := DispatchWith(s.Objects(), ready, s.sharpness, old(tempPool), old(nextTexture),
                                    swapchain, source, td, sub, dev);
        && tempPool == r.pool && nextTexture == r.next && commands == old(commands) + r.events
        && s.TimingState() == if r.sample.Some? then TimingStep(old(s.TimingState()), r.sample.value).0 else old(s.TimingState())
    {
      if !ready || !Admits(td) {
        return;
      }
      var key := MakeTempKey(swapchain, sub.arraySlice);
      ghost var p := PrepareSlot(PoolSlot(tempPool, key), td, dev.inputCreated, dev.outputCreated, nextTexture);
      PrepareKeepsSlotWellFormed(PoolSlot(tempPool, key), td, dev.inputCreated, dev.outputCreated, nextTexture);
      StoreKeepsPoolWellFormed(tempPool, nextTexture, key, p.slot, p.nextHandle);
      var slot, proceed := PrepareScratch(key, td, dev.inputCreated, dev.outputCreated);
      if proceed {
        RecordPasses(s, source, td, sub, slot, dev);
      }
    }

    /** `dispatchCas` on the image `source` (described by `td`) of a view of
        session `s`: the layer's pool, next texture handle and command log,
        and the session's objects and GPU timing, end as `DispatchRun`
        says. */
    method DispatchCas(s: SessionState, swapchain: Swapchain, source: Handle, td: TexDesc, sub: SubImage,
                       dev: DeviceAnswers)
      requires Valid() && s.Valid()
      modifies this`tempPool, this`nextTexture, this`commands,
               s`cs, s`constCB, s`debugCB, s`qDisjoint, s`qBegin, s`qEnd,
               s`shaderInitAttempted, s`shaderInitFailed,
               s`levelsEnabled, s`levelsCS, s`levelsCB,
               s`fakeHdrEnabled, s`fakeHdrCS, s`fakeHdrCB,
               s`timingFrameCounter, s`timingAccumMs
      ensures Valid() && s.Valid()
      ensures var r := DispatchRun(old(s.Objects()), s.device.Some?, s.sharpness, old(tempPool), old(nextTexture),
                                   swapchain, source, td, sub, dev);
        && tempPool == r.pool && nextTexture == r.next && commands == old(commands) + r.events
        && s.Objects() == EnsureStep(old(s.Objects()), s.device.Some?, dev.init).0
        && s.TimingState() == if r.sample.Some? then TimingStep(old(s.TimingState()), r.sample.value).0 else old(s.TimingState())
    {
      var ready := s.Ensure(dev.init);
      DispatchReady(s, ready, swapchain, source, td, sub, dev);
    }

    /** The view loop of `xrEndFrame`: the image of a view comes from the
        last released index, with a fallback enumeration when the
        swapchain's list is not cached. */
    method SelectView(sub: SubImage, enumerate: Swapchain -> Option<seq<Option<Handle>>>)
      returns (target: Option<Handle>)
      modifies this`swapchainImages
      ensures (target, swapchainImages) == SelectImage(old(Bookkeeping()), sub, enumerate)
    {
      target := None;
      var sc := sub.swapchain;
      if sc in lastReleased && lastReleased[sc].Some? {
        var idx := lastReleased[sc].value;
        if sc !in swapchainImages {
          var images := enumerate(sc);
          if images.Some? && |images.value| > 0 {
            swapchainImages := swapchainImages[sc := images.value];
          }
        }
        if sc in swapchainImages && idx < |swapchainImages[sc]| {
          target := swapchainImages[sc][idx];
        }
      }
    }

    /** One view of `xrEndFrame`: select its image and, when there is one,
        run `dispatchCas` on it, as `ViewStep` says. */
    method ProcessView(s: SessionState, f: Frame, sub: SubImage, index: nat, processed: seq<Option<Handle>>)
      returns (target: Option<Handle>)
      requires Valid() && s.Valid()
      requires Serves(s, f)
      modifies this`swapchainImages, this`tempPool, this`nextTexture, this`commands,
               s`cs, s`constCB, s`debugCB, s`qDisjoint, s`qBegin, s`qEnd,
               s`shaderInitAttempted, s`shaderInitFailed,
               s`levelsEnabled, s`levelsCS, s`levelsCB,
               s`fakeHdrEnabled, s`fakeHdrCS, s`fakeHdrCB,
               s`timingFrameCounter, s`timingAccumMs
      ensures Valid() && s.Valid()
      ensures StateFor(s, commands, processed + [target]) == ViewStep(f, old(StateFor(s, commands, processed)), sub, index)
    {
      ghost var st := StateFor(s, commands, processed);
      assert f.bookkeeping.(images := st.images) == Bookkeeping();
      target := SelectView(sub, f.enumerate);
      if target.Some? {
        DispatchCas(s, sub.swapchain, target.value, f.describe(target.value), sub, f.answers(index));
      }
    }

    /** The views loop of `xrEndFrame`: every view of the first projection
        layer in turn, as `FrameRun` says. */
    method ProcessViews(s: SessionState, f: Frame, views: seq<SubImage>) returns (processed: seq<Option<Handle>>)
      requires Valid() && s.Valid()
      requires Serves(s, f)
      modifies this`swapchainImages, this`tempPool, this`nextTexture, this`commands,
               s`cs, s`constCB, s`debugCB, s`qDisjoint, s`qBegin, s`qEnd,
               s`shaderInitAttempted, s`shaderInitFailed,
               s`levelsEnabled, s`levelsCS, s`levelsCB,
               s`fakeHdrEnabled, s`fakeHdrCS, s`fakeHdrCB,
               s`timingFrameCounter, s`timingAccumMs
      ensures Valid() && s.Valid()
      ensures StateFor(s, commands, processed) == FrameRun(f, old(StateFor(s, commands, [])), views, 0)
    {
      processed := [];
      ghost var st0 := StateFor(s, commands, []);
      ghost var st := st0;
      var vi := 0;
      while vi < |views|
        invariant 0 <= vi <= |views|
        invariant Valid() && s.Valid()
        invariant StateFor(s, commands, processed) == st
        invariant st.timing.frames < TIMING_WINDOW
        invariant FrameRun(f, st, views[vi..], vi) == FrameRun(f, st0, views, 0)
      {
        FrameRunUnfolds(f, st, views, vi);
        var target := ProcessView(s, f, views[vi], vi, processed);
        processed := processed + [target];
        st := ViewStep(f, st, views[vi], vi);
        vi := vi + 1;
      }
      assert views[vi..] == [];
      assert FrameRun(f, st, views[vi..], vi) == st;
    }

    /** The part of `xrEndFrame` for a session of the layer: the views of
        the first projection layer are processed as `FrameRun` says,
        bracketed by the composition framework's serialization when the
        session has one. */
    method SessionFrame(s: SessionState, layers: seq<CompositionLayer>,
                        enumerate: Swapchain -> Option<seq<Option<Handle>>>,
                        describe: Handle -> TexDesc, answers: nat -> DeviceAnswers)
      returns (processed: seq<Option<Handle>>)
      requires Valid() && s.Valid()
      modifies this`swapchainImages, this`tempPool, this`nextTexture, this`commands,
               s`cs, s`constCB, s`debugCB, s`qDisjoint, s`qBegin, s`qEnd,
               s`shaderInitAttempted, s`shaderInitFailed,
               s`levelsEnabled, s`levelsCS, s`levelsCB,
               s`fakeHdrEnabled, s`fakeHdrCS, s`fakeHdrCB,
               s`timingFrameCounter, s`timingAccumMs
      ensures Valid() && s.Valid()
      ensures var pre: seq<Event> := if s.composition then [PreComposition] else [];
        var post: seq<Event> := if s.composition then [PostComposition] else [];
        var r := FrameRun(old(FrameFor(s, enumerate, describe, answers)), old(StateFor(s, commands + pre, [])),
                          ViewsToProcess(layers), 0);
        && StateFor(s, r.events, processed) == r
        && commands == r.events + post
    {
      ghost var pre: seq<Event> := if s.composition then [PreComposition] else [];
      ghost var st0 := StateFor(s, commands + pre, []);
      var f := FrameFor(s, enumerate, describe, answers);
      if s.composition {
        commands := commands + [PreComposition];
      }
      assert StateFor(s, commands, []) == st0;
      var first := FindFirstProjection(layers);
      var views := if first.Some? then layers[first.value].views else [];
      assert views == ViewsToProcess(layers);
      processed := ProcessViews(s, f, views);
      ghost var events := commands;
      if s.composition {
        commands := commands + [PostComposition];
      }
      assert StateFor(s, events, processed) == FrameRun(f, st0, views, 0);
    }

    /** The session a frame of `session` may change: none for an unknown
        handle. */
    function FrameSession(session: SessionHandle): (r: set<SessionState>)
      reads this
      ensures r <= sessions.Values
      ensures session in sessions ==> r == {sessions[session]}
      ensures session !in sessions ==> r == {}
    {
      if session in sessions then {sessions[session]} else {}
    }

    /** `xrEndFrame`: a frame of a session of the layer is processed as
        `SessionFrame` says; the frame is forwarded to the runtime in every
        case. `processed` is the image chosen for each view. Only the per-frame
        fields of the frame's own session may change. */
    method EndFrame(session: SessionHandle, layers: seq<CompositionLayer>,
                    enumerate: Swapchain -> Option<seq<Option<Handle>>>,
                    describe: Handle -> TexDesc, answers: nat -> DeviceAnswers)
      returns (processed: seq<Option<Handle>>)
      requires Valid() && SessionsValid()
      modifies this`swapchainImages, this`tempPool, this`nextTexture, this`commands,
               FrameSession(session)`cs, FrameSession(session)`constCB, FrameSession(session)`debugCB,
               FrameSession(session)`qDisjoint, FrameSession(session)`qBegin, FrameSession(session)`qEnd,
               FrameSession(session)`shaderInitAttempted, FrameSession(session)`shaderInitFailed,
               FrameSession(session)`levelsEnabled, FrameSession(session)`levelsCS, FrameSession(session)`levelsCB,
               FrameSession(session)`fakeHdrEnabled, FrameSession(session)`fakeHdrCS, FrameSession(session)`fakeHdrCB,
               FrameSession(session)`timingFrameCounter, FrameSession(session)`timingAccumMs
      ensures Valid() && SessionsValid()
      ensures unchanged(sessions.Values - FrameSession(session))
      ensures session !in sessions ==>
        && processed == [] && commands == old(commands) + [EndFrameForwarded]
        && swapchainImages == old(swapchainImages) && tempPool == old(tempPool) && nextTexture == old(nextTexture)
        && unchanged(sessions.Values)
      ensures session in sessions ==>
        var s := sessions[session];
        var pre: seq<Event> := if s.composition then [PreComposition] else [];
        var post: seq<Event> := if s.composition then [PostComposition] else [];
        var r := FrameRun(old(FrameFor(s, enumerate, describe, answers)), old(StateFor(s, commands + pre, [])),
                          ViewsToProcess(layers), 0);
        && StateFor(s, r.events, processed) == r
        && commands == r.events + post + [EndFrameForwarded]
    {
      if session in sessions {
        var s := sessions[session];
        SessionValid(s);
        processed := SessionFrame(s, layers, enumerate, describe, answers);
      } else {
        processed := [];
      }
      commands := commands + [EndFrameForwarded];
    }
  }
}
