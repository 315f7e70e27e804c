/** Per-session state of the layer (`SessionState`), the lazy creation of
    the D3D11 objects the passes need (`ensureCasObjects`) and the search of
    the session-create chain for the application's D3D11 device. */
module Session {
  import opened XrTypes
  import opened ConfigResolver
  import opened PassPlan

  /** An optional effect (Levels or FakeHDR): enabled by configuration,
      and whether its shader and its constant buffer exist. */
  datatype Effect = Effect(enabled: bool, shader: bool, buffer: bool)

  /** The three timestamp queries (disjoint, begin, end). */
  datatype Queries = Queries(disjoint: bool, begin: bool, end: bool)

  /** Which of the session's lazily created objects exist, together with the
      flags `ensureCasObjects` reads and writes. */
  datatype CasObjects = CasObjects(
    cs: bool, constCB: bool, debugCB: bool, queries: Queries,
    initAttempted: bool, initFailed: bool,
    levels: Effect, fakeHdr: Effect)

  predicate EffectReady(e: Effect) {
    !e.enabled || e.shader
  }

  /** The early-return test of `ensureCasObjects`: the CAS shader exists and
      every enabled effect has its shader. */
  predicate Ready(c: CasObjects) {
    c.cs && EffectReady(c.levels) && EffectReady(c.fakeHdr)
  }

  /** The answers of the file system, the shader compiler and the device
      while the CAS shader is created: the precompiled `CAS.cso` exists; it
      reads as a non-empty byte string (a read that throws counts as not);
      the device accepts it; `d3dcompiler_47.dll` loads (from the system or
      next to the layer); it exports `D3DCompileFromFile`; `CAS.hlsl`
      compiles; the device accepts the compiled code. */
  datatype PrimaryOutcome = PrimaryOutcome(
    csoExists: bool, csoReadable: bool, csoAccepted: bool,
    compilerLoaded: bool, entryPointFound: bool, compiled: bool, compiledAccepted: bool)

  /** The same answers for an optional effect shader (Levels or FakeHDR),
      plus whether its 32-byte constant buffer is created. */
  datatype EffectOutcome = EffectOutcome(
    compilerLoaded: bool, entryPointFound: bool, compiled: bool, accepted: bool, bufferCreated: bool)
  {
    predicate Builds() {
      compilerLoaded && entryPointFound && compiled && accepted
    }
  }

  /** Everything one call of `ensureCasObjects` may ask the outside world. */
  datatype InitOutcome = InitOutcome(
    primary: PrimaryOutcome, levels: EffectOutcome, fakeHdr: EffectOutcome,
    constBuffer: bool, debugBuffer: bool, queries: Queries)

  /** The CAS shader block: whether a shader was created, and whether the
      session's `cs` pointer is set afterwards. A creation call that fails
      clears the pointer; a step that fails before calling the device leaves
      it as it was. */
  function PrimaryShader(csBefore: bool, p: PrimaryOutcome): (r: (bool, bool))
    ensures r.0 ==> r.1
    ensures !r.0 && !csBefore ==> !r.1
    ensures r.0 <==> (p.csoExists && p.csoReadable && p.csoAccepted) ||
                     (p.compilerLoaded && p.entryPointFound && p.compiled && p.compiledAccepted)
  {
    var triedCso := p.csoExists && p.csoReadable;
    if triedCso && p.csoAccepted then (true, true)
    else
      var csAfterCso := if triedCso then false else csBefore;
      if !p.compilerLoaded || !p.entryPointFound || !p.compiled then (false, csAfterCso)
      else (p.compiledAccepted, p.compiledAccepted)
  }

  /** An optional effect's block: run only when the effect is enabled and
      has no shader yet; a shader that cannot be made disables the effect. */
  function EffectShader(e: Effect, o: EffectOutcome): (r: Effect)
    ensures EffectReady(r)
    ensures e.shader || !e.enabled ==> r == e
    ensures e.enabled && !e.shader ==> (r.enabled <==> o.Builds())
    ensures e.enabled && !e.shader && o.Builds() ==> r.buffer == o.bufferCreated
    ensures e.enabled && !e.shader && !o.Builds() ==> r == e.(enabled := false)
  {
    if e.enabled && !e.shader then
      if o.Builds() then Effect(true, true, o.bufferCreated)
      else e.(enabled := false)
    else e
  }

  /** The objects once the CAS shader exists and the effect blocks ran. */
  function WithShaders(c: CasObjects, o: InitOutcome): CasObjects {
    c.(initAttempted := true, cs := true,
       levels := EffectShader(c.levels, o.levels), fakeHdr := EffectShader(c.fakeHdr, o.fakeHdr))
  }

  /** The constant buffer, the debug buffer and (once per session) the
      timestamp queries; a failed buffer answers false. */
  function WithBuffers(c: CasObjects, o: InitOutcome): (r: (CasObjects, bool)) {
    if !o.constBuffer then (c.(constCB := false), false)
    else if !o.debugBuffer then (c.(constCB := true, debugCB := false), false)
    else if c.queries.disjoint then (c.(constCB := true, debugCB := true), true)
    else (c.(constCB := true, debugCB := true, queries := o.queries), true)
  }

  /** The part of `ensureCasObjects` after its early returns: one attempt at
      creating everything. */
  function InitAttempt(c: CasObjects, o: InitOutcome): (r: (CasObjects, bool))
    ensures r.0.initAttempted
    ensures r.1 ==> Ready(r.0) && r.0.constCB && r.0.debugCB
  {
    var primary := PrimaryShader(c.cs, o.primary);
    if !primary.0 then (c.(initAttempted := true, cs := primary.1, initFailed := true), false)
    else WithBuffers(WithShaders(c, o), o)
  }

  /** An attempt succeeds exactly when the CAS shader is accepted and both
      buffers are created. */
  lemma AttemptSucceedsWhenAllIsCreated(c: CasObjects, o: InitOutcome)
    ensures InitAttempt(c, o).1 <==> PrimaryShader(c.cs, o.primary).0 && o.constBuffer && o.debugBuffer
  {
  }

  /** An attempt records a failure exactly when the CAS shader cannot be
      created (or one was recorded before). */
  lemma AttemptRecordsOnlyShaderFailure(c: CasObjects, o: InitOutcome)
    ensures InitAttempt(c, o).0.initFailed <==> c.initFailed || !PrimaryShader(c.cs, o.primary).0
  {
  }

  /** One call of `ensureCasObjects`: the new objects and its answer. */
  function EnsureStep(c: CasObjects, hasDevice: bool, o: InitOutcome): (r: (CasObjects, bool))
    ensures !hasDevice ==> r == (c, false)
    ensures hasDevice && Ready(c) ==> r == (c, true)
    ensures r.1 ==> Ready(r.0)
  {
    if !hasDevice then (c, false)
    else if Ready(c) then (c, true)
    else if c.initAttempted && c.initFailed then (c, false)
    else InitAttempt(c, o)
  }

  /** With a device, an unready session without a recorded failure answers
      true exactly when the CAS shader is accepted and both buffers are
      created. */
  lemma EnsureStepSucceedsWhenAllIsCreated(c: CasObjects, hasDevice: bool, o: InitOutcome)
    requires hasDevice && !Ready(c) && !(c.initAttempted && c.initFailed)
    ensures EnsureStep(c, hasDevice, o).1 <==> PrimaryShader(c.cs, o.primary).0 && o.constBuffer && o.debugBuffer
  {
    assert EnsureStep(c, hasDevice, o) == InitAttempt(c, o);
    AttemptSucceedsWhenAllIsCreated(c, o);
  }

  /** The relation between the flags that every reachable state keeps: a
      recorded failure follows an attempt and leaves the objects unready. */
  predicate Consistent(c: CasObjects) {
    c.initFailed ==> c.initAttempted && !Ready(c)
  }

  lemma EnsureKeepsConsistent(c: CasObjects, hasDevice: bool, o: InitOutcome)
    requires Consistent(c)
    ensures Consistent(EnsureStep(c, hasDevice, o).0)
  {
  }

  /** Once `ensureCasObjects` has answered true it answers true again without
      touching anything, whatever the outside world would answer. */
  lemma SuccessIsFinal(c: CasObjects, o: InitOutcome, o2: InitOutcome)
    requires EnsureStep(c, true, o).1
    ensures var c1 := EnsureStep(c, true, o).0;
      EnsureStep(c1, true, o2) == (c1, true)
  {
  }

  /** A failed CAS shader creation is sticky: every later call answers false
      without trying again. */
  lemma ShaderFailureIsSticky(c: CasObjects, o: InitOutcome, o2: InitOutcome)
    requires Consistent(c)
    requires !EnsureStep(c, true, o).1 && EnsureStep(c, true, o).0.initFailed
    ensures var c1 := EnsureStep(c, true, o).0;
      EnsureStep(c1, true, o2) == (c1, false)
  {
    EnsureKeepsConsistent(c, true, o);
  }

  /** Initialisation is attempted only while the objects are unready and no
      failure is recorded; otherwise nothing changes. */
  lemma AttemptOnlyWhileUnreadyAndUnfailed(c: CasObjects, o: InitOutcome)
    requires Consistent(c)
    ensures var r := EnsureStep(c, true, o);
      r.0 != c ==> !Ready(c) && !c.initFailed && r.0.initAttempted
  {
  }

  /** A Levels or FakeHDR shader that cannot be built disables that effect
      instead of failing the initialisation. */
  lemma MissingEffectShaderDisablesEffect(c: CasObjects, o: InitOutcome)
    requires Consistent(c) && !Ready(c) && !c.initFailed
    requires PrimaryShader(c.cs, o.primary).0 && o.constBuffer && o.debugBuffer
    requires c.levels.enabled && !c.levels.shader && !o.levels.Builds()
    ensures EnsureStep(c, true, o).1
    ensures !EnsureStep(c, true, o).0.levels.enabled
  {
  }

  /** A failed constant- or debug-buffer creation answers false but is not
      recorded: the next call finds the shaders ready and answers true with
      the buffer still missing. */
  lemma BufferFailureIsForgotten(c: CasObjects, o: InitOutcome, o2: InitOutcome)
    requires Consistent(c) && !Ready(c) && !c.initFailed
    requires PrimaryShader(c.cs, o.primary).0 && !o.constBuffer
    ensures var r := EnsureStep(c, true, o);
      && !r.1 && !r.0.constCB
      && EnsureStep(r.0, true, o2) == (r.0, true)
  {
  }

  /** The timestamp queries are created at most once per session. */
  lemma QueriesCreatedOnce(c: CasObjects, hasDevice: bool, o: InitOutcome)
    requires c.queries.disjoint
    ensures EnsureStep(c, hasDevice, o).0.queries == c.queries
  {
  }

  /** `SessionState`: what the layer keeps per session. */
  class SessionState {
    var composition: bool          // a composition framework was obtained
    var device: Option<Handle>     // the application's D3D11 device

    var cs: bool
    var constCB: bool
    var debugCB: bool
    var qDisjoint: bool
    var qBegin: bool
    var qEnd: bool
    var shaderInitAttempted: bool
    var shaderInitFailed: bool

    var sharpness: real
    var timingFrameCounter: nat
    var timingAccumMs: real

    var debugFramesMax: u32
    var debugOverlay: bool

    var levelsEnabled: bool
    var levelsParams: LevelsParams
    var levelsCS: bool
    var levelsCB: bool

    var fakeHdrEnabled: bool
    var fakeHdrParams: FakeHdrParams
    var fakeHdrCS: bool
    var fakeHdrCB: bool

    /** The objects and flags `ensureCasObjects` works on. */
    function Objects(): CasObjects
      reads this
    {
      CasObjects(cs, constCB, debugCB, Queries(qDisjoint, qBegin, qEnd),
                 shaderInitAttempted, shaderInitFailed,
                 Effect(levelsEnabled, levelsCS, levelsCB), Effect(fakeHdrEnabled, fakeHdrCS, fakeHdrCB))
    }

    /** The configured values. */
    function Settings(): EffectConfig
      reads this
    {
      EffectConfig(sharpness, debugOverlay, debugFramesMax, levelsEnabled, levelsParams,
                   fakeHdrEnabled, fakeHdrParams)
    }

    function TimingState(): Timing
      reads this
    {
      Timing(timingFrameCounter, timingAccumMs)
    }

    /** The state invariant: consistent init flags and a timing counter
        below its window. */
    predicate Valid()
      reads this
    {
      Consistent(Objects()) && timingFrameCounter < TIMING_WINDOW
    }

    /** A session as `xrCreateSession` leaves it: the member initialisers,
        then the composition framework, the device found in the binding
        chain and every configured value. */
    constructor Open(compositionAvailable: bool, d: Option<Handle>, cfg: EffectConfig)
      ensures Valid()
      ensures Objects() == CasObjects(false, false, false, Queries(false, false, false), false, false,
                                      Effect(cfg.levelsEnabled, false, false), Effect(cfg.fakeHdrEnabled, false, false))
      ensures composition == compositionAvailable && device == d
      ensures Settings() == cfg
      ensures TimingState() == Timing(0, 0.0)
    {
      composition := compositionAvailable;
      device := d;
      cs, constCB, debugCB := false, false, false;
      qDisjoint, qBegin, qEnd := false, false, false;
      shaderInitAttempted, shaderInitFailed := false, false;
      sharpness := cfg.sharpness;
      timingFrameCounter, timingAccumMs := 0, 0.0;
      debugFramesMax, debugOverlay := cfg.debugFramesMax, cfg.debugOverlay;
      levelsEnabled, levelsParams, levelsCS, levelsCB := cfg.levelsEnabled, cfg.levels, false, false;
      fakeHdrEnabled, fakeHdrParams, fakeHdrCS, fakeHdrCB := cfg.fakeHdrEnabled, cfg.fakeHdr, false, false;
    }

    /** The body of `ensureCasObjects` for a live session: the early
        returns, then one attempt; only the objects and their flags change. */
    method Ensure(o: InitOutcome) returns (ok: bool)
      requires Valid()
      modifies this`cs, this`constCB, this`debugCB, this`qDisjoint, this`qBegin, this`qEnd,
               this`shaderInitAttempted, this`shaderInitFailed,
               this`levelsEnabled, this`levelsCS, this`levelsCB,
               this`fakeHdrEnabled, this`fakeHdrCS, this`fakeHdrCB
      ensures Valid()
      ensures Objects() == EnsureStep(old(Objects()), device.Some?, o).0
      ensures ok == EnsureStep(old(Objects()), device.Some?, o).1
      ensures TimingState() == old(TimingState())
    {
      EnsureKeepsConsistent(Objects(), device.Some?, o);
      if device.None? {
        return false;
      }
      if cs && (!levelsEnabled || levelsCS) && (!fakeHdrEnabled || fakeHdrCS) {
        return true;
      }
      if shaderInitAttempted && shaderInitFailed {
        return false;
      }
      ok := Attempt(o);
    }

    /** One attempt at creating the shaders, buffers and queries. */
    method Attempt(o: InitOutcome) returns (ok: bool)
      modifies this`cs, this`constCB, this`debugCB, this`qDisjoint, this`qBegin, this`qEnd,
               this`shaderInitAttempted, this`shaderInitFailed,
               this`levelsEnabled, this`levelsCS, this`levelsCB,
               this`fakeHdrEnabled, this`fakeHdrCS, this`fakeHdrCB
      ensures (Objects(), ok) == InitAttempt(old(Objects()), o)
    {
      ghost var c := Objects();
      shaderInitAttempted := true;
      var shaderCreated := CreateCasShader(o.primary);
      ghost var primary := PrimaryShader(c.cs, o.primary);
      assert (shaderCreated, cs) == primary;
      if !shaderCreated {
        shaderInitFailed := true;
        ghost var failed := c.(initAttempted := true, cs := primary.1, initFailed := true);
        assert InitAttempt(c, o) == (failed, false);
        assert Objects() == failed;
        return false;
      }
      assert Objects() == c.(initAttempted := true, cs := true);
      CreateEffectShaders(o);
      assert InitAttempt(c, o) == WithBuffers(Objects(), o);
      ok := CreateBuffers(o);
    }

    /** The Levels and FakeHDR blocks of `ensureCasObjects`. */
    method CreateEffectShaders(o: InitOutcome)
      modifies this`levelsEnabled, this`levelsCS, this`levelsCB,
               this`fakeHdrEnabled, this`fakeHdrCS, this`fakeHdrCB
      ensures Objects() == old(Objects()).(levels := EffectShader(old(Objects()).levels, o.levels),
                                           fakeHdr := EffectShader(old(Objects()).fakeHdr, o.fakeHdr))
    {
      ghost var c := Objects();
      CreateLevelsShader(o.levels);
      assert Objects() == c.(levels := EffectShader(c.levels, o.levels));
      CreateFakeHdrShader(o.fakeHdr);
    }

    /** The buffer and query block of `ensureCasObjects`. */
    method CreateBuffers(o: InitOutcome) returns (ok: bool)
      modifies this`constCB, this`debugCB, this`qDisjoint, this`qBegin, this`qEnd
      ensures (Objects(), ok) == WithBuffers(old(Objects()), o)
    {
      constCB := o.constBuffer;
      if !o.constBuffer {
        return false;
      }
      debugCB := o.debugBuffer;
      if !o.debugBuffer {
        return false;
      }
      if !qDisjoint {
        qDisjoint, qBegin, qEnd := o.queries.disjoint, o.queries.begin, o.queries.end;
      }
      return true;
    }

    /** The CAS shader block of `ensureCasObjects`: the precompiled shader,
        then the compiler as a fallback. */
    method CreateCasShader(p: PrimaryOutcome) returns (created: bool)
      modifies this`cs
      ensures (created, cs) == PrimaryShader(old(cs), p)
    {
      created := false;
      if p.csoExists && p.csoReadable {
        cs := p.csoAccepted;
        created := p.csoAccepted;
      }
      if !created && p.compilerLoaded && p.entryPointFound && p.compiled {
        cs := p.compiledAccepted;
        created := p.compiledAccepted;
      }
    }

    /** The Levels block of `ensureCasObjects`. */
    method CreateLevelsShader(o: EffectOutcome)
      modifies this`levelsEnabled, this`levelsCS, this`levelsCB
      ensures Effect(levelsEnabled, levelsCS, levelsCB) == EffectShader(old(Effect(levelsEnabled, levelsCS, levelsCB)), o)
    {
      if levelsEnabled && !levelsCS {
        if o.compilerLoaded && o.entryPointFound && o.compiled {
          levelsCS := o.accepted;
        }
        if !levelsCS {
          levelsEnabled := false;
        } else {
          levelsCB := o.bufferCreated;
        }
      }
    }

    /** The FakeHDR block of `ensureCasObjects`. */
    method CreateFakeHdrShader(o: EffectOutcome)
      modifies this`fakeHdrEnabled, this`fakeHdrCS, this`fakeHdrCB
      ensures Effect(fakeHdrEnabled, fakeHdrCS, fakeHdrCB) == EffectShader(old(Effect(fakeHdrEnabled, fakeHdrCS, fakeHdrCB)), o)
    {
      if fakeHdrEnabled && !fakeHdrCS {
        if o.compilerLoaded && o.entryPointFound && o.compiled {
          fakeHdrCS := o.accepted;
        }
        if !fakeHdrCS {
          fakeHdrEnabled := false;
        } else {
          fakeHdrCB := o.bufferCreated;
        }
      }
    }

    /** One successful GPU timestamp readback of `ms` milliseconds. */
    method RecordGpuTime(ms: real) returns (report: Option<real>)
      requires Valid()
      modifies this`timingFrameCounter, this`timingAccumMs
      ensures Valid()
      ensures (TimingState(), report) == TimingStep(old(TimingState()), ms)
    {
      timingAccumMs := timingAccumMs + ms;
      timingFrameCounter := timingFrameCounter + 1;
      report := None;
      if timingFrameCounter >= TIMING_WINDOW {
        report := Some(timingAccumMs / timingFrameCounter as real);
        timingAccumMs, timingFrameCounter := 0.0, 0;
      }
    }
  }

  /** `ensureCasObjects`: a session pointer that is null answers false. */
  method EnsureCasObjects(s: SessionState?, o: InitOutcome) returns (ok: bool)
    requires s != null ==> s.Valid()
    modifies s
    ensures s == null ==> !ok
    ensures s != null ==> s.Valid()
    ensures s != null ==> (s.Objects(), ok) == EnsureStep(old(s.Objects()), s.device.Some?, o)
    ensures s != null ==> unchanged(s`composition, s`device, s`sharpness, s`timingFrameCounter, s`timingAccumMs,
                                    s`debugFramesMax, s`debugOverlay, s`levelsParams, s`fakeHdrParams)
  {
    if s == null {
      return false;
    }
    ok := s.Ensure(o);
  }

  /** A record of the `next` chain of `XrSessionCreateInfo`. */
  datatype ChainRecord = GraphicsBindingD3D11(device: Option<Handle>) | OtherRecord(structureType: int)

  /** The position of the first D3D11 graphics binding in the chain. */
  function FirstBinding(chain: seq<ChainRecord>): (r: Option<nat>)
    ensures r.Some? ==> r.value < |chain| && chain[r.value].GraphicsBindingD3D11?
    ensures r.Some? ==> forall j :: 0 <= j < r.value ==> !chain[j].GraphicsBindingD3D11?
    ensures r.None? ==> forall j :: 0 <= j < |chain| ==> !chain[j].GraphicsBindingD3D11?
  {
    if |chain| == 0 then None
    else if chain[0].GraphicsBindingD3D11? then Some(0)
    else match FirstBinding(chain[1..])
      case Some(i) => Some(i + 1)
      case None => None
  }

  /** The device a session gets: that of the first D3D11 binding, even when
      it is null; none when the chain has no D3D11 binding. */
  function DeviceFromChain(chain: seq<ChainRecord>): (r: Option<Handle>)
    ensures (forall j :: 0 <= j < |chain| ==> !chain[j].GraphicsBindingD3D11?) ==> r.None?
    ensures r.Some? ==> GraphicsBindingD3D11(r) in chain
  {
    match FirstBinding(chain)
    case Some(i) => chain[i].device
    case None => None
  }

  /** The walk of `xrCreateSession` along the chain. */
  method FindD3D11Device(chain: seq<ChainRecord>) returns (device: Option<Handle>)
    ensures device == DeviceFromChain(chain)
  {
    var i := 0;
    while i < |chain|
      invariant 0 <= i <= |chain|
      invariant forall j :: 0 <= j < i ==> !chain[j].GraphicsBindingD3D11?
    {
      if chain[i].GraphicsBindingD3D11? {
        return chain[i].device;
      }
      i := i + 1;
    }
    return None;
  }

  /** Records that are not D3D11 bindings do not matter, and a binding
      further down the chain never overrides the first one. */
  lemma {:induction false} FirstBindingWins(before: seq<ChainRecord>, binding: Option<Handle>, after: seq<ChainRecord>)
    requires forall j :: 0 <= j < |before| ==> !before[j].GraphicsBindingD3D11?
    ensures DeviceFromChain(before + [GraphicsBindingD3D11(binding)] + after) == binding
  {
    var chain := before + [GraphicsBindingD3D11(binding)] + after;
    assert chain[|before|] == GraphicsBindingD3D11(binding);
    forall j | 0 <= j < |before|
      ensures !chain[j].GraphicsBindingD3D11?
    {
      assert chain[j] == before[j];
    }
  }
}
