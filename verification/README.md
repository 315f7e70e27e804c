# OpenXR CAS API layer — a Dafny model

This project models the decision logic of an OpenXR 1.0 API layer that
sharpens the views of a D3D11 application. It uses AMD FidelityFX CAS, with
optional FakeHDR and Levels passes. The GPU, the OpenXR runtime and the
file system are not modelled. Their answers become parameters: success
flags, opaque handles, and function parameters for `std::stof`/`std::stoi`
and for the image enumeration. The environment is a record of the
variables' values, read through a model of `GetEnvironmentVariableA`'s
answer for a given buffer size; what a too-small buffer is left holding is
a parameter. The D3D11 commands
the layer records are kept as a log of `Event`s (copy-in, timestamp
begin/end, dispatch with its read and write slots, copy-back) together
with the composition framework's serialization calls and the forwarding
of `xrEndFrame`.

Modules, one per component of `openxr-api-layer/layer.cpp`:

- `XrTypes`: `Option`, 32-bit unsigned/signed ranges, the unsigned
  reinterpretation of a signed extent, and 64-bit handles.
- `ConfigResolver`: the `key=value` line parser, the per-user /
  per-install file precedence, sharpness resolution from
  `XR_CAS_SHARPNESS`, and the per-session effect settings read by
  `xrCreateSession`. It also holds the FakeHDR backfill decision.
- `Formats`: the ten-format whitelist, `chooseTypeless`,
  `mapSrvFormat` and `mapUavFormat`.
- `TempPool`: `makeTempKey` and the recreation of a scratch slot
  (`TempTextures`).
- `PassPlan`: the copy rectangle, the group counts, the pass count, the
  CAS strength, the two-slot ping-pong plan, and the 120-frame GPU-time
  averaging counter.
- `Session`: `SessionState` as a class with the fields
  `ensureCasObjects` updates, the readiness state machine as a pure
  step function, and the walk of the session-create chain for the D3D11
  binding.
- `Dispatch`: what one `dispatchCas` records and how it changes the pool,
  as pure functions, with the properties of the trace.
- `Tracker`: the acquire/release/destroy bookkeeping and the per-view
  image selection of `xrEndFrame`.
- `ApiLayer`: the `OpenXrLayer` class. Its fields are the sessions, the
  bookkeeping maps, the scratch pool and the command log. Its methods are
  the overridden entry points and `dispatchCas`, each proved against the
  pure functions above.

Where the code and its own comments or documentation disagree, the model
follows the code:

- The pass count is `1 + clamp(floor(s - 1), 0, 3)` for `s > 1`, so
  sharpness 1.5 and 1.9 give one pass, not two (`PassPlan.PassCountExamples`).
- After an odd number of CAS passes the result is in the `output`
  texture, and after an even number it is in `input`
  (`PassPlan.ResultOfCasAlone`).
- The GPU timestamps bracket the CAS passes only. The FakeHDR and Levels
  passes come after the end stamp (`Dispatch.CompleteRunFollowsPlan`).
- For `debug_frames` and `debug_overlay`, the environment variable is read
  first and a config value then overwrites it. So the config wins, even
  though a comment says the environment takes precedence
  (`ConfigResolver.ConfigOverridesEnvForDebugFrames`).
- A failed output-texture creation leaves the slot with its new input
  texture and its old size and format. A later image of the old size
  reuses the slot and stops at the first pass
  (`TempPool.FailedOutputLeavesReusableSlotWithoutOutput`).
- `makeTempKey` XORs the slice into the high half of the swapchain
  handle, so two swapchains can share a pool key
  (`TempPool.KeysCollideAcrossSwapchains`).
- A failed constant-buffer or debug-buffer creation makes
  `ensureCasObjects` answer false but is not remembered. The next call
  answers true with the buffer missing (`Session.BufferFailureIsForgotten`).

## Model

| member | source | states |
|---|---|---|
| XrTypes.AsUint | openxr-api-layer/layer.cpp:436-437 | a signed extent read as UINT is itself when non-negative and wraps by 2^32 when negative |
| XrTypes.AddU32 | openxr-api-layer/layer.cpp:439-440 | UINT addition of box bounds: exact below 2^32, reduced by 2^32 above |
| Formats.ChooseTypeless | openxr-api-layer/layer.cpp:400-413 | a whitelisted format stays whitelisted and, except the float format, becomes typeless |
| Formats.MapSrvFormat | openxr-api-layer/layer.cpp:445-455 | a whitelisted format maps to a linear (neither sRGB nor typeless) view format; other formats pass unchanged |
| Formats.MapUavFormat | openxr-api-layer/layer.cpp:456-467 | same guarantee for the UAV format |
| Formats.ViewFormatsAgree | openxr-api-layer/layer.cpp:445-468 | for every whitelisted format the SRV and UAV formats agree, equal the view format of its typeless resource, and are neither sRGB nor typeless |
| Formats.SupportedIsThreeFamiliesAndFloat | openxr-api-layer/layer.cpp:372-381 | a format is whitelisted iff its typeless family is RGBA8, BGRA8 or BGRX8, or it is the 16-bit float format |
| Formats.ChooseTypelessIsIdempotent | openxr-api-layer/layer.cpp:400-413 | choosing the typeless format twice changes nothing |
| Formats.ViewFormatMatchesResource | openxr-api-layer/layer.cpp:400-468 | the view format belongs to the same typeless family as the resource |
| TempPool.MakeTempKey | openxr-api-layer/layer.cpp:356-358 | the array slice is recoverable from the key and the swapchain |
| TempPool.SlicesOfOneSwapchainGetDistinctKeys | openxr-api-layer/layer.cpp:356-358 | distinct slices of one swapchain get distinct pool keys |
| TempPool.KeyKeepsLowHalf | openxr-api-layer/layer.cpp:356-358 | the key keeps the low 32 bits of the swapchain handle |
| TempPool.KeysCollideAcrossSwapchains | openxr-api-layer/layer.cpp:356-358 | handles 2^32 and 0 with slices 0 and 1 share one key |
| TempPool.PrepareSlot | openxr-api-layer/layer.cpp:390-429 | a slot is recreated exactly when it lacks an input or its size/format differ; otherwise it is reused unchanged; the size/format are written only after both creations succeed; the call proceeds iff the slot is then usable |
| TempPool.FailedCreationLeavesSlot | openxr-api-layer/layer.cpp:418-428 | an input failure clears the input; an output failure keeps the new input and clears the output; size and format stay old |
| TempPool.ScratchFormat | openxr-api-layer/layer.cpp:414-415 | the scratch format of a whitelisted image is whitelisted and has the image's view format |
| TempPool.PrepareKeepsSlotWellFormed | openxr-api-layer/layer.cpp:390-429 | preparing keeps the slot well formed: its textures are distinct and older than the next texture handle |
| TempPool.PreparedSlotIsReused | openxr-api-layer/layer.cpp:392 | a slot that was prepared successfully is reused as is by the next image of the same size and format |
| TempPool.RecreationIssuesFreshTextures | openxr-api-layer/layer.cpp:418-428 | a successful recreation stores the next two texture handles, both fresh |
| TempPool.FailedOutputLeavesReusableSlotWithoutOutput | openxr-api-layer/layer.cpp:418-428 | after an output-creation failure the slot keeps its old size, and an image of that size reuses it without an output |
| PassPlan.CopyWidth | openxr-api-layer/layer.cpp:437 | the copy width is the sub-image extent, or the texture width when the extent is 0 |
| PassPlan.CopyHeight | openxr-api-layer/layer.cpp:438 | the same for the height |
| PassPlan.CopyBox | openxr-api-layer/layer.cpp:433-441 | when offset plus extent fits in 32 bits, the box runs from the offset over the copy width and height |
| PassPlan.CopyBoxCoversRectangle | openxr-api-layer/layer.cpp:433-441 | for a non-negative rectangle that fits in 32 bits, the box starts at the offset and spans the extent, or the whole texture for a zero extent |
| PassPlan.GroupCount | openxr-api-layer/layer.cpp:527-528 | (w+15)/16 is the smallest g with 16·g ≥ w (0 when w+15 wraps) |
| PassPlan.PassCount | openxr-api-layer/layer.cpp:530-535 | the pass count is in [1,4]: 1 below sharpness 2, floor(s) between 1 and 4, and 4 from 4 on (the source agrees below 2^31 + 1) |
| PassPlan.PassCountIsMonotonic | openxr-api-layer/layer.cpp:530-535 | more sharpness never gives fewer passes |
| PassPlan.PassCountExamples | openxr-api-layer/layer.cpp:530-535 | 0.6, 1.0, 1.5 and 1.9 give one pass; 2.0, 3.4, 4.0 and 10.0 give 2, 3, 4 and 4 |
| PassPlan.CasStrength | openxr-api-layer/layer.cpp:484-490 | the CAS strength is min(s, 1) |
| PassPlan.CasSteps | openxr-api-layer/layer.cpp:536-566 | the i-th CAS pass of n is the i-th ping-pong step |
| PassPlan.PostSteps | openxr-api-layer/layer.cpp:594-673 | one pass per enabled effect, FakeHDR first and Levels last; the first reads the latest slot, each writes the other slot and the next reads it |
| PassPlan.Plan | openxr-api-layer/layer.cpp:536-673 | the plan is the n CAS steps followed only by effect passes, one per enabled effect |
| PassPlan.ResultSlot | openxr-api-layer/layer.cpp:565-673 | the result is where the CAS passes left it when zero or two effects run, and in the other slot when one runs |
| PassPlan.PlanIsPingPong | openxr-api-layer/layer.cpp:536-673 | every pass reads one slot and writes the other; each pass reads what the previous one wrote; the final result is the last written slot |
| PassPlan.PlanCountsCasPasses | openxr-api-layer/layer.cpp:530-673 | the plan holds PassCount(s) CAS passes, then one pass per enabled FakeHDR/Levels effect |
| PassPlan.ResultOfCasAlone | openxr-api-layer/layer.cpp:565-595 | after n CAS passes alone the result is in output for odd n and in input for even n |
| PassPlan.TimingStep | openxr-api-layer/layer.cpp:577-581 | one sample advances the counter; the 120th sample yields the average and resets the counter and sum |
| PassPlan.TimingRunCounts | openxr-api-layer/layer.cpp:577-581 | after k samples the counter is (c+k) mod 120 and (c+k) div 120 averages were reported |
| ConfigResolver.LowerChar | openxr-api-layer/layer.cpp:170 | only ASCII capitals change, each to its lowercase letter |
| ConfigResolver.ToLower | openxr-api-layer/layer.cpp:170 | lowercasing keeps the length and maps each character |
| ConfigResolver.TrimLeft | openxr-api-layer/layer.cpp:157-160 | the result is the suffix left after removing leading whitespace |
| ConfigResolver.TrimRight | openxr-api-layer/layer.cpp:157-160 | the result is the prefix left after removing trailing whitespace |
| ConfigResolver.Trim | openxr-api-layer/layer.cpp:157-160 | the trimmed text starts and ends with a non-space |
| ConfigResolver.TrimDropsOnlyOuterSpace | openxr-api-layer/layer.cpp:157-160 | the trimmed text is one slice of the input with only white space before and after it |
| ConfigResolver.TrimIsIdempotent | openxr-api-layer/layer.cpp:157-160 | trimming twice is trimming once |
| ConfigResolver.FindFirst | openxr-api-layer/layer.cpp:164-165 | the position found holds the first occurrence; none means no occurrence |
| ConfigResolver.ParseLine | openxr-api-layer/layer.cpp:161-170 | a line yields nothing iff its trimmed text is empty, starts with # or ;, or has no = |
| ConfigResolver.ParsedLineSplitsAtFirstEquals | openxr-api-layer/layer.cpp:161-170 | a parsed line splits at the first = of its trimmed text: the key is the trimmed, lowercased text before it and the value the trimmed text after it |
| ConfigResolver.ParsedEntryIsCanonical | openxr-api-layer/layer.cpp:164-170 | a parsed key is lowercase, trimmed and has no =; a parsed value is trimmed |
| ConfigResolver.LowerKeepsTrimmed | openxr-api-layer/layer.cpp:169-170 | lowercasing a trimmed key leaves it trimmed |
| ConfigResolver.LowerIsIdempotent | openxr-api-layer/layer.cpp:170 | lowercasing twice is lowercasing once and adds no = |
| ConfigResolver.TrimKeepsOnlyCharactersOf | openxr-api-layer/layer.cpp:157-160 | trimming introduces no character |
| ConfigResolver.ParseFormattedLine | openxr-api-layer/layer.cpp:161-170 | a canonical key and trimmed value written as key=value parse back to themselves, even when the value contains = |
| ConfigResolver.LookupLines | openxr-api-layer/layer.cpp:161-175 | a value found is trimmed |
| ConfigResolver.LookupFindsFirstMatch | openxr-api-layer/layer.cpp:161-175 | the lookup answers the value of the first line whose key matches, and nothing iff no line matches |
| ConfigResolver.TryReadConfigValueFromFile | openxr-api-layer/layer.cpp:151-178 | the loop answers the first match of a readable file, nothing for a missing one |
| ConfigResolver.ConfigValue | openxr-api-layer/layer.cpp:180-184 | the per-install file is consulted only when the per-user file yields nothing |
| ConfigResolver.TryReadConfigValue | openxr-api-layer/layer.cpp:180-184 | the method answers as ConfigValue |
| ConfigResolver.ClampNonNegative | openxr-api-layer/layer.cpp:101-149 | a non-negative input is kept and a negative one becomes 0 |
| ConfigResolver.ParseSharpness | openxr-api-layer/layer.cpp:136-143 | a value parses iff stof accepts it, and the result is the stof value clamped at 0 |
| ConfigResolver.TryReadSharpnessFromConfigFile | openxr-api-layer/layer.cpp:115-149 | the loop answers the first sharpness line's clamped value; a malformed first sharpness line ends the search with nothing |
| ConfigResolver.GetEnvironmentVariable | openxr-api-layer/layer.cpp:101-104 | 0 for an unset or empty variable; the length and the filled buffer when it fits; the required size and whatever the buffer was left holding otherwise |
| ConfigResolver.SharpnessFromEnv | openxr-api-layer/layer.cpp:101-113 | an unset variable, one of 64+ characters, or one stof rejects gives 0.6; a value that fits and parses is clamped at 0; any result is non-negative |
| ConfigResolver.ResolvedSharpness | openxr-api-layer/layer.cpp:186-216 | the resolved sharpness is never negative |
| ConfigResolver.ResolveSharpnessFromConfigOrEnv | openxr-api-layer/layer.cpp:186-216 | the method answers as ResolvedSharpness |
| ConfigResolver.EnvironmentDecidesSharpness | openxr-api-layer/layer.cpp:186-196 | a set XR_CAS_SHARPNESS alone decides the result: files are ignored, 64+ characters or a value stof rejects give 0.6, a parsable value is clamped |
| ConfigResolver.SharpnessPrecedence | openxr-api-layer/layer.cpp:197-215 | without the variable: per-user file, then per-install file, then 0.6 |
| ConfigResolver.NonNegativeOr | openxr-api-layer/layer.cpp:896-900 | a parsed non-negative integer replaces the prior value; anything else keeps it |
| ConfigResolver.EffectConfigOf | openxr-api-layer/layer.cpp:889-935 | the session's sharpness is non-negative |
| ConfigResolver.ReadRealSetting | openxr-api-layer/layer.cpp:915-935 | a real setting is the parsed config value or its default |
| ConfigResolver.ReadBoolSetting | openxr-api-layer/layer.cpp:915-930 | an enable flag is set by a truthy config value |
| ConfigResolver.DebugFramesMax | openxr-api-layer/layer.cpp:892-901 | the limit is 60, a value parsed from the config, or one parsed from what the environment read left in the buffer |
| ConfigResolver.DebugOverlay | openxr-api-layer/layer.cpp:903-913 | the overlay is on only for a truthy config value or, without a config value, a set non-empty variable |
| ConfigResolver.ReadDebugFramesMax | openxr-api-layer/layer.cpp:892-901 | the debug-frame limit is read from the environment, then overwritten by the config |
| ConfigResolver.ReadDebugOverlay | openxr-api-layer/layer.cpp:903-913 | the overlay flag is read from the environment, then overwritten by the config |
| ConfigResolver.ReadLevelsParams | openxr-api-layer/layer.cpp:915-925 | each Levels parameter is its config value or its default |
| ConfigResolver.ReadEffectConfig | openxr-api-layer/layer.cpp:889-935 | the session configuration is the one EffectConfigOf describes |
| ConfigResolver.ConfigOverridesEnvForDebugFrames | openxr-api-layer/layer.cpp:892-901 | a valid config value beats the environment; without one, or with one that stoi rejects or that is negative, the environment's value stands; a value of 32+ characters is parsed from whatever the buffer was left holding; neither gives 60 |
| ConfigResolver.ConfigOverridesEnvForDebugOverlay | openxr-api-layer/layer.cpp:903-913 | a config value decides the overlay; otherwise a short value turns it on unless it starts with 0, and for a value of 8+ characters the first character the buffer was left holding decides |
| ConfigResolver.BackfillFakeHdr | openxr-api-layer/layer.cpp:791-808 | the text is left unchanged iff it already contains `fakehdr_enable`; otherwise exactly the FakeHDR block is appended |
| ConfigResolver.BackfillIsAdditiveAndIdempotent | openxr-api-layer/layer.cpp:791-808 | the backfill only appends, adds the block at most once, and leaves the key present |
| Session.PrimaryShader | openxr-api-layer/layer.cpp:226-278 | the CAS shader exists after the step iff a precompiled or compiled shader is accepted; failure never creates one |
| Session.EffectShader | openxr-api-layer/layer.cpp:281-322 | a missing Levels/FakeHDR shader is built when enabled; the effect stays enabled iff it builds; a failed build only clears the enable flag; a built or disabled effect is untouched |
| Session.InitAttempt | openxr-api-layer/layer.cpp:222-352 | an attempt is recorded, and success means every object the session needs exists |
| Session.AttemptSucceedsWhenAllIsCreated | openxr-api-layer/layer.cpp:222-352 | an attempt answers true iff the CAS shader is accepted and both buffers are created |
| Session.AttemptRecordsOnlyShaderFailure | openxr-api-layer/layer.cpp:278 | only a failed CAS shader sets the sticky failure flag |
| Session.EnsureStep | openxr-api-layer/layer.cpp:218-354 | no device answers false with no change; a ready session answers true with no change; true always means ready |
| Session.EnsureStepSucceedsWhenAllIsCreated | openxr-api-layer/layer.cpp:218-354 | with a device, an unready session without a recorded failure answers true iff the CAS shader is accepted and both buffers are created |
| Session.EnsureKeepsConsistent | openxr-api-layer/layer.cpp:218-354 | a recorded failure always comes with a missing shader |
| Session.SuccessIsFinal | openxr-api-layer/layer.cpp:220 | once true, later calls answer true without any creation |
| Session.ShaderFailureIsSticky | openxr-api-layer/layer.cpp:221-278 | after a primary-shader failure every later call answers false without retrying |
| Session.AttemptOnlyWhileUnreadyAndUnfailed | openxr-api-layer/layer.cpp:219-222 | objects change only when the session was unready and had no failure |
| Session.MissingEffectShaderDisablesEffect | openxr-api-layer/layer.cpp:281-300 | a Levels shader that cannot be built disables Levels and the call still succeeds |
| Session.BufferFailureIsForgotten | openxr-api-layer/layer.cpp:325-343 | a constant-buffer failure answers false once, then true with the buffer missing |
| Session.QueriesCreatedOnce | openxr-api-layer/layer.cpp:346-352 | timestamp queries are created at most once per session |
| Session.SessionState.Open | openxr-api-layer/layer.cpp:50-99 | a new session has no objects, its configuration, its device, and a zero timing counter |
| Session.SessionState.Ensure | openxr-api-layer/layer.cpp:218-354 | the fields change and the answer is given as EnsureStep says; timing is untouched |
| Session.SessionState.Attempt | openxr-api-layer/layer.cpp:222-352 | one initialisation attempt, as InitAttempt |
| Session.SessionState.CreateCasShader | openxr-api-layer/layer.cpp:226-278 | the CAS shader creation, as PrimaryShader |
| Session.SessionState.CreateLevelsShader | openxr-api-layer/layer.cpp:281-300 | the Levels shader creation, as EffectShader |
| Session.SessionState.CreateFakeHdrShader | openxr-api-layer/layer.cpp:303-322 | the FakeHDR shader creation, as EffectShader |
| Session.SessionState.CreateEffectShaders | openxr-api-layer/layer.cpp:281-322 | both optional shaders, each as EffectShader |
| Session.SessionState.CreateBuffers | openxr-api-layer/layer.cpp:325-352 | the buffers and queries, as WithBuffers |
| Session.SessionState.RecordGpuTime | openxr-api-layer/layer.cpp:576-581 | the counter and sum change as TimingStep says and stay below 120 |
| Session.EnsureCasObjects | openxr-api-layer/layer.cpp:218-354 | a null session answers false; otherwise as EnsureStep, touching nothing but the objects |
| Session.FirstBinding | openxr-api-layer/layer.cpp:870-884 | the index found is the first D3D11 binding record; none means the chain has none |
| Session.DeviceFromChain | openxr-api-layer/layer.cpp:870-884 | a chain without a D3D11 binding gives no device; a device found comes from a D3D11 binding of the chain |
| Session.FindD3D11Device | openxr-api-layer/layer.cpp:870-884 | the loop answers the device of the first D3D11 binding |
| Session.FirstBindingWins | openxr-api-layer/layer.cpp:870-884 | later bindings never override the first |
| Dispatch.Admits | openxr-api-layer/layer.cpp:372-387 | an admitted texture is single-sampled and both its view formats are linear |
| Dispatch.FirstFailure | openxr-api-layer/layer.cpp:541-566 | no pass fails iff the slot has an output and every view is created; a missing output fails the first pass |
| Dispatch.PassesRun | openxr-api-layer/layer.cpp:541-566 | passes run up to the first refused view; all run iff none is refused |
| Dispatch.DispatchTrace | openxr-api-layer/layer.cpp:430-687 | the trace length: the copy-in, the begin stamp, the passes run and, after a complete run, the end stamp, the effect passes and the copy-back |
| Dispatch.CopyBackOnlyWhenComplete | openxr-api-layer/layer.cpp:430-687 | the trace starts with the copy-in; an early return issues no copy-back; a complete run ends with exactly one copy-back from the result slot with the copy-in box and slice |
| Dispatch.CompleteRunFollowsPlan | openxr-api-layer/layer.cpp:499-673 | a complete run, with or without timestamp queries, dispatches exactly the ping-pong plan; when timed, the stamps bracket the CAS passes only |
| Dispatch.ShortRunStopsAtFailure | openxr-api-layer/layer.cpp:541-566 | a run stopped at pass k dispatches k passes, with no end stamp and no copy-back |
| Dispatch.MissingOutputStopsFirstPass | openxr-api-layer/layer.cpp:551-555 | a slot without an output texture never completes a pass |
| Dispatch.DispatchWith | openxr-api-layer/layer.cpp:364-387 | an unready session or a rejected format or sample count leaves the pool and log untouched |
| Dispatch.DispatchRun | openxr-api-layer/layer.cpp:362-387 | a session without a device or a rejected texture records no event and gives no timing sample |
| Dispatch.StoreKeepsPoolWellFormed | openxr-api-layer/layer.cpp:391-429 | storing a well-formed slot keeps the pool well formed |
| Dispatch.DispatchKeepsPool | openxr-api-layer/layer.cpp:362-429 | dispatchCas keeps the pool well formed, never reuses texture handles, changes only its own key's slot, and changes nothing when it returns early |
| Dispatch.UnreadySessionRecordsNothing | openxr-api-layer/layer.cpp:219-364 | a session without a device or with a failed shader records nothing |
| Dispatch.SampleOnlyAfterCompleteTimedRun | openxr-api-layer/layer.cpp:568-583 | a GPU-time sample arrives only after a complete run with queries, which ended the timing and copied back |
| Tracker.Acquire | openxr-api-layer/layer.cpp:992-1001 | a successful acquire appends the index to that swapchain's queue only |
| Tracker.Release | openxr-api-layer/layer.cpp:1003-1015 | a release pops the queue front into the last released index, or keeps it when the queue is empty; other swapchains are untouched |
| Tracker.Destroy | openxr-api-layer/layer.cpp:983-989 | destroy erases exactly that swapchain's queue, last released index and image list |
| Tracker.ReleasesFollowAcquireOrder | openxr-api-layer/layer.cpp:992-1015 | after acquiring a sequence and releasing k times, the last released index is the k-th acquired one and the rest wait in order |
| Tracker.AcquireThreeReleaseTwo | openxr-api-layer/layer.cpp:992-1015 | acquiring 0, 1, 2 and releasing twice leaves 1 released and [2] queued |
| Tracker.ReleaseWithoutAcquireRecordsNothing | openxr-api-layer/layer.cpp:1007-1012 | a release on an unknown swapchain inserts an empty queue and no released index |
| Tracker.CacheImages | openxr-api-layer/layer.cpp:955-973 | a successful non-empty enumeration is cached for that swapchain only |
| Tracker.FirstProjection | openxr-api-layer/layer.cpp:1031-1039 | the index found is the first projection layer; none means no projection layer |
| Tracker.FindFirstProjection | openxr-api-layer/layer.cpp:1031-1039 | the loop answers the first projection layer |
| Tracker.LaterProjectionsIgnored | openxr-api-layer/layer.cpp:1031-1041 | only the views of the first projection layer are processed |
| Tracker.SelectImage | openxr-api-layer/layer.cpp:1042-1079 | a view gets an image iff its swapchain has a released index inside its (cached or enumerated) list and the texture is not null; a cached list is kept |
| Tracker.SelectAll | openxr-api-layer/layer.cpp:1040-1079 | every view gets one answer, in order |
| Tracker.SelectAllKeepsCachedLists | openxr-api-layer/layer.cpp:1040-1079 | no list cached before the frame is replaced during it |
| ApiLayer.ViewStep | openxr-api-layer/layer.cpp:1042-1079 | one view keeps the GPU-time counter below 120 |
| ApiLayer.FrameRun | openxr-api-layer/layer.cpp:1040-1080 | the views of a frame keep the GPU-time counter below 120 |
| ApiLayer.FrameSelectsLikeSelectAll | openxr-api-layer/layer.cpp:1040-1079 | processing views never changes which image a later view gets |
| ApiLayer.FrameKeepsPool | openxr-api-layer/layer.cpp:1040-1079 | over a frame the pool stays well formed, handles are never reused, and events are only appended |
| ApiLayer.FrameWithoutDeviceRecordsNothing | openxr-api-layer/layer.cpp:1042-1079 | a session without a D3D11 device records no command and keeps pool, objects and timing |
| ApiLayer.TraceTouchesOnlySource | openxr-api-layer/layer.cpp:430-687 | dispatchCas copies only from and into its given image |
| ApiLayer.FrameTouchesOnlySelectedImages | openxr-api-layer/layer.cpp:1042-1079 | a frame copies only from and into the images selected for its views |
| ApiLayer.NewSession | openxr-api-layer/layer.cpp:856-936 | a new session carries its composition flag, the chain's first D3D11 device and the resolved configuration |
| ApiLayer.OpenXrLayer.constructor | openxr-api-layer/layer.cpp:1113-1117 | the layer starts with no sessions, no bookkeeping, an empty pool and an empty log |
| ApiLayer.OpenXrLayer.CreateSession | openxr-api-layer/layer.cpp:856-938 | only a successful create stores a new session under its handle, leaving the others |
| ApiLayer.OpenXrLayer.CreateSwapchain | openxr-api-layer/layer.cpp:947-981 | the images are cached only for a created swapchain of a session with a device |
| ApiLayer.OpenXrLayer.DestroySwapchain | openxr-api-layer/layer.cpp:983-989 | the bookkeeping changes as Destroy says; the pool is not in its frame |
| ApiLayer.OpenXrLayer.AcquireSwapchainImage | openxr-api-layer/layer.cpp:992-1001 | the bookkeeping changes as Acquire says, and only on success |
| ApiLayer.OpenXrLayer.ReleaseSwapchainImage | openxr-api-layer/layer.cpp:1003-1015 | the bookkeeping changes as Release says, and only on success |
| ApiLayer.OpenXrLayer.PrepareScratch | openxr-api-layer/layer.cpp:390-429 | the pool slot and the next handle change as PrepareSlot says |
| ApiLayer.OpenXrLayer.RunCasPasses | openxr-api-layer/layer.cpp:536-566 | the loop records the planned CAS dispatches up to the first refusal and, when complete, ends with the result in CasRead(n) |
| ApiLayer.OpenXrLayer.RunPostPasses | openxr-api-layer/layer.cpp:594-673 | each enabled effect writes the slot not holding the result; the final slot is ResultSlot |
| ApiLayer.OpenXrLayer.RecordCasPhase | openxr-api-layer/layer.cpp:430-566 | records the copy-in, the begin stamp and the CAS passes, as CasPhase |
| ApiLayer.OpenXrLayer.EndTiming | openxr-api-layer/layer.cpp:568-583 | records the end stamp and feeds the readback to the counter when timed |
| ApiLayer.OpenXrLayer.RecordPostPasses | openxr-api-layer/layer.cpp:594-687 | records the effect passes and the copy-back from the result slot |
| ApiLayer.OpenXrLayer.FinishRun | openxr-api-layer/layer.cpp:568-687 | records what follows a complete CAS loop, as PostPhase |
| ApiLayer.OpenXrLayer.RecordPasses | openxr-api-layer/layer.cpp:430-687 | records exactly DispatchTrace and updates the timing counter |
| ApiLayer.OpenXrLayer.DispatchReady | openxr-api-layer/layer.cpp:366-687 | pool, handles, log and timing end as DispatchWith says |
| ApiLayer.OpenXrLayer.DispatchCas | openxr-api-layer/layer.cpp:362-689 | pool, handles, log, objects and timing end as DispatchRun says |
| ApiLayer.OpenXrLayer.SelectView | openxr-api-layer/layer.cpp:1042-1079 | the image and the cached lists are as SelectImage says |
| ApiLayer.OpenXrLayer.ProcessView | openxr-api-layer/layer.cpp:1042-1079 | one view changes the layer and session as ViewStep says |
| ApiLayer.OpenXrLayer.ProcessViews | openxr-api-layer/layer.cpp:1040-1080 | the view loop changes the layer and session as FrameRun says |
| ApiLayer.OpenXrLayer.SessionFrame | openxr-api-layer/layer.cpp:1020-1097 | the first projection layer's views are processed as FrameRun says, between the composition serialization events |
| ApiLayer.OpenXrLayer.EndFrame | openxr-api-layer/layer.cpp:1018-1103 | a known session's frame is processed as SessionFrame says; the frame is forwarded in every case; an unknown session changes nothing else; every other session, and the frame session's device, sharpness, composition and settings, are unchanged |

## Left out

- Floating point: sharpness, the Levels/FakeHDR parameters and the GPU times are `real`, not IEEE `float`/`double`.
- `std::stof`/`std::stoi` are parser parameters (`string -> Option<…>`). A thrown exception is the `None` answer.
- The CAS, FakeHDR and Levels kernels, `CasSetup`, and the constant-buffer contents with their `Map`/`Unmap` are not modelled. `ffx_cas.h` is not part of this model.
- D3D11 calls are outcome parameters (`DeviceAnswers`, `InitOutcome`). This covers shader loading and compilation, `LoadLibraryW`/`FreeLibrary`, texture/view/buffer/query creation, `GetData` and the readback. The device context's binding and unbinding calls are not recorded.
- The FakeHDR and Levels passes do not check their view creation. The model records them as dispatched whenever the effect is active, as the code issues them.
- The texture description given to `CreateTexture2D` is not modelled beyond its format (`TempPool.ScratchFormat`).
- Config files are sequences of lines and the environment is a record of `Option<string>` values. File existence and `ifstream` are not modelled. `GetEnvironmentVariableA` is modelled by its answer (`ConfigResolver.GetEnvironmentVariable`); what it leaves in a buffer that is too small is a parameter, since Win32 does not define it.
- The default config file creation in `xrCreateInstance` (layer.cpp:765-790) is left out: it only writes fixed text. The FakeHDR backfill is modelled as the text transformation `BackfillFakeHdr`, not as file I/O.
- `cfgLastWriteTime` is declared but never used, so it is not modelled.
- Logging, trace events, and the average-cost log line at 120 frames are left out. The average value is returned by `TimingStep`.
- `xrGetInstanceProcAddr`, the rest of `xrCreateInstance`, `xrGetSystem`, `GetInstance` and `DllMain` are left out: they forward calls and have no decision logic.
- The composition framework is a boolean (available or not), and its serialization calls are events. Its creation by the factory is not modelled.
- Exceptions thrown inside `xrCreateSwapchain` and `xrEndFrame` are not modelled: the modelled operations cannot fail that way. A caught parse or file exception in the config readers is the `None` answer.
- Session.SessionState.Open: combines the member initialisers of `SessionState` with the assignments `xrCreateSession` makes. The intermediate state between them is not observable.
- ApiLayer.OpenXrLayer.CreateSession: a session is never removed, because the layer has no `xrDestroySession` override.
- Dispatch.DispatchWith: the copy box uses the 32-bit wrapped offset and extent (`AsUint`, `AddU32`). What the device does with an out-of-range box is not modelled.
- PassPlan.PassCount: for a sharpness of 2^31 + 1 or more, or infinity, the C++ conversion `(int)floorf(s - 1)` is undefined (on x86-64 it gives INT_MIN and so one pass). The model clamps the exact floor and gives 4 passes.
- Images are assumed to have a single mip level. `D3D11CalcSubresource(0, slice, 1)` (layer.cpp:431, 677) is the right subresource only then, and the model takes the array slice as the subresource for both copies.
- ApiLayer.Frame, Tracker.SelectImage: the fallback `xrEnumerateSwapchainImages` answer is one function of the swapchain for the whole frame. The code enumerates again for every view whose swapchain still has no cached list (layer.cpp:1048-1067), so two views on one uncached swapchain enumerate twice. The model assumes the repeated enumeration gives the same answer; a failure followed by a success within one frame is not modelled.
- Concurrency: the layer is used from one thread, and the model is sequential.
