/** The pool of scratch textures `dispatchCas` keeps per (swapchain, array
    slice): the 64-bit pool key, the `TempTextures` slot and the rule that
    (re)creates a slot's two textures when the source image changes. */
module TempPool {
  import opened XrTypes
  import opened Formats

  /** The parts of a `D3D11_TEXTURE2D_DESC` the layer looks at. */
  datatype TexDesc = TexDesc(width: u32, height: u32, format: Format, sampleCount: u32)

  /** A key of the scratch pool (`uint64_t`). */
  datatype PoolKey = PoolKey(bits: bv64)

  /** The bits of a pool key: a handle's bits with the slice index XOR-ed
      into the upper 32 bits. */
  function XorSlice(bits: bv64, arraySlice: bv32): bv64 {
    bits ^ ((arraySlice as bv64) << 32)
  }

  /** `makeTempKey`. Keys of one swapchain decode back to their slice, so
      distinct slices of one swapchain never share a slot. */
  function MakeTempKey(swapchain: Swapchain, arraySlice: bv32): (k: PoolKey)
    ensures SliceOfKey(swapchain, k) == arraySlice
  {
    XorSliceRoundTrip(swapchain.bits, arraySlice);
    PoolKey(XorSlice(swapchain.bits, arraySlice))
  }

  /** The slice a key was made with, given the swapchain it was made for. */
  function SliceOfKey(swapchain: Swapchain, key: PoolKey): bv32 {
    ((key.bits ^ swapchain.bits) >> 32) as bv32
  }

  lemma XorCancels(bits: bv64, mask: bv64)
    ensures (bits ^ mask) ^ bits == mask
  {
  }

  lemma ShiftRoundTrip(arraySlice: bv32)
    ensures (((arraySlice as bv64) << 32) >> 32) as bv32 == arraySlice
  {
  }

  lemma XorSliceRoundTrip(bits: bv64, arraySlice: bv32)
    ensures ((XorSlice(bits, arraySlice) ^ bits) >> 32) as bv32 == arraySlice
  {
    XorCancels(bits, (arraySlice as bv64) << 32);
    ShiftRoundTrip(arraySlice);
  }

  lemma SlicesOfOneSwapchainGetDistinctKeys(swapchain: Swapchain, a: bv32, b: bv32)
    requires a != b
    ensures MakeTempKey(swapchain, a) != MakeTempKey(swapchain, b)
  {
    assert SliceOfKey(swapchain, MakeTempKey(swapchain, a)) != SliceOfKey(swapchain, MakeTempKey(swapchain, b));
  }

  lemma ShiftedSliceHasNoLowBits(arraySlice: bv32)
    ensures ((arraySlice as bv64) << 32) & 0xFFFF_FFFF == 0
  {
  }

  lemma XorKeepsUnmaskedBits(bits: bv64, mask: bv64)
    requires mask & 0xFFFF_FFFF == 0
    ensures (bits ^ mask) & 0xFFFF_FFFF == bits & 0xFFFF_FFFF
  {
  }

  lemma XorSliceKeepsLowHalf(bits: bv64, arraySlice: bv32)
    ensures XorSlice(bits, arraySlice) & 0xFFFF_FFFF == bits & 0xFFFF_FFFF
  {
    ShiftedSliceHasNoLowBits(arraySlice);
    XorKeepsUnmaskedBits(bits, (arraySlice as bv64) << 32);
  }

  /** The low 32 bits of a key are those of the swapchain handle. */
  lemma KeyKeepsLowHalf(swapchain: Swapchain, arraySlice: bv32)
    ensures MakeTempKey(swapchain, arraySlice).bits & 0xFFFF_FFFF == swapchain.bits & 0xFFFF_FFFF
  {
    XorSliceKeepsLowHalf(swapchain.bits, arraySlice);
  }

  /** Keys are not unique across swapchains: two handles that differ only in
      their upper half can share a slot. */
  lemma KeysCollideAcrossSwapchains()
    ensures MakeTempKey(XrHandle(0x1_0000_0000), 0) == MakeTempKey(XrHandle(0), 1)
  {
  }

  /** `TempTextures`: the two scratch textures of a slot and the source
      width, height and format they were created for. */
  datatype TempTextures = TempTextures(input: Option<Handle>, output: Option<Handle>,
                                       width: u32, height: u32, format: Format)

  /** The value `tempPool[key]` inserts for a key seen for the first time. */
  const EMPTY_SLOT: TempTextures := TempTextures(None, None, 0, 0, UNKNOWN)

  /** A slot is (re)created when it has no input texture or was made for
      another width, height or format. */
  predicate NeedsRecreate(slot: TempTextures, td: TexDesc) {
    slot.input.None? || slot.width != td.width || slot.height != td.height || slot.format != td.format
  }

  /** What preparing a slot produces: the new slot, the next unused texture
      handle, and whether `dispatchCas` goes on. */
  datatype SlotPrep = SlotPrep(slot: TempTextures, nextHandle: Handle, proceed: bool)

  /** Preparing the slot for a source image: reuse it, or create the input
      and then the output texture (each creation may fail; `inputOk` and
      `outputOk` are the device's answers). A failed creation leaves the
      slot's pointer empty and keeps its old width, height and format. */
  function PrepareSlot(slot: TempTextures, td: TexDesc, inputOk: bool, outputOk: bool, next: Handle): (p: SlotPrep)
    ensures p.proceed ==> p.slot.input.Some? && !NeedsRecreate(p.slot, td)
    ensures !NeedsRecreate(slot, td) ==> p == SlotPrep(slot, next, true)
    ensures NeedsRecreate(slot, td) ==> (p.proceed <==> inputOk && outputOk)
    ensures (p.slot.width, p.slot.height, p.slot.format) != (slot.width, slot.height, slot.format) ==> p.proceed
    ensures next <= p.nextHandle <= next + 2
  {
    if !NeedsRecreate(slot, td) then SlotPrep(slot, next, true)
    else if !inputOk then SlotPrep(slot.(input := None), next, false)
    else if !outputOk then SlotPrep(slot.(input := Some(next), output := None), next + 1, false)
    else SlotPrep(TempTextures(Some(next), Some(next + 1), td.width, td.height, td.format), next + 2, true)
  }

  /** A failed creation leaves the slot as the code leaves it: an input
      failure clears the input pointer, an output failure keeps the new input
      and clears the output; the old width, height and format stay. */
  lemma FailedCreationLeavesSlot(slot: TempTextures, td: TexDesc, inputOk: bool, outputOk: bool, next: Handle)
    requires NeedsRecreate(slot, td)
    ensures !inputOk ==> PrepareSlot(slot, td, inputOk, outputOk, next).slot == slot.(input := None)
    ensures inputOk && !outputOk ==>
      PrepareSlot(slot, td, inputOk, outputOk, next).slot == slot.(input := Some(next), output := None)
  {
  }

  /** The resource format a recreated slot's textures get. */
  function ScratchFormat(td: TexDesc): (f: Format)
    ensures Supported(td.format) ==> Supported(f) && MapSrvFormat(f) == MapSrvFormat(td.format)
  {
    ChooseTypeless(td.format)
  }

  /** Every handle of a slot was issued before `next`, and its two textures
      are different objects. */
  predicate SlotWellFormed(slot: TempTextures, next: Handle) {
    && (slot.input.Some? ==> slot.input.value < next)
    && (slot.output.Some? ==> slot.output.value < next)
    && (slot.input.Some? && slot.output.Some? ==> slot.input.value != slot.output.value)
  }

  lemma PrepareKeepsSlotWellFormed(slot: TempTextures, td: TexDesc, inputOk: bool, outputOk: bool, next: Handle)
    requires SlotWellFormed(slot, next)
    ensures var p := PrepareSlot(slot, td, inputOk, outputOk, next);
      SlotWellFormed(p.slot, p.nextHandle)
  {
  }

  /** A prepared slot is reused as it is by the next image with the same
      description: no texture is created twice for one size and format. */
  lemma PreparedSlotIsReused(slot: TempTextures, td: TexDesc, in1: bool, out1: bool, in2: bool, out2: bool, next: Handle)
    requires PrepareSlot(slot, td, in1, out1, next).proceed
    ensures var p := PrepareSlot(slot, td, in1, out1, next);
      PrepareSlot(p.slot, td, in2, out2, p.nextHandle) == SlotPrep(p.slot, p.nextHandle, true)
  {
  }

  /** A recreation that proceeds creates two fresh, distinct textures. */
  lemma RecreationIssuesFreshTextures(slot: TempTextures, td: TexDesc, inputOk: bool, outputOk: bool, next: Handle)
    requires NeedsRecreate(slot, td)
    requires PrepareSlot(slot, td, inputOk, outputOk, next).proceed
    ensures var p := PrepareSlot(slot, td, inputOk, outputOk, next);
      p.slot.input == Some(next) && p.slot.output == Some(next + 1) && p.nextHandle == next + 2
  {
  }

  /** When the output texture cannot be created, the slot keeps a new input
      but its old size; an image of that old size later finds the slot
      reusable although it has no output texture. */
  lemma FailedOutputLeavesReusableSlotWithoutOutput()
    ensures var old_ := TempTextures(Some(0), Some(1), 8, 8, R8G8B8A8_UNORM);
      var bigger := TexDesc(16, 16, R8G8B8A8_UNORM, 1);
      var p := PrepareSlot(old_, bigger, true, false, 2);
      && !p.proceed
      && var q := PrepareSlot(p.slot, TexDesc(8, 8, R8G8B8A8_UNORM, 1), true, true, p.nextHandle);
      q.proceed && q.slot.output.None?
  {
  }
}
