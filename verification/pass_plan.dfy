/** The arithmetic and the ping-pong plan of `dispatchCas`: the copied
    rectangle, the thread-group counts, the number of CAS passes a sharpness
    asks for, which scratch texture each pass reads and writes, and the GPU
    timing counter. */
module PassPlan {
  import opened XrTypes
  import opened TempPool

  /** The parts of an `XrSwapchainSubImage` the layer uses: the rectangle
      (signed offset and extent) and the array slice. */
  datatype SubImage = SubImage(swapchain: Swapchain, offsetX: i32, offsetY: i32,
                               extentWidth: i32, extentHeight: i32, arraySlice: bv32)

  /** A `D3D11_BOX` restricted to one slice (front 0, back 1). */
  datatype Box = Box(left: u32, top: u32, right: u32, bottom: u32)

  /** The copied width: the rectangle's extent converted to `UINT`, or the
      texture's full width when the extent is zero. */
  function CopyWidth(sub: SubImage, td: TexDesc): (w: u32)
    ensures sub.extentWidth == 0 ==> w == td.width
    ensures sub.extentWidth > 0 ==> w == sub.extentWidth
    ensures sub.extentWidth < 0 ==> w == sub.extentWidth + TWO_TO_32
  {
    if sub.extentWidth != 0 then AsUint(sub.extentWidth) else td.width
  }

  function CopyHeight(sub: SubImage, td: TexDesc): (h: u32)
    ensures sub.extentHeight == 0 ==> h == td.height
    ensures sub.extentHeight > 0 ==> h == sub.extentHeight
    ensures sub.extentHeight < 0 ==> h == sub.extentHeight + TWO_TO_32
  {
    if sub.extentHeight != 0 then AsUint(sub.extentHeight) else td.height
  }

  /** The box used both to copy the rectangle into the input texture and to
      copy the result back: offset converted to `UINT`, plus the copied size,
      in wrapping 32-bit arithmetic. */
  function CopyBox(sub: SubImage, td: TexDesc): (b: Box)
    ensures 0 <= sub.offsetX && sub.offsetX + CopyWidth(sub, td) < TWO_TO_32 ==>
      b.left == sub.offsetX && b.right == sub.offsetX + CopyWidth(sub, td)
    ensures 0 <= sub.offsetY && sub.offsetY + CopyHeight(sub, td) < TWO_TO_32 ==>
      b.top == sub.offsetY && b.bottom == sub.offsetY + CopyHeight(sub, td)
  {
    var left := AsUint(sub.offsetX);
    var top := AsUint(sub.offsetY);
    Box(left, top, AddU32(left, CopyWidth(sub, td)), AddU32(top, CopyHeight(sub, td)))
  }

  /** A rectangle that lies inside the 32-bit range is copied exactly: the
      box starts at its offset and spans its extent (or the full texture for
      a zero extent). */
  lemma CopyBoxCoversRectangle(sub: SubImage, td: TexDesc)
    requires 0 <= sub.offsetX && 0 <= sub.offsetY && 0 <= sub.extentWidth && 0 <= sub.extentHeight
    requires sub.offsetX + CopyWidth(sub, td) < TWO_TO_32
    requires sub.offsetY + CopyHeight(sub, td) < TWO_TO_32
    ensures var b := CopyBox(sub, td);
      && b.left == sub.offsetX && b.top == sub.offsetY
      && b.right - b.left == (if sub.extentWidth == 0 then td.width else sub.extentWidth)
      && b.bottom - b.top == (if sub.extentHeight == 0 then td.height else sub.extentHeight)
  {
  }

  /** `(extent + 15) / 16` in `UINT`: the number of 16-wide thread groups
      covering the extent; the addition wraps for extents within 15 of 2^32,
      and the count then drops to 0. */
  function GroupCount(extent: u32): (g: u32)
    ensures extent + 15 < TWO_TO_32 ==> 16 * g >= extent && 16 * g < extent + 16
    ensures extent + 15 >= TWO_TO_32 ==> g == 0
  {
    AddU32(extent, 15) / 16
  }

  /** Number of CAS passes for a sharpness: one, plus one per whole unit
      above 1.0, at most four in all. */
  function PassCount(sharpness: real): (n: nat)
    ensures 1 <= n <= 4
    ensures sharpness < 2.0 ==> n == 1
    ensures 1.0 <= sharpness < 4.0 ==> (n as real) <= sharpness < (n as real) + 1.0
    ensures 4.0 <= sharpness ==> n == 4
  {
    if sharpness > 1.0 then
      var extra := (sharpness - 1.0).Floor;
      1 + (if extra < 0 then 0 else if extra > 3 then 3 else extra)
    else 1
  }

  /** More sharpness never means fewer passes. */
  lemma PassCountIsMonotonic(s: real, t: real)
    requires s <= t
    ensures PassCount(s) <= PassCount(t)
  {
  }

  lemma PassCountExamples()
    ensures PassCount(0.6) == 1 && PassCount(1.0) == 1 && PassCount(1.5) == 1 && PassCount(1.9) == 1
    ensures PassCount(2.0) == 2 && PassCount(3.4) == 3 && PassCount(4.0) == 4 && PassCount(10.0) == 4
  {
  }

  /** The strength handed to CAS's own setup: the sharpness, saturated at
      1.0 (the extra strength comes from repeated passes). */
  function CasStrength(sharpness: real): (r: real)
    ensures r <= 1.0 && r <= sharpness
    ensures sharpness <= 1.0 ==> r == sharpness
    ensures sharpness > 1.0 ==> r == 1.0
  {
    if sharpness > 1.0 then 1.0 else sharpness
  }

  /** The two scratch textures of a pool slot. */
  datatype Slot = Input | Output {
    function Other(): Slot {
      if this == Input then Output else Input
    }
  }

  datatype PassKind = Cas | FakeHdr | Levels

  /** One compute dispatch: its shader, the texture bound as SRV (read) and
      the one bound as UAV (write). */
  datatype PassStep = PassStep(kind: PassKind, read: Slot, write: Slot)

  /** The texture CAS pass `i` reads: the textures are swapped after every
      pass, starting from the input. */
  function CasRead(i: nat): Slot {
    if i % 2 == 0 then Input else Output
  }

  function CasStep(i: nat): PassStep {
    PassStep(Cas, CasRead(i), CasRead(i).Other())
  }

  function CasSteps(n: nat): (steps: seq<PassStep>)
    ensures |steps| == n
    ensures forall i :: 0 <= i < n ==> steps[i] == CasStep(i)
  {
    seq(n, i requires 0 <= i => CasStep(i))
  }

  /** The optional passes after CAS, FakeHDR first and then Levels, each
      reading the latest result and writing the other texture. */
  function PostSteps(latest: Slot, fakeHdr: bool, levels: bool): (steps: seq<PassStep>)
    ensures |steps| == (if fakeHdr then 1 else 0) + (if levels then 1 else 0)
    ensures forall i :: 0 <= i < |steps| ==> steps[i].kind != Cas && steps[i].write == steps[i].read.Other()
    ensures steps != [] ==> steps[0].read == latest
    ensures forall i :: 0 < i < |steps| ==> steps[i].read == steps[i - 1].write
    ensures fakeHdr ==> steps[0].kind == FakeHdr
    ensures levels ==> steps[|steps| - 1].kind == Levels
  {
    var hdr := if fakeHdr then [PassStep(FakeHdr, latest, latest.Other())] else [];
    var afterHdr := if fakeHdr then latest.Other() else latest;
    hdr + (if levels then [PassStep(Levels, afterHdr, afterHdr.Other())] else [])
  }

  /** Every dispatch of one `dispatchCas` call, in order. */
  function Plan(n: nat, fakeHdr: bool, levels: bool): (p: seq<PassStep>)
    ensures |p| == n + (if fakeHdr then 1 else 0) + (if levels then 1 else 0)
    ensures forall i :: 0 <= i < n ==> p[i] == CasStep(i)
    ensures forall i :: n <= i < |p| ==> p[i].kind != Cas
  {
    CasSteps(n) + PostSteps(CasRead(n), fakeHdr, levels)
  }

  /** Where the final result lies, stated independently of the plan: after
      an odd number of dispatches in the output texture, after an even number
      in the input texture. */
  function ResultSlot(n: nat, fakeHdr: bool, levels: bool): (r: Slot)
    ensures fakeHdr == levels ==> r == CasRead(n)
    ensures fakeHdr != levels ==> r == CasRead(n).Other()
  {
    var m := n + (if fakeHdr then 1 else 0) + (if levels then 1 else 0);
    if m % 2 == 1 then Output else Input
  }

  lemma OtherOfCasRead(i: nat)
    ensures CasRead(i).Other() == CasRead(i + 1)
  {
  }

  /** The plan is a ping-pong chain: each dispatch writes the texture it does
      not read, reads what the previous one wrote, the first reads the
      copied-in input, and the last writes the texture that `ResultSlot`
      names. */
  lemma {:induction false} PlanIsPingPong(n: nat, fakeHdr: bool, levels: bool)
    requires 1 <= n
    ensures var p := Plan(n, fakeHdr, levels);
      && |p| == n + (if fakeHdr then 1 else 0) + (if levels then 1 else 0)
      && p[0].read == Input
      && (forall i :: 0 <= i < |p| ==> p[i].write == p[i].read.Other())
      && (forall i :: 0 < i < |p| ==> p[i].read == p[i - 1].write)
      && p[|p| - 1].write == ResultSlot(n, fakeHdr, levels)
  {
    var p := Plan(n, fakeHdr, levels);
    var cas := CasSteps(n);
    var post := PostSteps(CasRead(n), fakeHdr, levels);
    assert p == cas + post;
    forall i | 0 < i < |p|
      ensures p[i].read == p[i - 1].write
    {
      if i < n {
        OtherOfCasRead(i - 1);
      } else if i == n {
        OtherOfCasRead(n - 1);
      }
    }
    OtherOfCasRead(n - 1);
  }

  /** Only the CAS passes are counted by the sharpness: the plan has exactly
      `PassCount` CAS dispatches, followed by the enabled post passes. */
  lemma PlanCountsCasPasses(s: real, fakeHdr: bool, levels: bool)
    ensures var p := Plan(PassCount(s), fakeHdr, levels);
      && (forall i :: 0 <= i < PassCount(s) ==> p[i].kind == Cas)
      && (forall i :: PassCount(s) <= i < |p| ==> p[i].kind != Cas)
  {
  }

  /** With no post pass, an odd number of CAS passes leaves the result in the
      output texture and an even number in the input texture. */
  lemma ResultOfCasAlone(n: nat)
    requires 1 <= n
    ensures n % 2 == 1 ==> ResultSlot(n, false, false) == Output
    ensures n % 2 == 0 ==> ResultSlot(n, false, false) == Input
  {
  }

  const TIMING_WINDOW: nat := 120

  /** The GPU-cost averaging state kept in the session. */
  datatype Timing = Timing(frames: nat, accumMs: real)

  /** One successful timestamp readback: accumulate, and every
      `TIMING_WINDOW` samples report the average and start again. */
  function TimingStep(t: Timing, ms: real): (r: (Timing, Option<real>))
    requires t.frames < TIMING_WINDOW
    ensures r.0.frames < TIMING_WINDOW
    ensures r.1.Some? <==> t.frames + 1 == TIMING_WINDOW
    ensures r.1.Some? ==> r.0 == Timing(0, 0.0) && r.1.value == (t.accumMs + ms) / TIMING_WINDOW as real
    ensures r.1.None? ==> r.0 == Timing(t.frames + 1, t.accumMs + ms)
  {
    var accum := t.accumMs + ms;
    var frames := t.frames + 1;
    if frames >= TIMING_WINDOW then (Timing(0, 0.0), Some(accum / frames as real))
    else (Timing(frames, accum), None)
  }

  /** A run of samples from a given state: the final state and the averages
      reported along the way. */
  function TimingRun(t: Timing, samples: seq<real>): (r: (Timing, seq<real>))
    requires t.frames < TIMING_WINDOW
    ensures r.0.frames < TIMING_WINDOW
    decreases |samples|
  {
    if |samples| == 0 then (t, [])
    else
      var (t1, report) := TimingStep(t, samples[0]);
      var (t2, rest) := TimingRun(t1, samples[1..]);
      (t2, (if report.Some? then [report.value] else []) + rest)
  }

  /** The counter counts samples modulo the window, and one average is
      reported per completed window. */
  lemma {:induction false} TimingRunCounts(t: Timing, samples: seq<real>)
    requires t.frames < TIMING_WINDOW
    ensures TimingRun(t, samples).0.frames == (t.frames + |samples|) % TIMING_WINDOW
    ensures |TimingRun(t, samples).1| == (t.frames + |samples|) / TIMING_WINDOW
    decreases |samples|
  {
    if |samples| > 0 {
      var (t1, report) := TimingStep(t, samples[0]);
      TimingRunCounts(t1, samples[1..]);
      if report.Some? {
        assert t.frames + 1 == TIMING_WINDOW;
        assert t1.frames == 0;
      } else {
        assert t1.frames == t.frames + 1;
      }
    }
  }
}
