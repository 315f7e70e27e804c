/** The pixel-format negotiation of `dispatchCas`: which swapchain formats are
    processed, which format the scratch textures are created in, and which
    formats their shader-resource and unordered-access views use. Formats are
    `DXGI_FORMAT` enumeration values. */
module Formats {

  type Format = nat

  const UNKNOWN: Format := 0
  const R16G16B16A16_FLOAT: Format := 10
  const R8G8B8A8_TYPELESS: Format := 27
  const R8G8B8A8_UNORM: Format := 28
  const R8G8B8A8_UNORM_SRGB: Format := 29
  const B8G8R8A8_UNORM: Format := 87
  const B8G8R8X8_UNORM: Format := 88
  const B8G8R8A8_TYPELESS: Format := 90
  const B8G8R8A8_UNORM_SRGB: Format := 91
  const B8G8R8X8_TYPELESS: Format := 92
  const B8G8R8X8_UNORM_SRGB: Format := 93

  /** The ten formats `dispatchCas` accepts (8-bit RGBA/BGRA/BGRX in their
      UNORM, sRGB and typeless forms, and 16-bit float RGBA). */
  predicate Supported(f: Format) {
    || f == R8G8B8A8_UNORM || f == R8G8B8A8_UNORM_SRGB || f == R8G8B8A8_TYPELESS
    || f == B8G8R8A8_UNORM || f == B8G8R8A8_UNORM_SRGB || f == B8G8R8A8_TYPELESS
    || f == B8G8R8X8_UNORM || f == B8G8R8X8_UNORM_SRGB || f == B8G8R8X8_TYPELESS
    || f == R16G16B16A16_FLOAT
  }

  predicate IsSrgb(f: Format) {
    f == R8G8B8A8_UNORM_SRGB || f == B8G8R8A8_UNORM_SRGB || f == B8G8R8X8_UNORM_SRGB
  }

  predicate IsTypeless(f: Format) {
    f == R8G8B8A8_TYPELESS || f == B8G8R8A8_TYPELESS || f == B8G8R8X8_TYPELESS
  }

  /** The four formats a view over a scratch texture may have. */
  predicate IsLinearViewFormat(f: Format) {
    f == R8G8B8A8_UNORM || f == B8G8R8A8_UNORM || f == B8G8R8X8_UNORM || f == R16G16B16A16_FLOAT
  }

  /** The resource format of a scratch texture: the typeless member of the
      source format's 8-bit family, so that both kinds of view can be made;
      other formats are kept. */
  function ChooseTypeless(f: Format): (r: Format)
    ensures Supported(f) ==> Supported(r)
    ensures Supported(f) && f != R16G16B16A16_FLOAT ==> IsTypeless(r)
  {
    if f == R8G8B8A8_UNORM || f == R8G8B8A8_UNORM_SRGB || f == R8G8B8A8_TYPELESS then R8G8B8A8_TYPELESS
    else if f == B8G8R8A8_UNORM || f == B8G8R8A8_UNORM_SRGB || f == B8G8R8A8_TYPELESS then B8G8R8A8_TYPELESS
    else if f == B8G8R8X8_UNORM || f == B8G8R8X8_UNORM_SRGB || f == B8G8R8X8_TYPELESS then B8G8R8X8_TYPELESS
    else f
  }

  /** The format of the shader-resource view: typeless and sRGB formats are
      read as their UNORM member. */
  function MapSrvFormat(f: Format): (r: Format)
    ensures Supported(f) ==> IsLinearViewFormat(r)
    ensures !IsSrgb(f) && !IsTypeless(f) ==> r == f
  {
    if f == R8G8B8A8_TYPELESS || f == R8G8B8A8_UNORM_SRGB then R8G8B8A8_UNORM
    else if f == B8G8R8A8_TYPELESS || f == B8G8R8A8_UNORM_SRGB then B8G8R8A8_UNORM
    else if f == B8G8R8X8_TYPELESS || f == B8G8R8X8_UNORM_SRGB then B8G8R8X8_UNORM
    else f
  }

  /** The format of the unordered-access view (its own switch in the source,
      with the cases in a different order). */
  function MapUavFormat(f: Format): (r: Format)
    ensures Supported(f) ==> IsLinearViewFormat(r)
    ensures !IsSrgb(f) && !IsTypeless(f) ==> r == f
  {
    if f == R8G8B8A8_UNORM_SRGB then R8G8B8A8_UNORM
    else if f == R8G8B8A8_TYPELESS then R8G8B8A8_UNORM
    else if f == B8G8R8A8_UNORM_SRGB then B8G8R8A8_UNORM
    else if f == B8G8R8A8_TYPELESS then B8G8R8A8_UNORM
    else if f == B8G8R8X8_UNORM_SRGB then B8G8R8X8_UNORM
    else if f == B8G8R8X8_TYPELESS then B8G8R8X8_UNORM
    else f
  }

  /** For every accepted format both views agree, they are the same views the
      typeless resource format would get, and neither is sRGB or typeless. */
  lemma ViewFormatsAgree(f: Format)
    requires Supported(f)
    ensures MapSrvFormat(f) == MapUavFormat(f)
    ensures MapSrvFormat(f) == MapSrvFormat(ChooseTypeless(f))
    ensures !IsSrgb(MapSrvFormat(f)) && !IsTypeless(MapSrvFormat(f))
  {
  }

  /** The whitelist is exactly the three 8-bit families (UNORM, sRGB and
      typeless each) and the 16-bit float format: a format is accepted when
      its typeless family member is one of four. */
  lemma SupportedIsThreeFamiliesAndFloat(f: Format)
    ensures Supported(f) <==>
      ChooseTypeless(f) in {R8G8B8A8_TYPELESS, B8G8R8A8_TYPELESS, B8G8R8X8_TYPELESS, R16G16B16A16_FLOAT}
  {
  }

  /** Choosing the typeless format twice is choosing it once, for every
      format. */
  lemma ChooseTypelessIsIdempotent(f: Format)
    ensures ChooseTypeless(ChooseTypeless(f)) == ChooseTypeless(f)
  {
  }

  /** The UNORM view and the typeless resource belong to the same family: the
      view format maps back to the resource format. */
  lemma ViewFormatMatchesResource(f: Format)
    requires Supported(f)
    ensures ChooseTypeless(MapSrvFormat(f)) == ChooseTypeless(f)
  {
  }
}
