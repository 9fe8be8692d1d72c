/** The pass's small decision functions: texture-format fallbacks chosen in the
    constructor, descriptor derivation, the SMAA stencil choice, whether an sRGB
    conversion is needed, and what loading a shader into a material yields. */
module Formats {
  import opened Engine

  datatype FormatUsage = Linear | Render
  datatype ColorSpace = GammaSpace | LinearSpace

  /** What SystemInfo and QualitySettings report about the device. */
  datatype Device = Device(
    supported: map<GraphicsFormat, set<FormatUsage>>,
    graphicsDeviceVendor: string,
    activeColorSpace: ColorSpace)

  /** A format is supported for a combination of usages when it is supported for each of them. */
  predicate IsFormatSupported(d: Device, f: GraphicsFormat, usage: set<FormatUsage>) {
    f in d.supported && usage <= d.supported[f]
  }

  // ---------------------------------------------------------------- strings

  /** ToLowerInvariant on the ASCII range. */
  function ToLower(s: string): (r: string)
    ensures |r| == |s|
    ensures forall i :: 0 <= i < |s| ==> r[i] == LowerChar(s[i])
  {
    if s == [] then [] else [LowerChar(s[0])] + ToLower(s[1..])
  }

  function LowerChar(c: char): (r: char)
    ensures 'A' <= c <= 'Z' ==> 'a' <= r <= 'z' && r as int == c as int + 32
    ensures !('A' <= c <= 'Z') ==> r == c
  {
    if 'A' <= c <= 'Z' then (c as int + 32) as char else c
  }

  predicate OccursAt(s: string, sub: string, i: nat) {
    i + |sub| <= |s| && s[i..i + |sub|] == sub
  }

  /** String.Contains. */
  function Contains(s: string, sub: string): (r: bool)
    ensures r <==> exists i: nat :: OccursAt(s, sub, i)
    decreases |s|
  {
    if OccursAt(s, sub, 0) then true
    else if |s| <= |sub| then
      assert forall i: nat :: OccursAt(s, sub, i) ==> i == 0;
      false
    else
      var rest := Contains(s[1..], sub);
      assert forall i: nat :: OccursAt(s[1..], sub, i) <==> OccursAt(s, sub, i + 1) by {
        forall i: nat ensures OccursAt(s[1..], sub, i) <==> OccursAt(s, sub, i + 1) {
          if i + |sub| <= |s| - 1 {
            assert s[1..][i..i + |sub|] == s[i + 1..i + 1 + |sub|];
          }
        }
      }
      assert forall i: nat :: OccursAt(s, sub, i) && i > 0 ==> OccursAt(s[1..], sub, i - 1);
      rest
  }

  // ---------------------------------------------------------------- constructor formats

  /** The HDR format of the pass's own targets and whether they use RGBM encoding. */
  datatype HdrChoice = HdrChoice(format: GraphicsFormat, useRGBM: bool)

  function DefaultHdrFormat(d: Device): (r: HdrChoice)
    ensures r.useRGBM <==> r.format != B10G11R11_UFloatPack32
    ensures !r.useRGBM <==> IsFormatSupported(d, B10G11R11_UFloatPack32, {Linear, Render})
    ensures r.useRGBM ==> (r.format == R8G8B8A8_SRGB <==> d.activeColorSpace == LinearSpace)
    ensures r.useRGBM ==> r.format in {R8G8B8A8_SRGB, R8G8B8A8_UNorm}
  {
    if IsFormatSupported(d, B10G11R11_UFloatPack32, {Linear, Render}) then
      HdrChoice(B10G11R11_UFloatPack32, false)
    else
      HdrChoice(if d.activeColorSpace == LinearSpace then R8G8B8A8_SRGB else R8G8B8A8_UNorm, true)
  }

  /** The SMAA edge texture needs two channels; the two-channel format is only used on ARM devices that support it. */
  function SmaaEdgeFormat(d: Device): (r: GraphicsFormat)
    ensures r in {R8G8_UNorm, R8G8B8A8_UNorm}
    ensures r == R8G8_UNorm <==>
      IsFormatSupported(d, R8G8_UNorm, {Render}) && Contains(ToLower(d.graphicsDeviceVendor), "arm")
  {
    if IsFormatSupported(d, R8G8_UNorm, {Render}) && Contains(ToLower(d.graphicsDeviceVendor), "arm") then
      R8G8_UNorm
    else
      R8G8B8A8_UNorm
  }

  /** The first format of `chain` that is supported for `usage`, or `fallback` when none is. */
  function FirstSupported(d: Device, chain: seq<GraphicsFormat>, usage: set<FormatUsage>, fallback: GraphicsFormat): (r: GraphicsFormat)
    ensures r == fallback || r in chain
    ensures r in chain && r != fallback ==> IsFormatSupported(d, r, usage)
    ensures (forall k :: 0 <= k < |chain| ==> !IsFormatSupported(d, chain[k], usage)) ==> r == fallback
    ensures forall k :: 0 <= k < |chain| && IsFormatSupported(d, chain[k], usage) ==>
      exists j :: 0 <= j <= k && r == chain[j] && IsFormatSupported(d, chain[j], usage)
  {
    if chain == [] then fallback
    else if IsFormatSupported(d, chain[0], usage) then chain[0]
    else
      var r := FirstSupported(d, chain[1..], usage, fallback);
      assert forall k :: 1 <= k < |chain| ==> chain[k] == chain[1..][k - 1];
      r
  }

  /** The circle-of-confusion format of Gaussian depth of field: 16-bit UNorm, else 16-bit float, else 8-bit (banding). */
  function GaussianCoCFormat(d: Device): (r: GraphicsFormat)
    ensures IsFormatSupported(d, R16_UNorm, {Linear, Render}) ==> r == R16_UNorm
    ensures !IsFormatSupported(d, R16_UNorm, {Linear, Render}) && IsFormatSupported(d, R16_SFloat, {Linear, Render}) ==> r == R16_SFloat
    ensures !IsFormatSupported(d, R16_UNorm, {Linear, Render}) && !IsFormatSupported(d, R16_SFloat, {Linear, Render}) ==> r == R8_UNorm
  {
    var chain := [R16_UNorm, R16_SFloat];
    var r := FirstSupported(d, chain, {Linear, Render}, R8_UNorm);
    assert IsFormatSupported(d, chain[1], {Linear, Render}) ==> r == chain[0] || r == chain[1];
    r
  }

  // ---------------------------------------------------------------- descriptors

  /** Everything of a descriptor that GetCompatibleDescriptor copies unchanged. */
  predicate SameExceptTarget(a: Descriptor, b: Descriptor) {
    a.useMipMap == b.useMipMap && a.autoGenerateMips == b.autoGenerateMips &&
    a.dimension == b.dimension && a.memoryless == b.memoryless && a.rest == b.rest
  }

  /** A copy of the pass descriptor with the given size, format and depth bits and MSAA turned off. */
  function CompatibleDescriptor(base: Descriptor, width: nat, height: nat, format: GraphicsFormat, depthBufferBits: nat): (r: Descriptor)
    ensures r.width == width && r.height == height && r.graphicsFormat == format
    ensures r.depthBufferBits == depthBufferBits && r.msaaSamples == 1
    ensures SameExceptTarget(r, base)
  {
    base.(depthBufferBits := depthBufferBits, msaaSamples := 1, width := width, height := height, graphicsFormat := format)
  }

  /** The overload without arguments keeps the pass descriptor's size and format. */
  function DefaultCompatibleDescriptor(base: Descriptor): (r: Descriptor)
    ensures r.width == base.width && r.height == base.height && r.graphicsFormat == base.graphicsFormat
    ensures r.depthBufferBits == 0 && r.msaaSamples == 1
    ensures SameExceptTarget(r, base)
    ensures base.depthBufferBits == 0 && base.msaaSamples == 1 ==> r == base
  {
    CompatibleDescriptor(base, base.width, base.height, base.graphicsFormat, 0)
  }

  /** The descriptor Setup stores: the camera's, with mip maps switched off. */
  function PassDescriptor(base: Descriptor): (r: Descriptor)
    ensures !r.useMipMap && !r.autoGenerateMips
    ensures r.width == base.width && r.height == base.height && r.graphicsFormat == base.graphicsFormat
    ensures r.depthBufferBits == base.depthBufferBits && r.msaaSamples == base.msaaSamples
    ensures r.dimension == base.dimension && r.memoryless == base.memoryless && r.rest == base.rest
  {
    base.(useMipMap := false, autoGenerateMips := false)
  }

  // ---------------------------------------------------------------- SMAA stencil

  /** Which surface the SMAA passes use as stencil, and how many depth bits the edge texture gets. */
  datatype StencilChoice = StencilChoice(stencil: Handle, edgeDepthBits: nat)

  function SmaaStencil(depth: Handle, desc: Descriptor): (r: StencilChoice)
    ensures r.edgeDepthBits == 24 || r.edgeDepthBits == 0
    ensures r.edgeDepthBits == 24 <==> depth == CameraTarget || desc.msaaSamples > 1
    ensures r.edgeDepthBits == 24 ==> r.stencil == Temporary(EdgeTexture)
    ensures r.edgeDepthBits == 0 ==> r.stencil == depth
    ensures r.stencil != CameraTarget
  {
    if depth == CameraTarget || desc.msaaSamples > 1 then StencilChoice(Temporary(EdgeTexture), 24)
    else StencilChoice(depth, 0)
  }

  // ---------------------------------------------------------------- sRGB

  /** A manual linear-to-sRGB conversion is needed when the camera needs one and the pass enables it. */
  function RequireSrgbConversion(cameraRequiresSrgb: bool, enableSrgbConversionIfNeeded: bool): (r: bool)
  {
    cameraRequiresSrgb && enableSrgbConversionIfNeeded
  }

  // ---------------------------------------------------------------- material loading

  datatype Shader = Shader(isSupported: bool)

  /** What MaterialLibrary.Load does with a shader reference (None is a missing reference). */
  datatype LoadOutcome = MissingShader | UnsupportedShader | CreatedMaterial

  function LoadDecision(shader: Option<Shader>): (r: LoadOutcome)
    ensures r == CreatedMaterial <==> shader.Some? && shader.value.isSupported
    ensures r == MissingShader <==> shader.None?
    ensures r == UnsupportedShader <==> shader.Some? && !shader.value.isSupported
  {
    if shader.None? then MissingShader
    else if !shader.value.isSupported then UnsupportedShader
    else CreatedMaterial
  }

  /** An error is logged for a missing shader only. */
  predicate LogsError(r: LoadOutcome) {
    r == MissingShader
  }
}
