/**
 * The expected minimum sample counts per usage category: which device
 * limit the reported `sampleCounts` of an image must contain when the image
 * has that usage alone (getColorSampleCounts, getDepthStencilSampleCounts,
 * getSampledSampleCounts, getStorageSampleCounts).
 *
 * Each derivation is written as the choice of a limit (`LimitSource`), so
 * that its branches can be compared with `RequiredLimits`: the per-usage
 * limit list of section 34.1.1 ("Supported Sample Counts") of the Vulkan 1.2
 * specification, stated by aspects and numeric format. The list keeps the
 * test's two exemptions: block-compressed formats are held to no limit for
 * any usage but storage, and Y'CbCr formats to none for sampled use. It
 * leaves out the section's other conditions under which exactly the
 * 1-sample count is demanded: Y'CbCr formats for the colour-attachment,
 * depth-stencil and storage usages, formats without either attachment
 * feature, linear tiling, and non-2D and cube-compatible images. The
 * usage-flags cases are always 2D, optimally tiled and not cube-compatible,
 * so only the first two of these can apply to them, and the cases do not
 * look at either.
 */
module ExpectedCounts {
  import opened SampleCountFlags
  import opened Formats
  import opened Usage

  predicate HasDepthAspect(o: ChannelOrder) { o == D || o == DS }
  predicate HasStencilAspect(o: ChannelOrder) { o == S || o == DS }
  predicate HasColorAspect(o: ChannelOrder) { o == OtherOrder }

  /**
   * The per-usage limit list: for each usage, every limit whose condition
   * the format meets. The framebuffer colour limit applies to floating- and
   * fixed-point colour formats, the integer colour limit to integer
   * formats; the sampled limits follow the colour, depth and stencil
   * aspects, and integer formats add the integer limit. As the test itself
   * assumes, block-compressed formats are held to no limit but the storage
   * one, and Y'CbCr formats to no sampled limit. The other exactly-1-sample
   * conditions are left aside.
   */
  function RequiredLimits(c: UsageCategory, f: FormatInfo): set<LimitSource>
  {
    match c
    case ColorAttachment =>
      if f.isCompressed then {}
      else
        (if IsFloatOrFixed(f) && HasColorAspect(f.order) then {FramebufferColor} else {})
        + (if IsInteger(f) then {FramebufferIntegerColor} else {})
    case DepthStencilAttachment =>
      if f.isCompressed then {}
      else
        (if HasDepthAspect(f.order) then {FramebufferDepth} else {})
        + (if HasStencilAspect(f.order) then {FramebufferStencil} else {})
    case Sampled =>
      if f.isCompressed || f.isYCbCr then {}
      else
        (if HasColorAspect(f.order) then {SampledImageColor} else {})
        + (if HasDepthAspect(f.order) then {SampledImageDepth} else {})
        + (if HasStencilAspect(f.order) then {SampledImageStencil} else {})
        + (if IsInteger(f) then {SampledImageInteger} else {})
    case Storage => {StorageImage}
  }

  /**
   * getColorSampleCounts: framebufferColorSampleCounts for uncompressed
   * float, snorm and unorm formats, otherwise framebufferIntegerColorSampleCounts
   * for uncompressed int and uint formats, otherwise nothing.
   */
  function ColorLimit(f: FormatInfo): (src: LimitSource)
    ensures src == FramebufferColor <==> !f.isCompressed && IsFloatOrFixed(f)
    ensures src == FramebufferIntegerColor <==> !f.isCompressed && !IsFloatOrFixed(f) && IsInteger(f)
    ensures src == NoLimit <==> f.isCompressed || (!IsFloatOrFixed(f) && !IsInteger(f))
  {
    if !f.isCompressed then
      if IsFloatOrFixed(f) then FramebufferColor
      else if IsInteger(f) then FramebufferIntegerColor
      else NoLimit
    else NoLimit
  }

  /**
   * getDepthStencilSampleCounts: for an uncompressed format, the depth limit
   * when its order is exactly depth, the stencil limit when it is exactly
   * stencil; a combined depth-stencil order selects nothing.
   */
  function DepthStencilLimit(f: FormatInfo): (src: LimitSource)
    ensures src == FramebufferDepth <==> !f.isCompressed && f.order == D
    ensures src == FramebufferStencil <==> !f.isCompressed && f.order == S
    ensures src == NoLimit <==> f.isCompressed || f.order.DS? || f.order.OtherOrder?
  {
    if !f.isCompressed then
      if f.order == D then FramebufferDepth
      else if f.order == S then FramebufferStencil
      else NoLimit
    else NoLimit
  }

  /**
   * getSampledSampleCounts: nothing for compressed or Y'CbCr formats;
   * otherwise the colour limit for every order but D, DS and S (integer
   * colour formats included), the depth limit for D and DS, and the
   * integer limit only for a stencil-only integer format.
   */
  function SampledLimit(f: FormatInfo): (src: LimitSource)
    ensures src == SampledImageColor <==> !f.isCompressed && !f.isYCbCr && f.order.OtherOrder?
    ensures src == SampledImageDepth <==> !f.isCompressed && !f.isYCbCr && (f.order == D || f.order == DS)
    ensures src == SampledImageInteger <==> !f.isCompressed && !f.isYCbCr && f.order == S && IsInteger(f)
    ensures src == NoLimit <==> f.isCompressed || f.isYCbCr || (f.order == S && !IsInteger(f))
  {
    if !f.isCompressed && !f.isYCbCr then
      if f.order != D && f.order != DS && f.order != S then SampledImageColor
      else if f.order == D || f.order == DS then SampledImageDepth
      else if IsInteger(f) then SampledImageInteger
      else NoLimit
    else NoLimit
  }

  /** getStorageSampleCounts: storageImageSampleCounts for every format. */
  function StorageLimit(f: FormatInfo): LimitSource
  {
    StorageImage
  }

  /** The limit the test selects for one usage category. */
  function SelectedLimit(c: UsageCategory, f: FormatInfo): LimitSource
  {
    match c
    case ColorAttachment => ColorLimit(f)
    case DepthStencilAttachment => DepthStencilLimit(f)
    case Sampled => SampledLimit(f)
    case Storage => StorageLimit(f)
  }

  /**
   * The expected minimum mask for one usage category: the selected limit's
   * value, the empty mask when none applies.
   */
  function ExpectedSampleCounts(c: UsageCategory, f: FormatInfo, limits: DeviceLimits): Mask
  {
    LimitValue(limits, SelectedLimit(c, f))
  }

  /**
   * The one place where the test demands a limit the rules do not impose:
   * the colour-attachment derivation never asks whether the format has a
   * colour aspect, so an uncompressed float, snorm or unorm format with a
   * depth or stencil order is held to the framebuffer colour limit.
   */
  predicate ColorLimitWithoutColorAspect(c: UsageCategory, f: FormatInfo)
  {
    c == ColorAttachment && !f.isCompressed && IsFloatOrFixed(f) && !HasColorAspect(f.order)
  }

  lemma ColorLimitWithoutColorAspectIsExtra(f: FormatInfo)
    requires ColorLimitWithoutColorAspect(ColorAttachment, f)
    ensures SelectedLimit(ColorAttachment, f) == FramebufferColor
    ensures FramebufferColor !in RequiredLimits(ColorAttachment, f)
  {
  }

  /**
   * The sampled stencil limit is imposed on every uncompressed, non-Y'CbCr
   * format with a stencil aspect, and the test never selects it.
   */
  lemma SampledStencilNeverChecked(c: UsageCategory, f: FormatInfo)
    ensures SelectedLimit(c, f) != SampledImageStencil
    ensures c == Sampled && !f.isCompressed && !f.isYCbCr && HasStencilAspect(f.order) ==>
      SampledImageStencil in RequiredLimits(c, f)
  {
  }

  /**
   * Apart from the colour-aspect gap, the test never demands a limit the
   * requirement rules do not impose; and where the rules impose exactly one
   * limit other than the sampled stencil limit, the test selects it.
   */
  lemma SelectionAgreesWithRules(c: UsageCategory, f: FormatInfo)
    ensures SelectedLimit(c, f) != NoLimit && !ColorLimitWithoutColorAspect(c, f) ==>
      SelectedLimit(c, f) in RequiredLimits(c, f)
    ensures !ColorLimitWithoutColorAspect(c, f) ==>
      forall x :: RequiredLimits(c, f) == {x} && x != SampledImageStencil ==> SelectedLimit(c, f) == x
  {
  }

  /**
   * The test selects nothing exactly when the rules impose nothing but
   * possibly the sampled stencil limit, except in two places: a combined
   * depth-stencil format used as a depth-stencil attachment, where the
   * rules impose both the depth and the stencil limit and the test
   * selects neither, and the colour-aspect gap, where the rules impose
   * nothing and the test selects the colour limit.
   */
  lemma NoSelectionExactlyWhenNothingRequired(c: UsageCategory, f: FormatInfo)
    ensures SelectedLimit(c, f) == NoLimit <==>
      !ColorLimitWithoutColorAspect(c, f)
      && (RequiredLimits(c, f) - {SampledImageStencil} == {}
          || (c == DepthStencilAttachment && !f.isCompressed && f.order == DS))
  {
    var rest := RequiredLimits(c, f) - {SampledImageStencil};
    var src := SelectedLimit(c, f);
    if src != NoLimit && !ColorLimitWithoutColorAspect(c, f) {
      SelectionAgreesWithRules(c, f);
      SampledStencilNeverChecked(c, f);
      assert src in rest;
    }
    if c == Sampled && !f.isCompressed && !f.isYCbCr && f.order == S && !IsInteger(f) {
      assert rest == {};
    }
  }

  /**
   * Where the rules impose two limits, the test checks only one: an integer
   * colour format used as a sampled image is held to the colour limit but
   * not to the integer limit.
   */
  lemma SampledIntegerColorChecksColorOnly(f: FormatInfo)
    requires !f.isCompressed && !f.isYCbCr && f.order == OtherOrder && IsInteger(f)
    ensures RequiredLimits(Sampled, f) == {SampledImageColor, SampledImageInteger}
    ensures SelectedLimit(Sampled, f) == SampledImageColor
  {
  }

  /**
   * A driver that reports a superset of every limit the rules impose for a
   * usage also reports a superset of the test's expected mask, outside the
   * colour-aspect gap.
   */
  lemma ExpectedIsImpliedByRules(c: UsageCategory, f: FormatInfo, limits: DeviceLimits, reported: Mask)
    requires forall x :: x in RequiredLimits(c, f) ==> IsSuperset(reported, LimitValue(limits, x))
    ensures !ColorLimitWithoutColorAspect(c, f) ==> IsSuperset(reported, ExpectedSampleCounts(c, f, limits))
  {
    SelectionAgreesWithRules(c, f);
  }

  /** Block-compressed formats leave only the storage limit to check. */
  lemma CompressedExpectsOnlyStorage(c: UsageCategory, f: FormatInfo, limits: DeviceLimits)
    requires f.isCompressed && c != Storage
    ensures ExpectedSampleCounts(c, f, limits) == {}
  {
  }
}
