/**
 * What the test needs to know about an image format and about the device,
 * taken as given: the format classification helpers (is it a float, snorm,
 * unorm, int or uint format, is it block-compressed, does it need a Y'CbCr
 * conversion, what is its texture channel order) and the per-usage sample
 * count limits the device reports.
 */
module Formats {
  import opened SampleCountFlags

  /**
   * The channel order of a format's texture description, as far as the test
   * distinguishes it: depth only, stencil only, combined depth-stencil, or
   * any colour order.
   */
  datatype ChannelOrder = D | S | DS | OtherOrder

  /** The results of the format classification helpers for one format. */
  datatype FormatInfo = FormatInfo(
    isFloat: bool,
    isSnorm: bool,
    isUnorm: bool,
    isInt: bool,
    isUint: bool,
    isCompressed: bool,
    isYCbCr: bool,
    order: ChannelOrder)

  /** An opaque format identifier, with its short name and classification. */
  datatype Format = Format(shortName: string, info: FormatInfo)

  /** A floating- or fixed-point format. */
  predicate IsFloatOrFixed(f: FormatInfo)
  {
    f.isFloat || f.isSnorm || f.isUnorm
  }

  /** A signed or unsigned integer format. */
  predicate IsInteger(f: FormatInfo)
  {
    f.isInt || f.isUint
  }

  /**
   * The sample-count limits of VkPhysicalDeviceLimits, with
   * framebufferIntegerColorSampleCounts from
   * VkPhysicalDeviceVulkan12Properties.
   */
  datatype DeviceLimits = DeviceLimits(
    framebufferColorSampleCounts: Mask,
    framebufferIntegerColorSampleCounts: Mask,
    framebufferDepthSampleCounts: Mask,
    framebufferStencilSampleCounts: Mask,
    sampledImageColorSampleCounts: Mask,
    sampledImageIntegerSampleCounts: Mask,
    sampledImageDepthSampleCounts: Mask,
    sampledImageStencilSampleCounts: Mask,
    storageImageSampleCounts: Mask)

  /** Names one of the limits above, or none of them. */
  datatype LimitSource =
    | NoLimit
    | FramebufferColor
    | FramebufferIntegerColor
    | FramebufferDepth
    | FramebufferStencil
    | SampledImageColor
    | SampledImageInteger
    | SampledImageDepth
    | SampledImageStencil
    | StorageImage

  /** The mask of the named limit; no limit is the empty mask. */
  function LimitValue(limits: DeviceLimits, source: LimitSource): Mask
  {
    match source
    case NoLimit => {}
    case FramebufferColor => limits.framebufferColorSampleCounts
    case FramebufferIntegerColor => limits.framebufferIntegerColorSampleCounts
    case FramebufferDepth => limits.framebufferDepthSampleCounts
    case FramebufferStencil => limits.framebufferStencilSampleCounts
    case SampledImageColor => limits.sampledImageColorSampleCounts
    case SampledImageInteger => limits.sampledImageIntegerSampleCounts
    case SampledImageDepth => limits.sampledImageDepthSampleCounts
    case SampledImageStencil => limits.sampledImageStencilSampleCounts
    case StorageImage => limits.storageImageSampleCounts
  }
}
