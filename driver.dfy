/**
 * The driver as the test sees it: the device limits and three queries,
 * each a pure function of its arguments (asking twice with the same
 * arguments gives the same answer during a test run).
 */
module Driver {
  import opened SampleCountFlags
  import opened Formats

  datatype ImageType = Image1D | Image2D | Image3D

  datatype ImageTiling = Optimal | Linear

  /**
   * The VkResult of an image-format query: VK_SUCCESS with the reported
   * sampleCounts, VK_ERROR_FORMAT_NOT_SUPPORTED, or any other error.
   */
  datatype QueryResult = Success(sampleCounts: Mask) | FormatNotSupported | OtherError

  /** The arguments of vkGetPhysicalDeviceImageFormatProperties. */
  datatype ImageFormatQuery = ImageFormatQuery(
    format: Format,
    imageType: ImageType,
    tiling: ImageTiling,
    usage: Mask,
    flags: Mask)

  datatype Device = Device(
    /** vkGetPhysicalDeviceProperties2 with VkPhysicalDeviceVulkan12Properties chained */
    limits: DeviceLimits,
    /** vkGetPhysicalDeviceImageFormatProperties */
    imageFormatProperties: ImageFormatQuery -> QueryResult,
    /**
     * vkGetPhysicalDeviceImageFormatProperties2 with a
     * VkPhysicalDeviceExternalImageFormatInfo naming one handle type
     */
    externalImageFormatProperties: (ImageFormatQuery, Mask) -> QueryResult,
    /** VkFormatProperties::optimalTilingFeatures from vkGetPhysicalDeviceFormatProperties */
    optimalTilingFeatures: Format -> Mask)
}
