/**
 * One test case of the sample-count tests: its definition, the seven
 * subtest verdicts, the dispatch that maps a verdict to pass or fail, and
 * the support check that turns an unsupported format into a skip.
 */
module Subtests {
  import opened SampleCountFlags
  import opened Formats
  import opened Usage
  import opened ExpectedCounts
  import opened Driver

  datatype CaseDef = CaseDef(
    format: Format,
    imageType: ImageType,
    imageTiling: ImageTiling,
    usageFlags: Mask,
    singleUsageFlag: bool)

  datatype Subtest =
    | LinearTilingAndNot2DImageType
    | CubeCompatible
    | OptimalTilingFeatures
    | ExternalImageType
    | YcbcrConversion
    | UsageFlags
    | OneSampleCountPresent

  datatype Outcome = Skip | Pass | Fail

  /** The image-format query with the case's usage and no create flags. */
  function UsageQuery(c: CaseDef): ImageFormatQuery
  {
    ImageFormatQuery(c.format, c.imageType, c.imageTiling, c.usageFlags, {})
  }

  /** The image-format query with no usage and no create flags. */
  function PlainQuery(c: CaseDef): ImageFormatQuery
  {
    ImageFormatQuery(c.format, c.imageType, c.imageTiling, {}, {})
  }

  /** The image-format query with no usage and the cube-compatible flag. */
  function CubeQuery(c: CaseDef): ImageFormatQuery
  {
    ImageFormatQuery(c.format, c.imageType, c.imageTiling, {}, CREATE_CUBE_COMPATIBLE)
  }

  /** The query succeeded and reported the 1-sample count and nothing else. */
  predicate OnlySingleSample(res: QueryResult)
  {
    res.Success? && res.sampleCounts == SAMPLE_COUNT_1
  }

  /**
   * checkLinearTilingAndNot2DImageType: passes only when the plain query
   * reports exactly the 1-sample count and the case is linear or not 2D.
   */
  function CheckLinearTilingAndNot2DImageType(dev: Device, c: CaseDef): (ok: bool)
    ensures ok <==> OnlySingleSample(dev.imageFormatProperties(PlainQuery(c)))
                    && (c.imageTiling == Linear || c.imageType != Image2D)
  {
    var res := dev.imageFormatProperties(PlainQuery(c));
    if !res.Success? then false
    else if res.sampleCounts == SAMPLE_COUNT_1 && (c.imageTiling == Linear || c.imageType != Image2D) then true
    else false
  }

  /**
   * checkCubeCompatible: a cube-compatible image supports exactly the
   * 1-sample count; a failing query fails the case.
   */
  function CheckCubeCompatible(dev: Device, c: CaseDef): (ok: bool)
    ensures ok <==> OnlySingleSample(dev.imageFormatProperties(CubeQuery(c)))
  {
    var res := dev.imageFormatProperties(CubeQuery(c));
    if !res.Success? then false
    else if res.sampleCounts != SAMPLE_COUNT_1 then false
    else true
  }

  /**
   * checkOptimalTilingFeatures: fails when the plain query fails, or when
   * the format has neither attachment feature for optimal tiling yet
   * reports anything but exactly the 1-sample count.
   */
  function CheckOptimalTilingFeatures(dev: Device, c: CaseDef): (ok: bool)
    ensures !ok <==>
      var res := dev.imageFormatProperties(PlainQuery(c));
      var features := dev.optimalTilingFeatures(c.format);
      !res.Success?
      || (features * FEATURE_COLOR_ATTACHMENT == {}
          && features * FEATURE_DEPTH_STENCIL_ATTACHMENT == {}
          && !OnlySingleSample(res))
  {
    var features := dev.optimalTilingFeatures(c.format);
    var res := dev.imageFormatProperties(PlainQuery(c));
    if !res.Success? then false
    else if features * FEATURE_COLOR_ATTACHMENT == {}
         && features * FEATURE_DEPTH_STENCIL_ATTACHMENT == {}
         && res.sampleCounts != SAMPLE_COUNT_1 then false
    else true
  }

  /**
   * check_YCBCR_Conversion: passes only when the plain query reports
   * exactly the 1-sample count.
   */
  function CheckYcbcrConversion(dev: Device, c: CaseDef): (ok: bool)
    ensures ok <==> OnlySingleSample(dev.imageFormatProperties(PlainQuery(c)))
  {
    var res := dev.imageFormatProperties(PlainQuery(c));
    if !res.Success? || res.sampleCounts != SAMPLE_COUNT_1 then false
    else true
  }

  /**
   * checkOneSampleCountPresent: the plain query succeeds and its mask
   * contains the 1-sample count (it may contain more).
   */
  function CheckOneSampleCountPresent(dev: Device, c: CaseDef): (ok: bool)
    ensures ok <==> exists m :: dev.imageFormatProperties(PlainQuery(c)) == Success(m)
                               && IsSuperset(m, SAMPLE_COUNT_1)
  {
    var res := dev.imageFormatProperties(PlainQuery(c));
    if !res.Success? then false
    else if res.sampleCounts * SAMPLE_COUNT_1 == {} then false
    else true
  }

  /** A handle-type answer that fails the external-image subtest. */
  predicate Offending(res: QueryResult)
  {
    res.Success? && res.sampleCounts != SAMPLE_COUNT_1
  }

  /** The external-image query for one handle type: no usage, no create flags. */
  function ExternalQuery(dev: Device, c: CaseDef, handleType: Mask): QueryResult
  {
    dev.externalImageFormatProperties(PlainQuery(c), handleType)
  }

  /**
   * The external-image rule: no handle type is both supported and reports
   * anything but exactly the 1-sample count; handle types whose query
   * fails are ignored.
   */
  predicate ExternalImageTypeOk(dev: Device, c: CaseDef)
  {
    forall i :: 0 <= i < |HANDLE_TYPES| ==> !Offending(ExternalQuery(dev, c, HANDLE_TYPES[i]))
  }

  /**
   * checkExternalImageType: asks about each handle type in turn and returns
   * false at the first offending one.
   */
  method CheckExternalImageType(dev: Device, c: CaseDef) returns (ok: bool)
    ensures ok <==> ExternalImageTypeOk(dev, c)
    ensures !ok <==> exists i :: 0 <= i < |HANDLE_TYPES| && Offending(ExternalQuery(dev, c, HANDLE_TYPES[i]))
  {
    var i := 0;
    while i < |HANDLE_TYPES|
      invariant 0 <= i <= |HANDLE_TYPES|
      invariant forall k :: 0 <= k < i ==> !Offending(ExternalQuery(dev, c, HANDLE_TYPES[k]))
    {
      var res := dev.externalImageFormatProperties(PlainQuery(c), HANDLE_TYPES[i]);
      if res.Success? && res.sampleCounts != SAMPLE_COUNT_1 {
        return false;
      }
      i := i + 1;
    }
    return true;
  }

  /**
   * The union of the expected masks of the categories `bits` contains.
   */
  function ExpectedUnion(bits: UsageBits, f: FormatInfo, limits: DeviceLimits): Mask
  {
    var acc0 := Include({}, bits.color, ExpectedSampleCounts(ColorAttachment, f, limits));
    var acc1 := Include(acc0, bits.depthStencil, ExpectedSampleCounts(DepthStencilAttachment, f, limits));
    var acc2 := Include(acc1, bits.sampled, ExpectedSampleCounts(Sampled, f, limits));
    Include(acc2, bits.storage, ExpectedSampleCounts(Storage, f, limits))
  }

  /** One `|=` step of the accumulation, taken only when `present` holds. */
  function Include(acc: Mask, present: bool, m: Mask): Mask
  {
    if present then acc + m else acc
  }

  /**
   * The usage-flags rule. A failing query fails. A single-usage case must
   * report a superset of the expected mask of the first category its usage
   * contains (colour attachment, depth-stencil attachment, sampled,
   * storage), and fails when it contains none. A multi-usage case only
   * needs to share one bit with the union of its categories' expected masks.
   */
  function UsageFlagsVerdict(dev: Device, c: CaseDef): bool
  {
    match dev.imageFormatProperties(UsageQuery(c))
    case Success(reported) =>
      var bits := Bits(c.usageFlags);
      if c.singleUsageFlag then
        match FirstCategory(bits)
        case Some(first) => IsSuperset(reported, ExpectedSampleCounts(first, c.format.info, dev.limits))
        case None => false
      else
        reported * ExpectedUnion(bits, c.format.info, dev.limits) != {}
    case _ => false
  }

  /**
   * checkUsageFlags: the same query as the support check, then the
   * single-usage test in category order, or the union accumulated with |=.
   */
  method CheckUsageFlags(dev: Device, c: CaseDef) returns (ok: bool)
    ensures ok == UsageFlagsVerdict(dev, c)
  {
    var limits := dev.limits;
    var info := c.format.info;
    var res := dev.imageFormatProperties(UsageQuery(c));
    if !res.Success? {
      return false;
    }
    var reported := res.sampleCounts;
    if c.singleUsageFlag {
      if c.usageFlags * USAGE_COLOR_ATTACHMENT != {} {
        return IsSuperset(reported, LimitValue(limits, ColorLimit(info)));
      }
      if c.usageFlags * USAGE_DEPTH_STENCIL_ATTACHMENT != {} {
        return IsSuperset(reported, LimitValue(limits, DepthStencilLimit(info)));
      }
      if c.usageFlags * USAGE_SAMPLED != {} {
        return IsSuperset(reported, LimitValue(limits, SampledLimit(info)));
      }
      if c.usageFlags * USAGE_STORAGE != {} {
        return IsSuperset(reported, LimitValue(limits, StorageLimit(info)));
      }
    } else {
      var sampleCountFlags: Mask := {};
      if c.usageFlags * USAGE_COLOR_ATTACHMENT != {} {
        sampleCountFlags := sampleCountFlags + LimitValue(limits, ColorLimit(info));
      }
      if c.usageFlags * USAGE_DEPTH_STENCIL_ATTACHMENT != {} {
        sampleCountFlags := sampleCountFlags + LimitValue(limits, DepthStencilLimit(info));
      }
      if c.usageFlags * USAGE_SAMPLED != {} {
        sampleCountFlags := sampleCountFlags + LimitValue(limits, SampledLimit(info));
      }
      if c.usageFlags * USAGE_STORAGE != {} {
        sampleCountFlags := sampleCountFlags + LimitValue(limits, StorageLimit(info));
      }
      return reported * sampleCountFlags != {};
    }
    return false;
  }

  /** Whether the subtest's check holds; `iterate` maps this to pass or fail. */
  function SubtestHolds(dev: Device, c: CaseDef, subtest: Subtest): bool
  {
    match subtest
    case LinearTilingAndNot2DImageType => CheckLinearTilingAndNot2DImageType(dev, c)
    case CubeCompatible => CheckCubeCompatible(dev, c)
    case OptimalTilingFeatures => CheckOptimalTilingFeatures(dev, c)
    case ExternalImageType => ExternalImageTypeOk(dev, c)
    case YcbcrConversion => CheckYcbcrConversion(dev, c)
    case UsageFlags => UsageFlagsVerdict(dev, c)
    case OneSampleCountPresent => CheckOneSampleCountPresent(dev, c)
  }

  /** iterate: pass when the subtest's check holds, fail otherwise; never skip. */
  function Iterate(dev: Device, c: CaseDef, subtest: Subtest): (r: Outcome)
    ensures r != Skip
    ensures r == Pass <==> SubtestHolds(dev, c, subtest)
  {
    if SubtestHolds(dev, c, subtest) then Pass else Fail
  }

  /**
   * checkSupport followed by iterate: the case is skipped exactly when the
   * query with its usage reports the format as not supported; any other
   * error goes on to the subtest.
   */
  function RunCase(dev: Device, c: CaseDef, subtest: Subtest): (r: Outcome)
    ensures r == Skip <==> dev.imageFormatProperties(UsageQuery(c)) == FormatNotSupported
    ensures r != Skip ==> r == Iterate(dev, c, subtest)
  {
    if dev.imageFormatProperties(UsageQuery(c)) == FormatNotSupported then Skip
    else Iterate(dev, c, subtest)
  }
}
