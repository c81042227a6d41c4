/**
 * What the subtest verdicts promise, stated over every device and every
 * case: how the usage-flags rule reads in each mode and where its two modes
 * disagree, how the single-query checks relate to each other, and when a
 * case is skipped rather than failed.
 */
module SubtestProperties {
  import opened SampleCountFlags
  import opened Formats
  import opened Usage
  import opened ExpectedCounts
  import opened Driver
  import opened Subtests

  /** The usage of `c` holds the usage bit of `cat` and no other of the four. */
  predicate OnlyUsage(c: CaseDef, cat: UsageCategory)
  {
    c.usageFlags * ALL_USAGE == UsageBit(cat)
  }

  /** The query with the case's usage succeeded with mask `m`. */
  predicate ReportsWithUsage(dev: Device, c: CaseDef, m: Mask)
  {
    dev.imageFormatProperties(UsageQuery(c)) == Success(m)
  }

  /** The expected mask of a category for the case's format on the device. */
  function Expected(dev: Device, c: CaseDef, cat: UsageCategory): Mask
  {
    ExpectedSampleCounts(cat, c.format.info, dev.limits)
  }

  /** The four usage bits are read off a usage mask only through ALL_USAGE. */
  lemma BitsOfOnlyUsage(c: CaseDef, cat: UsageCategory)
    requires OnlyUsage(c, cat)
    ensures Bits(c.usageFlags).Contains(cat)
    ensures forall other :: other != cat ==> !Bits(c.usageFlags).Contains(other)
  {
    var u := c.usageFlags;
    assert u * ALL_USAGE == UsageBit(cat);
    assert (4 in u) <==> 4 in UsageBit(cat);
    assert (5 in u) <==> 5 in UsageBit(cat);
    assert (2 in u) <==> 2 in UsageBit(cat);
    assert (3 in u) <==> 3 in UsageBit(cat);
    assert u * USAGE_COLOR_ATTACHMENT != {} <==> 4 in u;
    assert u * USAGE_DEPTH_STENCIL_ATTACHMENT != {} <==> 5 in u;
    assert u * USAGE_SAMPLED != {} <==> 2 in u;
    assert u * USAGE_STORAGE != {} <==> 3 in u;
  }

  /**
   * A single-usage case whose usage is one category's bit passes exactly
   * when the query succeeds and reports a superset of that category's
   * expected mask.
   */
  lemma SingleUsageVerdict(dev: Device, c: CaseDef, cat: UsageCategory)
    requires c.singleUsageFlag && OnlyUsage(c, cat)
    ensures UsageFlagsVerdict(dev, c) <==>
      exists m :: ReportsWithUsage(dev, c, m) && IsSuperset(m, Expected(dev, c, cat))
  {
    BitsOfOnlyUsage(c, cat);
    var first := FirstCategory(Bits(c.usageFlags));
    assert first == Some(cat);
    var res := dev.imageFormatProperties(UsageQuery(c));
    if res.Success? {
      assert ReportsWithUsage(dev, c, res.sampleCounts);
    }
  }

  /** A single-usage case whose usage holds none of the four bits fails. */
  lemma SingleUsageWithoutKnownBitFails(dev: Device, c: CaseDef)
    requires c.singleUsageFlag && c.usageFlags * ALL_USAGE == {}
    ensures !UsageFlagsVerdict(dev, c)
  {
    var u := c.usageFlags;
    assert !(4 in u) && !(5 in u) && !(2 in u) && !(3 in u) by {
      assert forall b :: b in u ==> b !in ALL_USAGE;
    }
    assert u * USAGE_COLOR_ATTACHMENT == {};
    assert u * USAGE_DEPTH_STENCIL_ATTACHMENT == {};
    assert u * USAGE_SAMPLED == {};
    assert u * USAGE_STORAGE == {};
  }

  /**
   * A multi-usage case passes exactly when the query succeeds and its mask
   * shares a bit with the expected mask of some category the usage holds.
   */
  lemma MultiUsageVerdict(dev: Device, c: CaseDef)
    requires !c.singleUsageFlag
    ensures UsageFlagsVerdict(dev, c) <==>
      exists m :: ReportsWithUsage(dev, c, m)
        && exists cat :: Bits(c.usageFlags).Contains(cat) && m * Expected(dev, c, cat) != {}
  {
    var res := dev.imageFormatProperties(UsageQuery(c));
    if res.Success? {
      var m := res.sampleCounts;
      assert ReportsWithUsage(dev, c, m);
      var b := Bits(c.usageFlags);
      var e0 := Include({}, b.color, Expected(dev, c, ColorAttachment));
      var e1 := Include(e0, b.depthStencil, Expected(dev, c, DepthStencilAttachment));
      var e2 := Include(e1, b.sampled, Expected(dev, c, Sampled));
      var e3 := Include(e2, b.storage, Expected(dev, c, Storage));
      assert ExpectedUnion(b, c.format.info, dev.limits) == e3;
      MeetsInclude({}, b.color, Expected(dev, c, ColorAttachment), m);
      MeetsInclude(e0, b.depthStencil, Expected(dev, c, DepthStencilAttachment), m);
      MeetsInclude(e1, b.sampled, Expected(dev, c, Sampled), m);
      MeetsInclude(e2, b.storage, Expected(dev, c, Storage), m);
      if m * e3 != {} {
        if b.color && m * Expected(dev, c, ColorAttachment) != {} {
          assert b.Contains(ColorAttachment);
        } else if b.depthStencil && m * Expected(dev, c, DepthStencilAttachment) != {} {
          assert b.Contains(DepthStencilAttachment);
        } else if b.sampled && m * Expected(dev, c, Sampled) != {} {
          assert b.Contains(Sampled);
        } else {
          assert b.Contains(Storage);
        }
      }
    }
  }

  lemma MeetsInclude(acc: Mask, present: bool, e: Mask, m: Mask)
    ensures m * Include(acc, present, e) != {} <==> m * acc != {} || (present && m * e != {})
  {
    if present {
      MeetsUnion(m, acc, e);
    }
  }

  /**
   * A multi-usage case whose categories all expect nothing fails on every
   * device, whatever the query reports.
   */
  lemma MultiUsageFailsWhenNothingExpected(dev: Device, c: CaseDef)
    requires !c.singleUsageFlag
    requires forall cat :: Bits(c.usageFlags).Contains(cat) ==> Expected(dev, c, cat) == {}
    ensures !UsageFlagsVerdict(dev, c)
  {
    MultiUsageVerdict(dev, c);
  }

  /**
   * A multi-usage case passes whenever the driver reports a superset of
   * the expected mask of one category it holds, if that mask is non-empty.
   */
  lemma MultiUsageAcceptsSupersets(dev: Device, c: CaseDef, m: Mask, cat: UsageCategory)
    requires !c.singleUsageFlag && ReportsWithUsage(dev, c, m)
    requires Bits(c.usageFlags).Contains(cat) && Expected(dev, c, cat) != {}
    requires IsSuperset(m, Expected(dev, c, cat))
    ensures UsageFlagsVerdict(dev, c)
  {
    SupersetOfNonEmptyIntersects(m, Expected(dev, c, cat));
    MultiUsageVerdict(dev, c);
  }

  /**
   * The two modes disagree on compressed formats: with any usage that does
   * not include storage, a multi-usage case fails on every device, while
   * the single-usage case of each of its categories passes whenever the
   * query succeeds (CompressedSingleUsagePasses).
   */
  lemma CompressedMultiUsageFails(dev: Device, c: CaseDef)
    requires c.format.info.isCompressed && !c.singleUsageFlag
    requires c.usageFlags * USAGE_STORAGE == {}
    ensures !UsageFlagsVerdict(dev, c)
  {
    forall cat | Bits(c.usageFlags).Contains(cat)
      ensures Expected(dev, c, cat) == {}
    {
      assert cat != Storage;
      CompressedExpectsOnlyStorage(cat, c.format.info, dev.limits);
    }
    MultiUsageFailsWhenNothingExpected(dev, c);
  }

  /**
   * The single-usage half of the disagreement above: on a compressed
   * format, the single-usage case of any non-storage usage passes whenever
   * the query succeeds.
   */
  lemma CompressedSingleUsagePasses(dev: Device, c: CaseDef, cat: UsageCategory, m: Mask)
    requires c.format.info.isCompressed && c.singleUsageFlag && OnlyUsage(c, cat) && cat != Storage
    requires ReportsWithUsage(dev, c, m)
    ensures UsageFlagsVerdict(dev, c)
  {
    CompressedExpectsOnlyStorage(cat, c.format.info, dev.limits);
    SingleUsageVerdict(dev, c, cat);
  }

  /**
   * The one exactly-1 condition the usage-flags cases do honour: a Y'CbCr
   * format's single-usage sampled case expects no limit, so it passes
   * whenever the query succeeds, the exact 1-sample report included.
   */
  lemma YcbcrSampledUsagePasses(dev: Device, c: CaseDef, m: Mask)
    requires c.format.info.isYCbCr && c.singleUsageFlag && OnlyUsage(c, Sampled)
    requires ReportsWithUsage(dev, c, m)
    ensures Expected(dev, c, Sampled) == {}
    ensures UsageFlagsVerdict(dev, c)
  {
    SingleUsageVerdict(dev, c, Sampled);
  }

  /**
   * The two modes disagree the other way too: a multi-usage case passes
   * with a mask that is not a superset of a held category's expected mask,
   * so the single-usage case of that category would fail on it.
   */
  lemma MultiUsageAcceptsPartialMask()
    ensures exists dev: Device, c: CaseDef, m: Mask ::
      !c.singleUsageFlag && ReportsWithUsage(dev, c, m)
      && Bits(c.usageFlags).Contains(ColorAttachment)
      && !IsSuperset(m, Expected(dev, c, ColorAttachment))
      && UsageFlagsVerdict(dev, c)
  {
    var counts: Mask := {0, 2};
    var limits := DeviceLimits(counts, counts, counts, counts, counts, counts, counts, counts, counts);
    var m: Mask := {0};
    var dev := Device(limits, q => Success(m), (q, h) => OtherError, f => {});
    var info := FormatInfo(false, false, true, false, false, false, false, OtherOrder);
    var c := CaseDef(Format("R8G8B8A8_UNORM", info), Image2D, Optimal,
                     USAGE_COLOR_ATTACHMENT + USAGE_SAMPLED, false);
    assert Bits(c.usageFlags).Contains(ColorAttachment);
    assert Expected(dev, c, ColorAttachment) == counts;
    assert 2 !in m;
    assert m * counts == {0};
    MultiUsageAcceptsSupersetsOrMeets(dev, c, m, ColorAttachment);
    assert !c.singleUsageFlag && ReportsWithUsage(dev, c, m)
      && Bits(c.usageFlags).Contains(ColorAttachment)
      && !IsSuperset(m, Expected(dev, c, ColorAttachment))
      && UsageFlagsVerdict(dev, c);
  }

  lemma MultiUsageAcceptsSupersetsOrMeets(dev: Device, c: CaseDef, m: Mask, cat: UsageCategory)
    requires !c.singleUsageFlag && ReportsWithUsage(dev, c, m)
    requires Bits(c.usageFlags).Contains(cat) && m * Expected(dev, c, cat) != {}
    ensures UsageFlagsVerdict(dev, c)
  {
    MultiUsageVerdict(dev, c);
  }

  /**
   * A driver that meets every requirement the specification rules impose
   * on a single usage passes that usage's single-usage case, unless the
   * case is a colour attachment of a float or fixed-point format without
   * a colour aspect.
   */
  lemma SingleUsagePassesUnderRules(dev: Device, c: CaseDef, cat: UsageCategory, m: Mask)
    requires c.singleUsageFlag && OnlyUsage(c, cat) && ReportsWithUsage(dev, c, m)
    requires forall x :: x in RequiredLimits(cat, c.format.info) ==> IsSuperset(m, LimitValue(dev.limits, x))
    ensures !ColorLimitWithoutColorAspect(cat, c.format.info) ==> UsageFlagsVerdict(dev, c)
  {
    ExpectedIsImpliedByRules(cat, c.format.info, dev.limits, m);
    SingleUsageVerdict(dev, c, cat);
  }

  /**
   * The exception is real: a depth-only unorm format used as a colour
   * attachment can fail its single-usage case on a driver that meets every
   * rule for that usage, because it is held to the framebuffer colour limit.
   */
  lemma SingleColorUsageWithoutColorAspectCanFail()
    ensures exists dev: Device, c: CaseDef, m: Mask ::
      c.singleUsageFlag && OnlyUsage(c, ColorAttachment) && ReportsWithUsage(dev, c, m)
      && (forall x :: x in RequiredLimits(ColorAttachment, c.format.info) ==> IsSuperset(m, LimitValue(dev.limits, x)))
      && !UsageFlagsVerdict(dev, c)
  {
    var counts: Mask := {0, 2};
    var limits := DeviceLimits(counts, counts, counts, counts, counts, counts, counts, counts, counts);
    var m: Mask := {0};
    var dev := Device(limits, q => Success(m), (q, h) => OtherError, f => {});
    var info := FormatInfo(false, false, true, false, false, false, false, D);
    var c := CaseDef(Format("D16_UNORM", info), Image2D, Optimal, USAGE_COLOR_ATTACHMENT, true);
    assert USAGE_COLOR_ATTACHMENT * ALL_USAGE == UsageBit(ColorAttachment);
    assert RequiredLimits(ColorAttachment, info) == {};
    assert Expected(dev, c, ColorAttachment) == counts;
    assert !IsSuperset(m, counts) by { assert 2 in counts && 2 !in m; }
    SingleUsageVerdict(dev, c, ColorAttachment);
    assert ReportsWithUsage(dev, c, m);
    assert c.singleUsageFlag && OnlyUsage(c, ColorAttachment) && ReportsWithUsage(dev, c, m)
      && (forall x :: x in RequiredLimits(ColorAttachment, c.format.info) ==> IsSuperset(m, LimitValue(dev.limits, x)))
      && !UsageFlagsVerdict(dev, c);
  }

  /**
   * The two conditions under which the supported-sample-count rules demand
   * exactly the 1-sample count of a 2D optimally tiled image: a format that
   * needs Y'CbCr conversion, or optimal-tiling features without either
   * attachment feature. The usage-flags cases apply neither, except the
   * first for sampled use (YcbcrSampledUsagePasses).
   */
  predicate SingleSampleDemanded(format: Format, features: Mask)
  {
    format.info.isYCbCr
    || (features * FEATURE_COLOR_ATTACHMENT == {} && features * FEATURE_DEPTH_STENCIL_ATTACHMENT == {})
  }

  /**
   * A driver that reports exactly the 1-sample count for an uncompressed
   * unorm colour format without attachment features, as the rules demand,
   * passes the optimal-tiling-features, Y'CbCr-conversion and
   * one-sample-present cases and still fails the format's sampled
   * single-usage case, which asks for the sampled colour limit.
   */
  lemma NoAttachmentFeatureDriverCanFailSampledCase()
    ensures exists dev: Device, c: CaseDef ::
      && !c.format.info.isCompressed && !c.format.info.isYCbCr
      && c.imageType == Image2D && c.imageTiling == Optimal
      && SingleSampleDemanded(c.format, dev.optimalTilingFeatures(c.format))
      && c.singleUsageFlag && OnlyUsage(c, Sampled) && ReportsWithUsage(dev, c, SAMPLE_COUNT_1)
      && CheckOptimalTilingFeatures(dev, c) && CheckYcbcrConversion(dev, c) && CheckOneSampleCountPresent(dev, c)
      && !UsageFlagsVerdict(dev, c)
  {
    var counts: Mask := {0, 2};
    var limits := DeviceLimits(counts, counts, counts, counts, counts, counts, counts, counts, counts);
    var dev := Device(limits, q => Success(SAMPLE_COUNT_1), (q, h) => OtherError, f => {});
    var info := FormatInfo(false, false, true, false, false, false, false, OtherOrder);
    var c := CaseDef(Format("R8_UNORM", info), Image2D, Optimal, USAGE_SAMPLED, true);
    assert USAGE_SAMPLED * ALL_USAGE == UsageBit(Sampled);
    assert Expected(dev, c, Sampled) == counts;
    assert !IsSuperset(SAMPLE_COUNT_1, counts) by { assert 2 in counts && 2 !in SAMPLE_COUNT_1; }
    SingleUsageVerdict(dev, c, Sampled);
    YcbcrConversionImpliesOthers(dev, c);
    assert ReportsWithUsage(dev, c, SAMPLE_COUNT_1);
  }

  /**
   * Likewise for a Y'CbCr colour format with the colour attachment feature:
   * a driver reporting exactly the 1-sample count passes its
   * Y'CbCr-conversion case and fails its colour-attachment single-usage
   * case, which asks for the framebuffer colour limit.
   */
  lemma YcbcrDriverCanFailColorCase()
    ensures exists dev: Device, c: CaseDef ::
      && c.format.info.isYCbCr && !c.format.info.isCompressed
      && c.imageType == Image2D && c.imageTiling == Optimal
      && SingleSampleDemanded(c.format, dev.optimalTilingFeatures(c.format))
      && dev.optimalTilingFeatures(c.format) * FEATURE_COLOR_ATTACHMENT != {}
      && c.singleUsageFlag && OnlyUsage(c, ColorAttachment) && ReportsWithUsage(dev, c, SAMPLE_COUNT_1)
      && CheckYcbcrConversion(dev, c) && CheckOneSampleCountPresent(dev, c)
      && !UsageFlagsVerdict(dev, c)
  {
    var counts: Mask := {0, 2};
    var limits := DeviceLimits(counts, counts, counts, counts, counts, counts, counts, counts, counts);
    var dev := Device(limits, q => Success(SAMPLE_COUNT_1), (q, h) => OtherError, f => FEATURE_COLOR_ATTACHMENT);
    var info := FormatInfo(false, false, true, false, false, false, true, OtherOrder);
    var c := CaseDef(Format("G8_B8R8_2PLANE_420_UNORM", info), Image2D, Optimal, USAGE_COLOR_ATTACHMENT, true);
    assert USAGE_COLOR_ATTACHMENT * ALL_USAGE == UsageBit(ColorAttachment);
    assert Expected(dev, c, ColorAttachment) == counts;
    assert !IsSuperset(SAMPLE_COUNT_1, counts) by { assert 2 in counts && 2 !in SAMPLE_COUNT_1; }
    SingleUsageVerdict(dev, c, ColorAttachment);
    YcbcrConversionImpliesOthers(dev, c);
    assert 7 in FEATURE_COLOR_ATTACHMENT * FEATURE_COLOR_ATTACHMENT;
    assert ReportsWithUsage(dev, c, SAMPLE_COUNT_1);
  }

  /**
   * The YCbCr-conversion check is the strictest single-query check: when it
   * passes, the one-sample-present and optimal-tiling-features checks pass.
   */
  lemma YcbcrConversionImpliesOthers(dev: Device, c: CaseDef)
    requires CheckYcbcrConversion(dev, c)
    ensures CheckOneSampleCountPresent(dev, c)
    ensures CheckOptimalTilingFeatures(dev, c)
  {
    var res := dev.imageFormatProperties(PlainQuery(c));
    assert res == Success(SAMPLE_COUNT_1);
  }

  /**
   * Outside 2D optimal tiling the linear/not-2D check is the YCbCr check;
   * for 2D optimal tiling it fails on every device.
   */
  lemma LinearCheckByShape(dev: Device, c: CaseDef)
    ensures c.imageTiling == Linear || c.imageType != Image2D ==>
      (CheckLinearTilingAndNot2DImageType(dev, c) <==> CheckYcbcrConversion(dev, c))
    ensures c.imageTiling == Optimal && c.imageType == Image2D ==>
      !CheckLinearTilingAndNot2DImageType(dev, c)
  {
  }

  /**
   * With an attachment feature for optimal tiling, the optimal-tiling-
   * features check only asks that the query succeed.
   */
  lemma AttachmentFeatureRelaxesTilingCheck(dev: Device, c: CaseDef)
    requires dev.optimalTilingFeatures(c.format) * (FEATURE_COLOR_ATTACHMENT + FEATURE_DEPTH_STENCIL_ATTACHMENT) != {}
    ensures CheckOptimalTilingFeatures(dev, c) <==> dev.imageFormatProperties(PlainQuery(c)).Success?
  {
    var features := dev.optimalTilingFeatures(c.format);
    MeetsUnion(features, FEATURE_COLOR_ATTACHMENT, FEATURE_DEPTH_STENCIL_ATTACHMENT);
  }

  /**
   * The cases registered with no usage ask the support question with the
   * same query their check reads: an unsupported format is skipped, and any
   * other error fails every check that reads that query.
   */
  lemma NoUsageCaseSkipsOrFails(dev: Device, c: CaseDef, subtest: Subtest)
    requires c.usageFlags == {}
    requires subtest in {LinearTilingAndNot2DImageType, OptimalTilingFeatures, YcbcrConversion, OneSampleCountPresent}
    ensures dev.imageFormatProperties(PlainQuery(c)) == FormatNotSupported ==> RunCase(dev, c, subtest) == Skip
    ensures dev.imageFormatProperties(PlainQuery(c)) == OtherError ==> RunCase(dev, c, subtest) == Fail
  {
    assert UsageQuery(c) == PlainQuery(c);
  }

  /** Any query error other than an unsupported format fails the usage-flags case. */
  lemma UsageErrorFails(dev: Device, c: CaseDef)
    requires dev.imageFormatProperties(UsageQuery(c)) == OtherError
    ensures RunCase(dev, c, UsageFlags) == Fail
  {
  }
}
