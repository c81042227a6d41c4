/**
 * The "sample_counts" test tree: one group per image type, one group per
 * tiling inside it, and inside that the cases of every format, where a 2D
 * optimally tiled combination gets the full set of subtests and every other
 * combination gets the single linear/not-2D subtest.
 */
module SampleCountsTests {
  import opened SampleCountFlags
  import opened Formats
  import opened Driver
  import opened Subtests
  import opened UsageFlagsSubtests

  datatype TilingGroup = TilingGroup(tiling: ImageTiling, cases: seq<TestCase>)
  datatype ImageTypeGroup = ImageTypeGroup(imageType: ImageType, tilings: seq<TilingGroup>)
  datatype SampleCountsGroup = SampleCountsGroup(name: string, imageTypes: seq<ImageTypeGroup>)

  const IMAGE_TILINGS: seq<ImageTiling> := [Optimal, Linear]
  const IMAGE_TYPES: seq<ImageType> := [Image1D, Image2D, Image3D]

  /** The combinations that get the full set of subtests. */
  predicate FullSet(imageType: ImageType, tiling: ImageTiling)
  {
    imageType == Image2D && tiling == Optimal
  }

  /** The name every case of a format starts with. */
  function SamplesCaseName(format: Format): string
  {
    "imageFormat_" + format.shortName
  }

  /** The case definition every non-usage case of a combination carries. */
  function BaseCaseDef(format: Format, imageType: ImageType, tiling: ImageTiling): CaseDef
  {
    CaseDef(format, imageType, tiling, {}, false)
  }

  /** The cases of a 2D optimally tiled combination before its usage-flags cases. */
  function FixedHead(format: Format, imageType: ImageType, tiling: ImageTiling): seq<TestCase>
  {
    var name := SamplesCaseName(format);
    var caseDef := BaseCaseDef(format, imageType, tiling);
    [TestCase(name + "_CUBE_COMPATIBLE_SUBTEST", caseDef, CubeCompatible),
     TestCase(name + "_OPTIMAL_TILING_FEATURES_SUBTEST", caseDef, OptimalTilingFeatures)]
    + (if format.info.isYCbCr then [TestCase(name + "_EXTERNAL_IIMAGE_TYPE_SUBTEST", caseDef, ExternalImageType)] else [])
    + [TestCase(name + "_YCBCR_CONVERSION_SUBTEST", caseDef, YcbcrConversion)]
  }

  /** The cases one format registers for one image type and tiling, in order. */
  function FormatCases(format: Format, imageType: ImageType, tiling: ImageTiling): seq<TestCase>
  {
    var name := SamplesCaseName(format);
    var caseDef := BaseCaseDef(format, imageType, tiling);
    if FullSet(imageType, tiling) then
      FixedHead(format, imageType, tiling)
      + UsageFlagsCases(name, caseDef)
      + [TestCase(name + "_ONE_SAMPLE_COUNT_PRESENT_SUBTEST", caseDef, OneSampleCountPresent)]
    else
      [TestCase(name + "LINEAR_TILING_AND_NOT_2D_IMAGE_TYPE_SUBTEST", caseDef, LinearTilingAndNot2DImageType)]
  }

  /** The cases of all formats for one image type and tiling, format by format. */
  function TilingCases(formats: seq<Format>, imageType: ImageType, tiling: ImageTiling): seq<TestCase>
  {
    if formats == [] then []
    else TilingCases(formats[..|formats| - 1], imageType, tiling) + FormatCases(formats[|formats| - 1], imageType, tiling)
  }

  function TilingGroupOf(formats: seq<Format>, imageType: ImageType, tiling: ImageTiling): TilingGroup
  {
    TilingGroup(tiling, TilingCases(formats, imageType, tiling))
  }

  function ImageTypeGroupOf(formats: seq<Format>, imageType: ImageType): ImageTypeGroup
  {
    ImageTypeGroup(imageType, seq(|IMAGE_TILINGS|, k requires 0 <= k < |IMAGE_TILINGS| =>
      TilingGroupOf(formats, imageType, IMAGE_TILINGS[k])))
  }

  /** The whole tree for a list of formats. */
  function SampleCountsTree(formats: seq<Format>): SampleCountsGroup
  {
    SampleCountsGroup("sample_counts", seq(|IMAGE_TYPES|, t requires 0 <= t < |IMAGE_TYPES| =>
      ImageTypeGroupOf(formats, IMAGE_TYPES[t])))
  }

  /**
   * createImageSampleCountsTests: for each image type, each tiling and each
   * format, registers the format's cases in the tiling's group.
   */
  method CreateImageSampleCountsTests(formats: seq<Format>) returns (testGroup: SampleCountsGroup)
    ensures testGroup == SampleCountsTree(formats)
  {
    var imageTilings := IMAGE_TILINGS;
    var imageTypes := IMAGE_TYPES;
    var typeGroups: seq<ImageTypeGroup> := [];
    for typeNdx := 0 to |imageTypes|
      invariant typeGroups == SampleCountsTree(formats).imageTypes[..typeNdx]
    {
      var imageType := imageTypes[typeNdx];
      var tilingGroups: seq<TilingGroup> := [];
      for tilingNdx := 0 to |imageTilings|
        invariant tilingGroups == ImageTypeGroupOf(formats, imageType).tilings[..tilingNdx]
      {
        var tiling := imageTilings[tilingNdx];
        var cases: seq<TestCase> := [];
        for formatNdx := 0 to |formats|
          invariant cases == TilingCases(formats[..formatNdx], imageType, tiling)
        {
          cases := RegisterFormatCases(formats[formatNdx], imageType, tiling, cases);
          assert formats[..formatNdx + 1][..formatNdx] == formats[..formatNdx];
        }
        assert formats[..|formats|] == formats;
        tilingGroups := tilingGroups + [TilingGroup(tiling, cases)];
      }
      assert tilingGroups == ImageTypeGroupOf(formats, imageType).tilings;
      typeGroups := typeGroups + [ImageTypeGroup(imageType, tilingGroups)];
    }
    testGroup := SampleCountsGroup("sample_counts", typeGroups);
  }

  /**
   * The body of the format loop: appends the cases of one format to the
   * tiling group, choosing the subtests by image type and tiling.
   */
  method RegisterFormatCases(format: Format, imageType: ImageType, tiling: ImageTiling, group: seq<TestCase>)
    returns (result: seq<TestCase>)
    ensures result == group + FormatCases(format, imageType, tiling)
  {
    var samplesCaseName := "imageFormat_" + format.shortName;
    var caseDef := CaseDef(format, imageType, tiling, {}, false);
    result := group;
    if caseDef.imageType == Image2D && caseDef.imageTiling == Optimal {
      result := result + [TestCase(samplesCaseName + "_CUBE_COMPATIBLE_SUBTEST", caseDef, CubeCompatible)];
      result := result + [TestCase(samplesCaseName + "_OPTIMAL_TILING_FEATURES_SUBTEST", caseDef, OptimalTilingFeatures)];
      if format.info.isYCbCr {
        result := result + [TestCase(samplesCaseName + "_EXTERNAL_IIMAGE_TYPE_SUBTEST", caseDef, ExternalImageType)];
      }
      result := result + [TestCase(samplesCaseName + "_YCBCR_CONVERSION_SUBTEST", caseDef, YcbcrConversion)];
      result := AddUsageFlagsSubtests(samplesCaseName, caseDef, result);
      result := result + [TestCase(samplesCaseName + "_ONE_SAMPLE_COUNT_PRESENT_SUBTEST", caseDef, OneSampleCountPresent)];
    } else {
      result := result + [TestCase(samplesCaseName + "LINEAR_TILING_AND_NOT_2D_IMAGE_TYPE_SUBTEST", caseDef, LinearTilingAndNot2DImageType)];
    }
  }

  /**
   * How many cases a format registers: 19 for a 2D optimally tiled
   * combination (20 for a YCbCr format, which adds the external-image
   * subtest), 1 otherwise.
   */
  lemma FormatCaseCount(format: Format, imageType: ImageType, tiling: ImageTiling)
    ensures |FormatCases(format, imageType, tiling)| ==
      if FullSet(imageType, tiling) then (if format.info.isYCbCr then 20 else 19) else 1
  {
  }

  /** Outside 2D optimal tiling, each tiling group holds one case per format. */
  lemma {:induction false} TilingCaseCount(formats: seq<Format>, imageType: ImageType, tiling: ImageTiling)
    requires !FullSet(imageType, tiling)
    ensures |TilingCases(formats, imageType, tiling)| == |formats|
  {
    if formats != [] {
      TilingCaseCount(formats[..|formats| - 1], imageType, tiling);
      FormatCaseCount(formats[|formats| - 1], imageType, tiling);
    }
  }

  /** Some case a format registers for a combination runs `subtest`. */
  predicate Registers(format: Format, imageType: ImageType, tiling: ImageTiling, subtest: Subtest)
  {
    exists tc :: tc in FormatCases(format, imageType, tiling) && tc.subtest == subtest
  }

  /**
   * The cases of a 2D optimally tiled combination: the fixed cases before
   * the usage-flags cases, those, and the one-sample-present case.
   */
  lemma FullSetLayout(format: Format, imageType: ImageType, tiling: ImageTiling)
    requires FullSet(imageType, tiling)
    ensures var name := SamplesCaseName(format);
      var caseDef := BaseCaseDef(format, imageType, tiling);
      var cases := FormatCases(format, imageType, tiling);
      var head := |cases| - 16;
      && (head == 3 || head == 4)
      && cases[..head] == FixedHead(format, imageType, tiling)
      && cases[head..head + 15] == UsageFlagsCases(name, caseDef)
      && cases[head + 15] == TestCase(name + "_ONE_SAMPLE_COUNT_PRESENT_SUBTEST", caseDef, OneSampleCountPresent)
  {
    var name := SamplesCaseName(format);
    var caseDef := BaseCaseDef(format, imageType, tiling);
    var h := FixedHead(format, imageType, tiling);
    var u := UsageFlagsCases(name, caseDef);
    var last := [TestCase(name + "_ONE_SAMPLE_COUNT_PRESENT_SUBTEST", caseDef, OneSampleCountPresent)];
    var cases := FormatCases(format, imageType, tiling);
    assert cases == h + u + last;
    assert (h + u + last)[..|h|] == h;
    assert (h + u + last)[|h|..|h| + 15] == u;
  }

  /**
   * A 2D optimally tiled combination registers every subtest but the
   * linear/not-2D one, the external-image subtest only for YCbCr formats;
   * every other combination registers the linear/not-2D subtest alone.
   */
  lemma RegisteredSubtestsByCombination(format: Format, imageType: ImageType, tiling: ImageTiling, subtest: Subtest)
    ensures FullSet(imageType, tiling) ==>
      (Registers(format, imageType, tiling, subtest) <==>
        subtest != LinearTilingAndNot2DImageType && (subtest == ExternalImageType ==> format.info.isYCbCr))
    ensures !FullSet(imageType, tiling) ==>
      (Registers(format, imageType, tiling, subtest) <==> subtest == LinearTilingAndNot2DImageType)
  {
    var cases := FormatCases(format, imageType, tiling);
    if FullSet(imageType, tiling) {
      FullSetRegistersOnly(format, imageType, tiling);
      if subtest != LinearTilingAndNot2DImageType && (subtest == ExternalImageType ==> format.info.isYCbCr) {
        FullSetRegisters(format, imageType, tiling, subtest);
      }
    } else {
      assert cases[0] in cases;
      assert forall tc :: tc in cases ==> tc == cases[0];
    }
  }

  /** No case of a 2D optimally tiled combination runs a subtest outside its set. */
  lemma FullSetRegistersOnly(format: Format, imageType: ImageType, tiling: ImageTiling)
    requires FullSet(imageType, tiling)
    ensures var cases := FormatCases(format, imageType, tiling);
      forall k :: 0 <= k < |cases| ==>
        cases[k].subtest != LinearTilingAndNot2DImageType
        && (cases[k].subtest == ExternalImageType ==> format.info.isYCbCr)
  {
    var cases := FormatCases(format, imageType, tiling);
    FullSetLayout(format, imageType, tiling);
    var name := SamplesCaseName(format);
    var caseDef := BaseCaseDef(format, imageType, tiling);
    var u := UsageFlagsCases(name, caseDef);
    var head := |cases| - 16;
    var h := FixedHead(format, imageType, tiling);
    UsageFlagsCasesKeepCombination(name, caseDef);
    forall k | 0 <= k < |cases|
      ensures cases[k].subtest != LinearTilingAndNot2DImageType
      ensures cases[k].subtest == ExternalImageType ==> format.info.isYCbCr
    {
      if k < head {
        assert cases[k] == h[k];
      } else if k < head + 15 {
        assert cases[k] == u[k - head];
      }
    }
  }

  /** Each subtest of the set of a 2D optimally tiled combination has a case. */
  lemma FullSetRegisters(format: Format, imageType: ImageType, tiling: ImageTiling, subtest: Subtest)
    requires FullSet(imageType, tiling)
    requires subtest != LinearTilingAndNot2DImageType && (subtest == ExternalImageType ==> format.info.isYCbCr)
    ensures Registers(format, imageType, tiling, subtest)
  {
    var cases := FormatCases(format, imageType, tiling);
    FullSetLayout(format, imageType, tiling);
    var head := |cases| - 16;
    var h := FixedHead(format, imageType, tiling);
    var k := match subtest
      case CubeCompatible => 0
      case OptimalTilingFeatures => 1
      case ExternalImageType => 2
      case YcbcrConversion => head - 1
      case UsageFlags => head
      case _ => head + 15;
    if k < head {
      assert cases[k] == h[k];
    } else if k == head {
      assert cases[k] == UsageFlagsCases(SamplesCaseName(format), BaseCaseDef(format, imageType, tiling))[0];
    }
    assert cases[k] in cases;
  }

  /**
   * Every case a format registers carries the format, image type and
   * tiling of its combination; every case but the usage-flags ones has no
   * usage and no single-usage flag.
   */
  lemma FormatCasesCarryCombination(format: Format, imageType: ImageType, tiling: ImageTiling)
    ensures var cases := FormatCases(format, imageType, tiling);
      forall k :: 0 <= k < |cases| ==>
        && cases[k].caseDef.format == format
        && cases[k].caseDef.imageType == imageType
        && cases[k].caseDef.imageTiling == tiling
        && (cases[k].subtest != UsageFlags ==> cases[k].caseDef == BaseCaseDef(format, imageType, tiling))
  {
    var cases := FormatCases(format, imageType, tiling);
    if FullSet(imageType, tiling) {
      FullSetLayout(format, imageType, tiling);
      var name := SamplesCaseName(format);
      var caseDef := BaseCaseDef(format, imageType, tiling);
      var u := UsageFlagsCases(name, caseDef);
      var head := |cases| - 16;
      var h := FixedHead(format, imageType, tiling);
      UsageFlagsCasesKeepCombination(name, caseDef);
      forall k | 0 <= k < |cases|
        ensures cases[k].caseDef.format == format
        ensures cases[k].caseDef.imageType == imageType
        ensures cases[k].caseDef.imageTiling == tiling
        ensures cases[k].subtest != UsageFlags ==> cases[k].caseDef == caseDef
      {
        if k < head {
          assert cases[k] == h[k];
        } else if k < head + 15 {
          assert cases[k] == u[k - head];
        }
      }
    }
  }

  /**
   * Where it is registered, the linear/not-2D case is skipped exactly when
   * the format is unsupported and otherwise passes exactly when the driver
   * reports the 1-sample count alone.
   */
  lemma RegisteredLinearCaseVerdict(dev: Device, format: Format, imageType: ImageType, tiling: ImageTiling)
    requires !FullSet(imageType, tiling)
    ensures var tc := FormatCases(format, imageType, tiling)[0];
      var res := dev.imageFormatProperties(ImageFormatQuery(format, imageType, tiling, {}, {}));
      && tc.subtest == LinearTilingAndNot2DImageType
      && (RunCase(dev, tc.caseDef, tc.subtest) == Skip <==> res == FormatNotSupported)
      && (RunCase(dev, tc.caseDef, tc.subtest) == Pass <==> res == Success(SAMPLE_COUNT_1))
  {
  }

  /** A case is in a tiling group exactly when it is one of some listed format's cases. */
  lemma {:induction false} TilingCasesMembership(formats: seq<Format>, imageType: ImageType, tiling: ImageTiling, tc: TestCase)
    ensures tc in TilingCases(formats, imageType, tiling) <==>
      exists n :: 0 <= n < |formats| && tc in FormatCases(formats[n], imageType, tiling)
  {
    if formats != [] {
      var init := formats[..|formats| - 1];
      var last := |formats| - 1;
      TilingCasesMembership(init, imageType, tiling, tc);
      assert TilingCases(formats, imageType, tiling)
          == TilingCases(init, imageType, tiling) + FormatCases(formats[last], imageType, tiling);
      if tc in TilingCases(init, imageType, tiling) {
        var n :| 0 <= n < |init| && tc in FormatCases(init[n], imageType, tiling);
        assert formats[n] == init[n];
      }
      if exists n :: 0 <= n < |formats| && tc in FormatCases(formats[n], imageType, tiling) {
        var n :| 0 <= n < |formats| && tc in FormatCases(formats[n], imageType, tiling);
        if n < last {
          assert init[n] == formats[n];
        }
      }
    }
  }

  /** Every case a format registers names that format. */
  lemma FormatCaseNamesFormat(format: Format, imageType: ImageType, tiling: ImageTiling, tc: TestCase)
    requires tc in FormatCases(format, imageType, tiling)
    ensures tc.caseDef.format == format
    ensures tc.caseDef.imageType == imageType && tc.caseDef.imageTiling == tiling
  {
    var cases := FormatCases(format, imageType, tiling);
    FormatCasesCarryCombination(format, imageType, tiling);
    var k :| 0 <= k < |cases| && cases[k] == tc;
  }

  /**
   * The group of image type t and tiling k in the tree carries that type
   * and tiling, and so does every case in it.
   */
  lemma TreeGroupCarriesCombination(formats: seq<Format>, t: nat, k: nat)
    requires t < |IMAGE_TYPES| && k < |IMAGE_TILINGS|
    ensures var typeGroup := SampleCountsTree(formats).imageTypes[t];
      var group := typeGroup.tilings[k];
      && typeGroup.imageType == IMAGE_TYPES[t]
      && group.tiling == IMAGE_TILINGS[k]
      && forall tc :: tc in group.cases ==>
           tc.caseDef.imageType == IMAGE_TYPES[t] && tc.caseDef.imageTiling == IMAGE_TILINGS[k]
  {
    var imageType := IMAGE_TYPES[t];
    var tiling := IMAGE_TILINGS[k];
    var group := SampleCountsTree(formats).imageTypes[t].tilings[k];
    assert group == TilingGroupOf(formats, imageType, tiling);
    forall tc | tc in group.cases
      ensures tc.caseDef.imageType == imageType && tc.caseDef.imageTiling == tiling
    {
      TilingCasesMembership(formats, imageType, tiling, tc);
      var n :| 0 <= n < |formats| && tc in FormatCases(formats[n], imageType, tiling);
      FormatCaseNamesFormat(formats[n], imageType, tiling, tc);
    }
  }

  /**
   * The registration rule, read off the whole tree: the group of image
   * type t and tiling k holds a case of format `format` running `subtest`
   * exactly when the format is listed and the subtest belongs to the
   * combination (the full set for 2D optimal tiling, external-image only
   * for Y'CbCr formats; linear/not-2D alone otherwise).
   */
  lemma TreeRegistrationRule(formats: seq<Format>, t: nat, k: nat, format: Format, subtest: Subtest)
    requires t < |IMAGE_TYPES| && k < |IMAGE_TILINGS|
    ensures var imageType := IMAGE_TYPES[t];
      var tiling := IMAGE_TILINGS[k];
      var group := SampleCountsTree(formats).imageTypes[t].tilings[k];
      (exists tc :: tc in group.cases && tc.caseDef.format == format && tc.subtest == subtest) <==>
        format in formats
        && if FullSet(imageType, tiling) then
             subtest != LinearTilingAndNot2DImageType && (subtest == ExternalImageType ==> format.info.isYCbCr)
           else subtest == LinearTilingAndNot2DImageType
  {
    var imageType := IMAGE_TYPES[t];
    var tiling := IMAGE_TILINGS[k];
    var group := SampleCountsTree(formats).imageTypes[t].tilings[k];
    assert group == TilingGroupOf(formats, imageType, tiling);
    RegisteredSubtestsByCombination(format, imageType, tiling, subtest);
    if tc :| tc in group.cases && tc.caseDef.format == format && tc.subtest == subtest {
      TilingCasesMembership(formats, imageType, tiling, tc);
      var n :| 0 <= n < |formats| && tc in FormatCases(formats[n], imageType, tiling);
      FormatCaseNamesFormat(formats[n], imageType, tiling, tc);
      assert format == formats[n];
      assert Registers(format, imageType, tiling, subtest);
    }
    if format in formats && Registers(format, imageType, tiling, subtest) {
      var n :| 0 <= n < |formats| && formats[n] == format;
      var tc :| tc in FormatCases(format, imageType, tiling) && tc.subtest == subtest;
      FormatCaseNamesFormat(format, imageType, tiling, tc);
      TilingCasesMembership(formats, imageType, tiling, tc);
      assert tc in group.cases;
    }
  }

  /**
   * The Y'CbCr-conversion case is registered for every format of a 2D
   * optimally tiled combination, Y'CbCr or not, and it demands exactly the
   * 1-sample count: a plain query reporting the 1-sample count together
   * with others fails that case, while the one-sample-present case of the
   * same combination, which asks only that the 1-sample count be there,
   * passes.
   */
  lemma YcbcrConversionCaseOnEveryFormat(dev: Device, format: Format, m: Mask)
    requires dev.imageFormatProperties(ImageFormatQuery(format, Image2D, Optimal, {}, {})) == Success(m)
    requires 0 in m && m != SAMPLE_COUNT_1
    ensures Registers(format, Image2D, Optimal, YcbcrConversion)
    ensures Registers(format, Image2D, Optimal, OneSampleCountPresent)
    ensures var c := BaseCaseDef(format, Image2D, Optimal);
      RunCase(dev, c, YcbcrConversion) == Fail && RunCase(dev, c, OneSampleCountPresent) == Pass
  {
    FullSetRegisters(format, Image2D, Optimal, YcbcrConversion);
    FullSetRegisters(format, Image2D, Optimal, OneSampleCountPresent);
    var c := BaseCaseDef(format, Image2D, Optimal);
    assert UsageQuery(c) == PlainQuery(c);
    assert !CheckYcbcrConversion(dev, c);
    assert CheckOneSampleCountPresent(dev, c) by { assert IsSuperset(m, SAMPLE_COUNT_1); }
  }
}
