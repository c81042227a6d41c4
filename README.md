# Image sample-count conformance test, modelled in Dafny

This project models the verdict logic of the Vulkan CTS test group
`dEQP-VK.image.sample_counts` (`vktImageSampleCountsTests.cpp`). That group
checks the `sampleCounts` a driver reports for image formats against the
rules of section 34.1.1 ("Supported Sample Counts") of the Vulkan 1.2
specification.

The model has two parts.

- **What each test case decides.** There are seven subtests. Each one asks
  the driver about an image (format, image type, tiling, usage, create
  flags) and compares the reported sample-count mask with 1 or with a mask
  derived from the device limits. `checkSupport` turns an unsupported
  format into a skip. `iterate` turns every other outcome into pass or
  fail.
- **Which test cases exist.** For every image type, tiling and format,
  `createImageSampleCountsTests` registers a fixed set of cases.
  `addUsageFlagsSubtests` registers one usage-flags case for each
  non-empty subset of the four usages (colour attachment, depth-stencil
  attachment, sampled, storage).

The driver is a `Device` value. It holds the device limits and three query
functions, so asking twice with the same arguments gives the same answer.
Formats are opaque values that carry their classification (float, snorm,
unorm, int, uint, compressed, Y'CbCr, channel order).

Flag words (`VkSampleCountFlags`, `VkImageUsageFlags`, `VkFormatFeatureFlags`,
`VkImageCreateFlags`, handle types) are modelled as the set of their
bit positions:
- `a & b` becomes `a * b`;
- `a | b` becomes `a + b`;
- a zero word becomes `{}`.

`SampleCountFlags.Word` gives the numeric value, and
`SampleCountFlags.ConstantWords` ties each constant to its hexadecimal value.

Modules, in dependency order:
- `SampleCountFlags`: flag words and `isSuperset`.
- `Formats`: format classification and device limits.
- `Usage`: the four usages and how a usage mask is read.
- `ExpectedCounts`: the `get*SampleCounts` derivations, compared with the
  section's per-usage limit list.
- `Driver`: the device oracle.
- `Subtests`: the seven checks, `iterate` and `checkSupport`.
- `SubtestProperties`: what the checks promise across all devices.
- `UsageFlagsSubtests`: the `addUsageFlagsSubtests` enumeration and naming.
- `SampleCountsTests`: the `createImageSampleCountsTests` tree.

The code differs from a plain reading of the section's rules in seven
places. The model keeps the code's behaviour in each, and each difference is
a lemma. `ExpectedCounts.RequiredLimits` states the section's per-usage
limit list: for each usage, the device limits an image of a given format
must support. The list keeps the test's two exemptions:
- block-compressed formats are held to no limit for any usage but storage;
- Y'CbCr formats are held to none for sampled use.

It leaves out the section's other conditions under which exactly the
1-sample count is demanded instead:
- Y'CbCr formats, for the colour-attachment, depth-stencil and storage
  usages;
- formats without either attachment feature;
- linear tiling, non-2D images and cube-compatible images.

The seven differences are:
- `getColorSampleCounts` never asks whether the format has a colour
  aspect. An uncompressed float, snorm or unorm format with a depth or
  stencil order is therefore held to `framebufferColorSampleCounts` in its
  colour-attachment case, which the rules impose only on colour formats.
- `getDepthStencilSampleCounts` tests the channel order for exactly D or
  exactly S. A combined depth-stencil format therefore expects nothing,
  although it has both a depth and a stencil aspect.
- `getSampledSampleCounts` returns a single limit; it never ORs limits
  together. An integer colour format is held to the colour limit only. The
  integer limit is reached only by a stencil-only integer format.
- No derivation ever selects `sampledImageStencilSampleCounts`, which the
  rules impose on sampled images of formats with a stencil aspect.
- A multi-usage case passes when the reported mask shares one bit with
  the union of its usages' expected masks. A single-usage case needs a
  superset. The pair `SubtestProperties.CompressedMultiUsageFails` and
  `SubtestProperties.CompressedSingleUsagePasses` shows the two modes
  disagreeing on compressed formats, and
  `SubtestProperties.MultiUsageAcceptsPartialMask` shows a multi-usage pass
  that the single-usage rule would reject.
- The usage-flags cases ignore two exactly-1 conditions. The section
  demands exactly the 1-sample count for a Y'CbCr format and for a format
  whose optimal-tiling features have neither attachment bit. The usage cases
  honour the Y'CbCr condition only for sampled use, where they expect no
  limit (`SubtestProperties.YcbcrSampledUsagePasses`). For a Y'CbCr format
  used as a colour attachment, depth-stencil attachment or storage image,
  and for a format without attachment features under any usage, they still
  ask for the listed limits. `SubtestProperties.NoAttachmentFeatureDriverCanFailSampledCase`
  and `SubtestProperties.YcbcrDriverCanFailColorCase` each show a driver
  that reports exactly 1, as demanded. It passes the single-query checks
  and still fails a usage case.
- The Y'CbCr-conversion case is registered for every 2D optimally tiled
  format, not only Y'CbCr ones, and it demands exactly the 1-sample count.
  For a 2D optimally tiled format without an exactly-1 condition, the
  section asks only that the 1-sample count be included, which is what the
  one-sample-present case checks. `SampleCountsTests.YcbcrConversionCaseOnEveryFormat`
  shows a report of 1 and 2 samples failing the first case while the second
  passes.

Two case names are kept exactly as the code spells them:
- `_EXTERNAL_IIMAGE_TYPE_SUBTEST`, with a doubled I;
- `LINEAR_TILING_AND_NOT_2D_IMAGE_TYPE_SUBTEST`, appended to the format
  prefix with no `_` in between.

## Model

All source paths are under `external/vulkancts/modules/vulkan/image/`.

| member | source | states |
|---|---|---|
| SampleCountFlags.ConstantWords | external/vulkancts/modules/vulkan/image/vktImageSampleCountsTests.cpp:69-78 | The bit constants used by the test have their Vulkan values (1-sample 0x1, usages 0x4/0x8/0x10/0x20, features 0x80/0x200, cube-compatible 0x10), and the seven external handle types are 0x1 through 0x40 in order |
| SampleCountFlags.IsSuperset | external/vulkancts/modules/vulkan/image/vktImageSampleCountsTests.cpp:136-139 | `(a & b) == b` holds exactly when every bit of b is a bit of a |
| SampleCountFlags.SupersetOfEmptyAndSelf | external/vulkancts/modules/vulkan/image/vktImageSampleCountsTests.cpp:136-139 | Every mask is a superset of 0 and of itself |
| SampleCountFlags.SupersetOfUnion | external/vulkancts/modules/vulkan/image/vktImageSampleCountsTests.cpp:136-139 | A mask is a superset of b \| c exactly when it is a superset of both b and c |
| SampleCountFlags.SupersetOfNonEmptyIntersects | external/vulkancts/modules/vulkan/image/vktImageSampleCountsTests.cpp:136-139 | A superset of a non-zero mask has a non-zero AND with it |
| SampleCountFlags.MeetsUnion | external/vulkancts/modules/vulkan/image/vktImageSampleCountsTests.cpp:294-316 | `a & (b \| c)` is non-zero exactly when `a & b` or `a & c` is |
| ExpectedCounts.ColorLimit | external/vulkancts/modules/vulkan/image/vktImageSampleCountsTests.cpp:141-162 | Colour-attachment limit: framebufferColorSampleCounts exactly for uncompressed float/snorm/unorm formats; framebufferIntegerColorSampleCounts exactly for uncompressed int/uint formats that are not float/fixed; nothing exactly for compressed formats or formats of neither kind |
| ExpectedCounts.DepthStencilLimit | external/vulkancts/modules/vulkan/image/vktImageSampleCountsTests.cpp:164-185 | Depth-stencil limit: framebufferDepthSampleCounts exactly for uncompressed order D; framebufferStencilSampleCounts exactly for uncompressed order S; nothing exactly for compressed formats, order DS and colour orders |
| ExpectedCounts.SampledLimit | external/vulkancts/modules/vulkan/image/vktImageSampleCountsTests.cpp:187-218 | Sampled limit for uncompressed, non-Y'CbCr formats: the colour limit exactly for colour orders (integer ones included); the depth limit exactly for D and DS; the integer limit exactly for a stencil-only int/uint format. Nothing exactly for compressed, Y'CbCr, or non-integer stencil-only formats |
| ExpectedCounts.SelectionAgreesWithRules | external/vulkancts/modules/vulkan/image/vktImageSampleCountsTests.cpp:141-224 | Outside the colour-aspect gap, a limit the derivations select is one the per-usage limit list imposes for that usage and format; outside that gap, where the limit list imposes exactly one limit other than the sampled stencil limit, that one is selected |
| ExpectedCounts.ColorLimitWithoutColorAspectIsExtra | external/vulkancts/modules/vulkan/image/vktImageSampleCountsTests.cpp:141-162 | For an uncompressed float/snorm/unorm format with a depth or stencil order, the colour-attachment derivation selects framebufferColorSampleCounts, which the limit list does not impose |
| ExpectedCounts.SampledStencilNeverChecked | external/vulkancts/modules/vulkan/image/vktImageSampleCountsTests.cpp:187-218 | No derivation selects the sampled stencil limit, though the limit list imposes it on every uncompressed, non-Y'CbCr sampled format with a stencil aspect |
| ExpectedCounts.NoSelectionExactlyWhenNothingRequired | external/vulkancts/modules/vulkan/image/vktImageSampleCountsTests.cpp:141-218 | The derivations select nothing exactly when the limit list imposes nothing but possibly the sampled stencil limit, or for an uncompressed DS format used as a depth-stencil attachment (where the limit list imposes two), and never in the colour-aspect gap, where the colour limit is selected |
| ExpectedCounts.SampledIntegerColorChecksColorOnly | external/vulkancts/modules/vulkan/image/vktImageSampleCountsTests.cpp:187-218 | For an uncompressed integer colour format used as a sampled image, the limit list imposes both the colour and the integer limit, but only the colour limit is selected |
| ExpectedCounts.ExpectedIsImpliedByRules | external/vulkancts/modules/vulkan/image/vktImageSampleCountsTests.cpp:141-224 | Outside the colour-aspect gap, a mask that is a superset of every limit the limit list imposes for a usage is a superset of the expected mask for that usage |
| ExpectedCounts.CompressedExpectsOnlyStorage | external/vulkancts/modules/vulkan/image/vktImageSampleCountsTests.cpp:141-218 | For a compressed format, the colour, depth-stencil and sampled expected masks are 0 |
| Usage.BitsContains | external/vulkancts/modules/vulkan/image/vktImageSampleCountsTests.cpp:269-314 | A usage is read as present exactly when `usageFlags & <its bit>` is non-zero |
| Usage.FirstCategory | external/vulkancts/modules/vulkan/image/vktImageSampleCountsTests.cpp:269-290 | The single-usage branch picks the present usage of least rank in the order colour, depth-stencil, sampled, storage; it picks none exactly when no usage is present |
| Subtests.CheckLinearTilingAndNot2DImageType | external/vulkancts/modules/vulkan/image/vktImageSampleCountsTests.cpp:337-359 | Passes exactly when the no-usage query succeeds with mask exactly 1 and the tiling is linear or the type is not 2D |
| Subtests.CheckCubeCompatible | external/vulkancts/modules/vulkan/image/vktImageSampleCountsTests.cpp:361-380 | Passes exactly when the cube-compatible query succeeds with mask exactly 1 |
| Subtests.CheckOptimalTilingFeatures | external/vulkancts/modules/vulkan/image/vktImageSampleCountsTests.cpp:382-408 | Fails exactly when the query fails, or when the optimal tiling features have neither attachment bit and the mask is not exactly 1 |
| Subtests.CheckYcbcrConversion | external/vulkancts/modules/vulkan/image/vktImageSampleCountsTests.cpp:322-335 | Passes exactly when the no-usage query succeeds with mask exactly 1 |
| Subtests.CheckOneSampleCountPresent | external/vulkancts/modules/vulkan/image/vktImageSampleCountsTests.cpp:410-430 | Passes exactly when the no-usage query succeeds with a mask that has the 1-sample bit |
| Subtests.CheckExternalImageType | external/vulkancts/modules/vulkan/image/vktImageSampleCountsTests.cpp:67-133 | Returns true exactly when none of the seven handle types both succeeds and reports a mask other than exactly 1; failing queries are ignored; false exactly when some handle type is offending |
| Subtests.CheckUsageFlags | external/vulkancts/modules/vulkan/image/vktImageSampleCountsTests.cpp:247-320 | The `\|=` accumulation and the ordered single-usage ifs compute the usage-flags rule: a failed query fails; a single-usage case checks a superset of its first usage's expected mask; a multi-usage case checks a non-zero AND with the union |
| Subtests.Iterate | external/vulkancts/modules/vulkan/image/vktImageSampleCountsTests.cpp:432-476 | Never skips; passes exactly when the dispatched subtest's check holds |
| Subtests.RunCase | external/vulkancts/modules/vulkan/image/vktImageSampleCountsTests.cpp:226-237 | Skips exactly when the query with the case's usage reports VK_ERROR_FORMAT_NOT_SUPPORTED; otherwise it is the iterate outcome, so any other error goes on to the check |
| SubtestProperties.BitsOfOnlyUsage | external/vulkancts/modules/vulkan/image/vktImageSampleCountsTests.cpp:269-290 | A usage mask whose only one of the four bits is a usage's bit is read as holding that usage and no other |
| SubtestProperties.SingleUsageVerdict | external/vulkancts/modules/vulkan/image/vktImageSampleCountsTests.cpp:264-290 | A single-usage case with one usage passes exactly when the query succeeds with a superset of that usage's expected mask |
| SubtestProperties.SingleUsageWithoutKnownBitFails | external/vulkancts/modules/vulkan/image/vktImageSampleCountsTests.cpp:269-319 | A single-usage case with none of the four bits fails, whatever the driver reports |
| SubtestProperties.MultiUsageVerdict | external/vulkancts/modules/vulkan/image/vktImageSampleCountsTests.cpp:291-317 | A multi-usage case passes exactly when the query succeeds and its mask meets the expected mask of some usage the case holds |
| SubtestProperties.MeetsInclude | external/vulkancts/modules/vulkan/image/vktImageSampleCountsTests.cpp:294-314 | One conditional `\|=` step: the AND with the new accumulator is non-zero exactly when it was before, or when the step was taken and the AND with the added mask is non-zero |
| SubtestProperties.MultiUsageFailsWhenNothingExpected | external/vulkancts/modules/vulkan/image/vktImageSampleCountsTests.cpp:291-317 | A multi-usage case whose usages all expect 0 fails on every device |
| SubtestProperties.MultiUsageAcceptsSupersets | external/vulkancts/modules/vulkan/image/vktImageSampleCountsTests.cpp:291-317 | A multi-usage case passes when its mask is a superset of a held usage's non-zero expected mask |
| SubtestProperties.MultiUsageAcceptsSupersetsOrMeets | external/vulkancts/modules/vulkan/image/vktImageSampleCountsTests.cpp:291-317 | A multi-usage case passes when its mask meets a held usage's expected mask |
| SubtestProperties.CompressedMultiUsageFails | external/vulkancts/modules/vulkan/image/vktImageSampleCountsTests.cpp:291-317 | A multi-usage case of a compressed format without storage fails on every device |
| SubtestProperties.YcbcrSampledUsagePasses | external/vulkancts/modules/vulkan/image/vktImageSampleCountsTests.cpp:187-218 | A Y'CbCr format's single-usage sampled case expects nothing, so it passes whenever its query succeeds, as the exactly-1 condition for Y'CbCr formats allows |
| SubtestProperties.CompressedSingleUsagePasses | external/vulkancts/modules/vulkan/image/vktImageSampleCountsTests.cpp:269-290 | A single-usage non-storage case of a compressed format passes whenever its query succeeds |
| SubtestProperties.MultiUsageAcceptsPartialMask | external/vulkancts/modules/vulkan/image/vktImageSampleCountsTests.cpp:269-317 | Some device passes a multi-usage case with a mask that is not a superset of a held usage's expected mask, which would fail that usage's single-usage case |
| SubtestProperties.SingleUsagePassesUnderRules | external/vulkancts/modules/vulkan/image/vktImageSampleCountsTests.cpp:269-290 | A driver that meets every limit the limit list imposes for a usage passes that usage's single-usage case, except in the colour-aspect gap |
| SubtestProperties.SingleColorUsageWithoutColorAspectCanFail | external/vulkancts/modules/vulkan/image/vktImageSampleCountsTests.cpp:141-162 | Some device meets every rule for colour attachment yet fails the single-usage colour case of a depth-only unorm format, which is held to framebufferColorSampleCounts |
| SubtestProperties.NoAttachmentFeatureDriverCanFailSampledCase | external/vulkancts/modules/vulkan/image/vktImageSampleCountsTests.cpp:187-218 | Some device reports exactly 1 for an uncompressed non-Y'CbCr unorm colour format whose optimal-tiling features have no attachment bit, as the section demands. It passes the optimal-tiling-features, Y'CbCr-conversion and one-sample-present checks, yet fails the sampled single-usage case, which is held to sampledImageColorSampleCounts |
| SubtestProperties.YcbcrDriverCanFailColorCase | external/vulkancts/modules/vulkan/image/vktImageSampleCountsTests.cpp:141-162 | Some device reports exactly 1 for a Y'CbCr colour format with the colour-attachment feature, as the section demands. It passes the Y'CbCr-conversion and one-sample-present checks, yet fails the colour-attachment single-usage case, which is held to framebufferColorSampleCounts |
| SubtestProperties.YcbcrConversionImpliesOthers | external/vulkancts/modules/vulkan/image/vktImageSampleCountsTests.cpp:322-430 | When the Y'CbCr-conversion check passes, the one-sample-present and optimal-tiling-features checks pass |
| SubtestProperties.LinearCheckByShape | external/vulkancts/modules/vulkan/image/vktImageSampleCountsTests.cpp:337-359 | Outside 2D optimal tiling, the linear/not-2D check equals the Y'CbCr check; for 2D optimal tiling it always fails |
| SubtestProperties.AttachmentFeatureRelaxesTilingCheck | external/vulkancts/modules/vulkan/image/vktImageSampleCountsTests.cpp:382-408 | With either attachment feature bit, the optimal-tiling-features check passes exactly when the query succeeds |
| SubtestProperties.NoUsageCaseSkipsOrFails | external/vulkancts/modules/vulkan/image/vktImageSampleCountsTests.cpp:226-237 | A case with no usage whose check reads the no-usage query is skipped when the format is unsupported, and fails on any other error |
| SubtestProperties.UsageErrorFails | external/vulkancts/modules/vulkan/image/vktImageSampleCountsTests.cpp:259-267 | An error other than format-not-supported fails the usage-flags case |
| UsageFlagsSubtests.UsageCaseNameLayout | external/vulkancts/modules/vulkan/image/vktImageSampleCountsTests.cpp:517-538 | A usage case name is the prefix, "_USAGE_FLAGS", the token of each present usage in the order colour, depth-stencil, sampled, storage, then "_SUBTEST" |
| UsageFlagsSubtests.AddUsageFlagsSubtests | external/vulkancts/modules/vulkan/image/vktImageSampleCountsTests.cpp:492-553 | Appends to the group the cases for indices 1 to 15 in order, and nothing else |
| UsageFlagsSubtests.UsageFromIndex | external/vulkancts/modules/vulkan/image/vktImageSampleCountsTests.cpp:508-515 | The inner loop ORs in usage bit j for each set bit j of i |
| UsageFlagsSubtests.BuildUsageCaseName | external/vulkancts/modules/vulkan/image/vktImageSampleCountsTests.cpp:517-538 | The sequence of `+=` steps builds the usage case name |
| UsageFlagsSubtests.BitsOfIndex | external/vulkancts/modules/vulkan/image/vktImageSampleCountsTests.cpp:508-515 | The usage built from i lies within the four usage bits and holds usage j exactly when bit j of i is set |
| UsageFlagsSubtests.IndexRoundTrip | external/vulkancts/modules/vulkan/image/vktImageSampleCountsTests.cpp:506-515 | Reading an index below 16 as a usage and back gives the index |
| UsageFlagsSubtests.BitsDetermineUsage | external/vulkancts/modules/vulkan/image/vktImageSampleCountsTests.cpp:494-500 | Two masks within the four usage bits that hold the same usages are equal |
| UsageFlagsSubtests.UsageRoundTrip | external/vulkancts/modules/vulkan/image/vktImageSampleCountsTests.cpp:506-515 | Every mask within the four usage bits is the usage built from its own index |
| UsageFlagsSubtests.EnumerationIsBijective | external/vulkancts/modules/vulkan/image/vktImageSampleCountsTests.cpp:504-515 | Indices 1 to 15 give non-empty usages within the four bits; different indices give different usages; every non-empty subset is given by some index |
| UsageFlagsSubtests.ZeroIndexIsEmpty | external/vulkancts/modules/vulkan/image/vktImageSampleCountsTests.cpp:506 | Only the empty usage has index 0, which is why the loop starts at 1 |
| UsageFlagsSubtests.SingleUsageIffOneBit | external/vulkancts/modules/vulkan/image/vktImageSampleCountsTests.cpp:540 | `i==1 \|\| i==2 \|\| i==4 \|\| i==8` holds exactly when the usage of i holds one usage |
| UsageFlagsSubtests.UsageTokensRoundTrip | external/vulkancts/modules/vulkan/image/vktImageSampleCountsTests.cpp:518-536 | The usage tokens of a name can be parsed back into the usages they came from |
| UsageFlagsSubtests.UsageCaseNameInjective | external/vulkancts/modules/vulkan/image/vktImageSampleCountsTests.cpp:517-538 | Within one prefix, usages within the four bits with the same case name are equal |
| UsageFlagsSubtests.UsageFlagsCasesKeepCombination | external/vulkancts/modules/vulkan/image/vktImageSampleCountsTests.cpp:542-551 | Every usage case keeps the combination's format, type and tiling, runs the usage-flags subtest, and is named after its usage |
| UsageFlagsSubtests.UsageFlagsCasesUsage | external/vulkancts/modules/vulkan/image/vktImageSampleCountsTests.cpp:504-551 | Every usage case has a non-empty usage within the four bits, and its single-usage flag is set exactly when that usage holds one bit |
| UsageFlagsSubtests.UsageFlagsCasesDistinct | external/vulkancts/modules/vulkan/image/vktImageSampleCountsTests.cpp:504-551 | The 15 usage cases have pairwise different usages and pairwise different names |
| UsageFlagsSubtests.UsageFlagsCasesCover | external/vulkancts/modules/vulkan/image/vktImageSampleCountsTests.cpp:504-551 | Every non-empty subset of the four usages is the usage of a registered case |
| UsageFlagsSubtests.RegisteredSingleUsageHasOneCategory | external/vulkancts/modules/vulkan/image/vktImageSampleCountsTests.cpp:540-551 | Every registered single-usage case holds exactly one of the four usage bits, so checkUsageFlags never reaches its trailing `return false` for a registered case |
| SampleCountsTests.CreateImageSampleCountsTests | external/vulkancts/modules/vulkan/image/vktImageSampleCountsTests.cpp:555-909 | The triple loop builds the "sample_counts" tree: one group per image type (1D, 2D, 3D), one per tiling (optimal, linear), and each format's cases in format order |
| SampleCountsTests.RegisterFormatCases | external/vulkancts/modules/vulkan/image/vktImageSampleCountsTests.cpp:855-901 | Appends to the tiling group exactly the format's cases for its image type and tiling |
| SampleCountsTests.FormatCaseCount | external/vulkancts/modules/vulkan/image/vktImageSampleCountsTests.cpp:869-901 | A format registers 19 cases for 2D optimal tiling (20 for a Y'CbCr format) and 1 otherwise |
| SampleCountsTests.TilingCaseCount | external/vulkancts/modules/vulkan/image/vktImageSampleCountsTests.cpp:855-901 | Outside 2D optimal tiling, a tiling group holds one case per format |
| SampleCountsTests.FullSetLayout | external/vulkancts/modules/vulkan/image/vktImageSampleCountsTests.cpp:869-895 | For 2D optimal tiling, the cases are cube-compatible, optimal-tiling-features, external-image (Y'CbCr formats only) and Y'CbCr-conversion, then the 15 usage cases, then one-sample-present |
| SampleCountsTests.RegisteredSubtestsByCombination | external/vulkancts/modules/vulkan/image/vktImageSampleCountsTests.cpp:869-901 | For 2D optimal tiling a format registers a subtest exactly when it is not linear/not-2D and, if it is external-image, the format is Y'CbCr; otherwise it registers only linear/not-2D |
| SampleCountsTests.FullSetRegistersOnly | external/vulkancts/modules/vulkan/image/vktImageSampleCountsTests.cpp:869-895 | No 2D optimal case runs linear/not-2D, and an external-image case appears only for a Y'CbCr format |
| SampleCountsTests.FullSetRegisters | external/vulkancts/modules/vulkan/image/vktImageSampleCountsTests.cpp:869-895 | For 2D optimal tiling, every subtest of the full set has a case |
| SampleCountsTests.FormatCasesCarryCombination | external/vulkancts/modules/vulkan/image/vktImageSampleCountsTests.cpp:858-901 | Every case carries its combination's format, type and tiling; every case except the usage cases has no usage and no single-usage flag |
| SampleCountsTests.RegisteredLinearCaseVerdict | external/vulkancts/modules/vulkan/image/vktImageSampleCountsTests.cpp:896-901 | A registered linear/not-2D case is skipped exactly when the format is unsupported, and passes exactly when the driver reports mask exactly 1 |
| SampleCountsTests.TilingCasesMembership | external/vulkancts/modules/vulkan/image/vktImageSampleCountsTests.cpp:855-901 | A case is in a tiling group exactly when it is one of the cases of some listed format |
| SampleCountsTests.FormatCaseNamesFormat | external/vulkancts/modules/vulkan/image/vktImageSampleCountsTests.cpp:858-901 | Every case a format registers carries that format, image type and tiling |
| SampleCountsTests.TreeGroupCarriesCombination | external/vulkancts/modules/vulkan/image/vktImageSampleCountsTests.cpp:820-906 | The tree's group for image type t and tiling k carries that type and tiling, and so does every case in it |
| SampleCountsTests.YcbcrConversionCaseOnEveryFormat | external/vulkancts/modules/vulkan/image/vktImageSampleCountsTests.cpp:322-335 | Every format's 2D optimal combination registers both the Y'CbCr-conversion case and the one-sample-present case. When the plain query reports the 1-sample count together with other counts, the first fails and the second passes |
| SampleCountsTests.TreeRegistrationRule | external/vulkancts/modules/vulkan/image/vktImageSampleCountsTests.cpp:820-906 | The tree's group for image type t and tiling k has a case of a format running a subtest exactly when the format is listed and the subtest belongs to the combination: the full set minus linear/not-2D for 2D optimal tiling (external-image only for Y'CbCr formats), linear/not-2D alone otherwise |

## Left out

- Vulkan driver calls are not modelled. `vkGetPhysicalDeviceImageFormatProperties`, its `2` variant with a chained `VkPhysicalDeviceExternalImageFormatInfo`, `vkGetPhysicalDeviceProperties2` with chained `VkPhysicalDeviceVulkan12Properties`, and `vkGetPhysicalDeviceFormatProperties` become fields of `Device`. Each query is a pure function of its arguments. The `pNext` chaining, the output structures and the `VkExternalImageFormatProperties` that the external check fills but never reads are left out.
- The format classification helpers are inputs, not definitions. `isFloatFormat`, `isSnormFormat`, `isUnormFormat`, `isIntFormat`, `isUintFormat`, `isCompressedFormat`, `isYCbCrFormat` and `mapVkFormat(...).order` come from files that are not part of this model. Every colour channel order is one value, `OtherOrder`, because the test distinguishes only D, S and DS.
- The table of about 245 formats is not modelled. `CreateImageSampleCountsTests` takes the format list as a parameter.
- Test-tree objects are modelled as values. `tcu::TestCaseGroup`, `SampleCountTest`, `MovePtr`, `addChild` and object lifetime become sequences and records. Group names come from `getImageTypeName` and `getImageTilingName` and are left out; groups carry the image type or tiling instead. `getFormatShortString` is the format's `shortName` field.
- Test outcome plumbing is reduced to `Skip | Pass | Fail`. The `TCU_THROW(NotSupportedError, ...)` of `checkSupport` becomes `Skip`, and the "OK" and "FAILED" status strings become `Pass` and `Fail`.
- Flag words are sets of bit positions, not 32-bit integers. The test only uses AND, OR and comparisons on these words, and none of those can overflow, so no wrap-around needs modelling.
- `SampleCountTestInstance` and its constructor only store the case definition and the subtest, so the model passes both as arguments.
- ExpectedCounts.SelectionAgreesWithRules: promises agreement with the rules only outside the colour-aspect gap, and the exactly-one-limit clause not for the sampled stencil limit, because the test's code does not follow the rules there (see `ExpectedCounts.ColorLimitWithoutColorAspectIsExtra` and `ExpectedCounts.SampledStencilNeverChecked`). It also leaves aside two exactly-1 conditions, because the usage-flags cases ignore them: a Y'CbCr format used as a colour attachment, depth-stencil attachment or storage image, and a format without either attachment feature, for any usage. Under those conditions the section demands exactly the 1-sample count, not the listed limits. The Y'CbCr exemption for sampled use is part of `ExpectedCounts.RequiredLimits`, as it is of the test.
- ExpectedCounts.NoSelectionExactlyWhenNothingRequired: ignores the sampled stencil limit and excludes the colour-aspect gap, for the same reason. It also leaves aside two exactly-1 conditions, because the usage-flags cases ignore them: a Y'CbCr format used as a colour attachment, depth-stencil attachment or storage image, and a format without either attachment feature, for any usage. Under those conditions the section demands exactly the 1-sample count, not the listed limits. The Y'CbCr exemption for sampled use is part of `ExpectedCounts.RequiredLimits`, as it is of the test.
- ExpectedCounts.ExpectedIsImpliedByRules: promises nothing in the colour-aspect gap, where the expected mask is a limit the rules do not impose. It also leaves aside two exactly-1 conditions, because the usage-flags cases ignore them: a Y'CbCr format used as a colour attachment, depth-stencil attachment or storage image, and a format without either attachment feature, for any usage. Under those conditions the section demands exactly the 1-sample count, not the listed limits. The Y'CbCr exemption for sampled use is part of `ExpectedCounts.RequiredLimits`, as it is of the test.
- SubtestProperties.SingleUsagePassesUnderRules: promises nothing in the colour-aspect gap; `SubtestProperties.SingleColorUsageWithoutColorAspectCanFail` shows a driver that meets the rules and still fails there. It also does not cover a driver that obeys the two exactly-1 conditions the usage-flags cases ignore: a Y'CbCr format used as a colour attachment, depth-stencil attachment or storage image, and a format without either attachment feature, for any usage. In `SubtestProperties.NoAttachmentFeatureDriverCanFailSampledCase` and `SubtestProperties.YcbcrDriverCanFailColorCase`, such a driver fails.
- ExpectedCounts.StorageLimit: has no contract of its own, because it always returns storageImageSampleCounts. `ExpectedCounts.SelectionAgreesWithRules` covers it.
