/**
 * The 32-bit flag words the sample-count conformance test reads and
 * compares: VkSampleCountFlags, VkImageUsageFlags, VkFormatFeatureFlags,
 * VkImageCreateFlags and VkExternalMemoryHandleTypeFlags, with the bits of
 * each that the test uses, and the one relation it defines on them.
 *
 * A flag word is modelled as the set of positions of its set bits, so the
 * bitwise operators of the test read as set operations: `a & b` is `a * b`,
 * `a | b` is `a + b`, and a word equal to 0 is the empty set.
 */
module SampleCountFlags {

  /** A bit position of a 32-bit word. */
  type Bit = b: int | 0 <= b < 32

  /** Every Vulkan *Flags type is a 32-bit unsigned word. */
  type Mask = set<Bit>

  /** The numeric value of a word: each set bit at position b adds 2^b. */
  ghost function Word(m: Mask): (w: nat)
    ensures m == {} <==> w == 0
    decreases m
  {
    if m == {} then 0
    else
      var b :| b in m;
      Pow2(b) + Word(m - {b})
  }

  function Pow2(n: nat): (p: nat)
    ensures p >= 1
  {
    if n == 0 then 1 else 2 * Pow2(n - 1)
  }

  /** VK_SAMPLE_COUNT_1_BIT = 0x1 */
  const SAMPLE_COUNT_1: Mask := {0}

  // VkImageUsageFlagBits
  /** VK_IMAGE_USAGE_SAMPLED_BIT = 0x4 */
  const USAGE_SAMPLED: Mask := {2}
  /** VK_IMAGE_USAGE_STORAGE_BIT = 0x8 */
  const USAGE_STORAGE: Mask := {3}
  /** VK_IMAGE_USAGE_COLOR_ATTACHMENT_BIT = 0x10 */
  const USAGE_COLOR_ATTACHMENT: Mask := {4}
  /** VK_IMAGE_USAGE_DEPTH_STENCIL_ATTACHMENT_BIT = 0x20 */
  const USAGE_DEPTH_STENCIL_ATTACHMENT: Mask := {5}

  // VkFormatFeatureFlagBits
  /** VK_FORMAT_FEATURE_COLOR_ATTACHMENT_BIT = 0x80 */
  const FEATURE_COLOR_ATTACHMENT: Mask := {7}
  /** VK_FORMAT_FEATURE_DEPTH_STENCIL_ATTACHMENT_BIT = 0x200 */
  const FEATURE_DEPTH_STENCIL_ATTACHMENT: Mask := {9}

  /** VK_IMAGE_CREATE_CUBE_COMPATIBLE_BIT = 0x10 */
  const CREATE_CUBE_COMPATIBLE: Mask := {4}

  /**
   * The external memory handle types the external-image subtest asks
   * about, in its order: OPAQUE_FD (0x1), OPAQUE_WIN32 (0x2),
   * OPAQUE_WIN32_KMT (0x4), D3D11_TEXTURE (0x8), D3D11_TEXTURE_KMT (0x10),
   * D3D12_HEAP (0x20), D3D12_RESOURCE (0x40).
   */
  const HANDLE_TYPES: seq<Mask> := [{0}, {1}, {2}, {3}, {4}, {5}, {6}]

  /** The words the constants above stand for. */
  lemma ConstantWords()
    ensures Word(SAMPLE_COUNT_1) == 0x1
    ensures Word(USAGE_SAMPLED) == 0x4 && Word(USAGE_STORAGE) == 0x8
    ensures Word(USAGE_COLOR_ATTACHMENT) == 0x10 && Word(USAGE_DEPTH_STENCIL_ATTACHMENT) == 0x20
    ensures Word(FEATURE_COLOR_ATTACHMENT) == 0x80 && Word(FEATURE_DEPTH_STENCIL_ATTACHMENT) == 0x200
    ensures Word(CREATE_CUBE_COMPATIBLE) == 0x10
    ensures forall i :: 0 <= i < |HANDLE_TYPES| ==> Word(HANDLE_TYPES[i]) == Pow2(i)
  {
    forall b: Bit
      ensures Word({b}) == Pow2(b)
    {
      SingletonWord(b);
    }
  }

  lemma SingletonWord(b: Bit)
    ensures Word({b}) == Pow2(b)
  {
    var x :| x in {b};
    assert x == b;
    assert {b} - {x} == {};
  }

  /**
   * isSuperset: `(a & b) == b`, that is, every bit of `b` is also in `a`.
   */
  function IsSuperset(a: Mask, b: Mask): (r: bool)
    ensures r <==> forall x :: x in b ==> x in a
  {
    a * b == b
  }

  /** Every mask contains the empty mask and itself. */
  lemma SupersetOfEmptyAndSelf(a: Mask)
    ensures IsSuperset(a, {}) && IsSuperset(a, a)
  {
  }

  /** A superset of a union is a superset of each part, and conversely. */
  lemma SupersetOfUnion(a: Mask, b: Mask, c: Mask)
    ensures IsSuperset(a, b + c) <==> IsSuperset(a, b) && IsSuperset(a, c)
  {
  }

  /** A mask that contains a non-empty mask shares a bit with it. */
  lemma SupersetOfNonEmptyIntersects(a: Mask, b: Mask)
    requires b != {} && IsSuperset(a, b)
    ensures a * b != {}
  {
  }

  /** A mask meets a union exactly when it meets one of the parts. */
  lemma MeetsUnion(a: Mask, b: Mask, c: Mask)
    ensures (a * (b + c) != {}) <==> (a * b != {}) || (a * c != {})
  {
    assert a * (b + c) == a * b + a * c;
  }
}
