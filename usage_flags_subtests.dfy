/**
 * The usage-flags cases a (format, image type, tiling) combination
 * registers: the numbers 1 to 15 read as subsets of the four usages, each
 * with its single-usage flag and its case name.
 */
module UsageFlagsSubtests {
  import opened SampleCountFlags
  import opened Usage
  import opened Subtests

  /** A registered test case: its name, its definition and its subtest. */
  datatype TestCase = TestCase(name: string, caseDef: CaseDef, subtest: Subtest)

  /** The usage bits the enumeration combines; bit j of the index selects entry j. */
  const USAGE_FLAGS_ORDER: seq<Mask> :=
    [USAGE_COLOR_ATTACHMENT, USAGE_DEPTH_STENCIL_ATTACHMENT, USAGE_SAMPLED, USAGE_STORAGE]

  /** `(i >> j) & 1` for an unsigned index. */
  predicate BitOf(i: nat, j: nat)
  {
    (i / Pow2(j)) % 2 == 1
  }

  /** The usage selected by the low `n` bits of `i`. */
  function UsageBelow(i: nat, n: nat): Mask
    requires n <= |USAGE_FLAGS_ORDER|
  {
    if n == 0 then {}
    else UsageBelow(i, n - 1) + (if BitOf(i, n - 1) then USAGE_FLAGS_ORDER[n - 1] else {})
  }

  /** The usage the enumeration builds for index `i`. */
  function UsageOfIndex(i: nat): Mask
  {
    UsageBelow(i, |USAGE_FLAGS_ORDER|)
  }

  /** The single-usage flag the enumeration gives index `i`. */
  predicate SingleUsageIndex(i: nat)
  {
    i == 1 || i == 2 || i == 4 || i == 8
  }

  /** The index whose bits are the four usage bits read off `b`: the inverse of UsageOfIndex. */
  function IndexOfBits(b: UsageBits): (i: nat)
    ensures i < 16
  {
    (if b.color then 1 else 0) + (if b.depthStencil then 2 else 0)
    + (if b.sampled then 4 else 0) + (if b.storage then 8 else 0)
  }

  /** The name token of each usage bit, in the fixed order colour, depth-stencil, sampled, storage. */
  function UsageTokens(b: UsageBits): string
  {
    (if b.color then "_COLOR" else "")
    + (if b.depthStencil then "_DEPTHSTENCIL" else "")
    + (if b.sampled then "_SAMPLED" else "")
    + (if b.storage then "_STORAGE" else "")
  }

  /** `s` followed by `token` when `present` holds. */
  function AppendIf(s: string, present: bool, token: string): string
  {
    if present then s + token else s
  }

  /**
   * The name of the usage-flags case for `usage`: the combination's name,
   * "_USAGE_FLAGS", the token of each usage bit it holds, and "_SUBTEST".
   */
  function UsageCaseName(samplesCaseName: string, usage: Mask): string
  {
    var b := Bits(usage);
    var withColor := AppendIf(samplesCaseName + "_USAGE_FLAGS", b.color, "_COLOR");
    var withDepthStencil := AppendIf(withColor, b.depthStencil, "_DEPTHSTENCIL");
    var withSampled := AppendIf(withDepthStencil, b.sampled, "_SAMPLED");
    AppendIf(withSampled, b.storage, "_STORAGE") + "_SUBTEST"
  }

  /** A usage-flags case name is the head, the usage tokens and the tail, in that order. */
  lemma UsageCaseNameLayout(samplesCaseName: string, usage: Mask)
    ensures UsageCaseName(samplesCaseName, usage)
         == samplesCaseName + "_USAGE_FLAGS" + UsageTokens(Bits(usage)) + "_SUBTEST"
  {
    var b := Bits(usage);
    var head := samplesCaseName + "_USAGE_FLAGS";
    var c0: string := if b.color then "_COLOR" else "";
    var c1: string := if b.depthStencil then "_DEPTHSTENCIL" else "";
    var c2: string := if b.sampled then "_SAMPLED" else "";
    var c3: string := if b.storage then "_STORAGE" else "";
    AppendIfStep(head, b.color, "_COLOR");
    AppendIfStep(head + c0, b.depthStencil, "_DEPTHSTENCIL");
    AppendIfStep(head + c0 + c1, b.sampled, "_SAMPLED");
    AppendIfStep(head + c0 + c1 + c2, b.storage, "_STORAGE");
    Associative(head, c0, c1, c2, c3);
  }

  lemma AppendIfStep(s: string, present: bool, token: string)
    ensures AppendIf(s, present, token) == s + (if present then token else "")
  {
    if !present {
      assert s + "" == s;
    }
  }

  lemma Associative(h: string, a: string, b: string, c: string, d: string)
    ensures h + a + b + c + d == h + (a + b + c + d)
  {
  }

  /** The case registered for index `i`: the combination's case with the usage of `i`. */
  function UsageCase(samplesCaseName: string, caseDef: CaseDef, i: nat): TestCase
  {
    var usage := UsageOfIndex(i);
    TestCase(UsageCaseName(samplesCaseName, usage),
             CaseDef(caseDef.format, caseDef.imageType, caseDef.imageTiling, usage, SingleUsageIndex(i)),
             UsageFlags)
  }

  /** The cases for indices 1 to 15, in index order. */
  function UsageFlagsCases(samplesCaseName: string, caseDef: CaseDef): (cases: seq<TestCase>)
    ensures |cases| == 15
  {
    seq(15, k requires 0 <= k < 15 => UsageCase(samplesCaseName, caseDef, k + 1))
  }

  /**
   * addUsageFlagsSubtests: for i from 1 below 1 << 4, builds the usage from
   * the bits of i, the case name from the usage, and the single-usage flag
   * from i, and appends the case to the group.
   */
  method AddUsageFlagsSubtests(samplesCaseName: string, caseDef: CaseDef, group: seq<TestCase>)
    returns (result: seq<TestCase>)
    ensures result == group + UsageFlagsCases(samplesCaseName, caseDef)
  {
    var sizeUsageFlags := |USAGE_FLAGS_ORDER|;
    var sizeUsageSet := Pow2(sizeUsageFlags);
    assert sizeUsageSet == 16 by { Pow2Values(); }
    result := group;
    var i := 1;
    while i < sizeUsageSet
      invariant 1 <= i <= sizeUsageSet
      invariant result == group + UsageFlagsCases(samplesCaseName, caseDef)[..i - 1]
    {
      var usage := UsageFromIndex(i);
      var caseName := BuildUsageCaseName(samplesCaseName, usage);
      var singleUsageFlag := i == 1 || i == 2 || i == 4 || i == 8;
      var newCaseDef := CaseDef(caseDef.format, caseDef.imageType, caseDef.imageTiling, usage, singleUsageFlag);
      assert UsageFlagsCases(samplesCaseName, caseDef)[..i]
          == UsageFlagsCases(samplesCaseName, caseDef)[..i - 1] + [UsageCase(samplesCaseName, caseDef, i)];
      result := result + [TestCase(caseName, newCaseDef, UsageFlags)];
      i := i + 1;
    }
  }

  /** The inner loop of addUsageFlagsSubtests: `usage |= usageFlags[j]` for each set bit j of i. */
  method UsageFromIndex(i: nat) returns (usage: Mask)
    ensures usage == UsageOfIndex(i)
  {
    var usageFlags := USAGE_FLAGS_ORDER;
    usage := {};
    var j := 0;
    while j < |usageFlags|
      invariant 0 <= j <= |usageFlags|
      invariant usage == UsageBelow(i, j)
    {
      if (i / Pow2(j)) % 2 == 1 {
        usage := usage + usageFlags[j];
      }
      j := j + 1;
    }
  }

  /** The name-building steps of addUsageFlagsSubtests: one `+=` per usage bit, in order. */
  method BuildUsageCaseName(samplesCaseName: string, usage: Mask) returns (caseName: string)
    ensures caseName == UsageCaseName(samplesCaseName, usage)
  {
    caseName := samplesCaseName + "_USAGE_FLAGS";
    if usage * USAGE_COLOR_ATTACHMENT != {} {
      caseName := caseName + "_COLOR";
    }
    if usage * USAGE_DEPTH_STENCIL_ATTACHMENT != {} {
      caseName := caseName + "_DEPTHSTENCIL";
    }
    if usage * USAGE_SAMPLED != {} {
      caseName := caseName + "_SAMPLED";
    }
    if usage * USAGE_STORAGE != {} {
      caseName := caseName + "_STORAGE";
    }
    caseName := caseName + "_SUBTEST";
  }

  lemma Pow2Values()
    ensures Pow2(0) == 1 && Pow2(1) == 2 && Pow2(2) == 4 && Pow2(3) == 8 && Pow2(4) == 16
  {
  }

  /** The usage bits of index `i` are its four low bits. */
  lemma BitsOfIndex(i: nat)
    ensures UsageOfIndex(i) <= ALL_USAGE
    ensures Bits(UsageOfIndex(i)) == UsageBits(BitOf(i, 0), BitOf(i, 1), BitOf(i, 2), BitOf(i, 3))
  {
    var s0: Mask := if BitOf(i, 0) then {4} else {};
    var s1: Mask := if BitOf(i, 1) then {5} else {};
    var s2: Mask := if BitOf(i, 2) then {2} else {};
    var s3: Mask := if BitOf(i, 3) then {3} else {};
    assert UsageBelow(i, 1) == s0;
    assert UsageBelow(i, 2) == s0 + s1;
    assert UsageBelow(i, 3) == s0 + s1 + s2;
    assert UsageOfIndex(i) == s0 + s1 + s2 + s3;
  }

  /** Reading an index below 16 as usage bits and back gives the index. */
  lemma IndexRoundTrip(i: nat)
    requires i < 16
    ensures IndexOfBits(Bits(UsageOfIndex(i))) == i
  {
    BitsOfIndex(i);
    Pow2Values();
  }

  /** Two usages within the four bits that contain the same bits are equal. */
  lemma BitsDetermineUsage(u: Mask, v: Mask)
    requires u <= ALL_USAGE && v <= ALL_USAGE && Bits(u) == Bits(v)
    ensures u == v
  {
    assert 4 in u <==> 4 in v;
    assert 5 in u <==> 5 in v;
    assert 2 in u <==> 2 in v;
    assert 3 in u <==> 3 in v;
  }

  /** Every usage within the four bits is the usage of its index. */
  lemma UsageRoundTrip(u: Mask)
    requires u <= ALL_USAGE
    ensures UsageOfIndex(IndexOfBits(Bits(u))) == u
  {
    var b := Bits(u);
    var i := IndexOfBits(b);
    BitsOfIndex(i);
    Pow2Values();
    assert Bits(UsageOfIndex(i)) == b;
    BitsDetermineUsage(UsageOfIndex(i), u);
  }

  /**
   * The indices 1 to 15 give each of the 15 non-empty subsets of the four
   * usage bits exactly once.
   */
  lemma EnumerationIsBijective()
    ensures forall i :: 1 <= i < 16 ==> UsageOfIndex(i) != {} && UsageOfIndex(i) <= ALL_USAGE
    ensures forall i, k :: 1 <= i < 16 && 1 <= k < 16 && UsageOfIndex(i) == UsageOfIndex(k) ==> i == k
    ensures forall u :: u != {} && u <= ALL_USAGE ==> exists i :: 1 <= i < 16 && UsageOfIndex(i) == u
  {
    forall i | 1 <= i < 16
      ensures UsageOfIndex(i) != {} && UsageOfIndex(i) <= ALL_USAGE
    {
      BitsOfIndex(i);
      IndexRoundTrip(i);
      ZeroIndexIsEmpty(UsageOfIndex(i));
    }
    forall i, k | 1 <= i < 16 && 1 <= k < 16 && UsageOfIndex(i) == UsageOfIndex(k)
      ensures i == k
    {
      IndexRoundTrip(i);
      IndexRoundTrip(k);
    }
    forall u | u != {} && u <= ALL_USAGE
      ensures exists i :: 1 <= i < 16 && UsageOfIndex(i) == u
    {
      UsageRoundTrip(u);
      ZeroIndexIsEmpty(u);
      assert 1 <= IndexOfBits(Bits(u)) < 16;
    }
  }

  /** Only the empty usage has index 0. */
  lemma ZeroIndexIsEmpty(u: Mask)
    requires u <= ALL_USAGE
    ensures IndexOfBits(Bits(u)) == 0 <==> u == {}
  {
    if IndexOfBits(Bits(u)) == 0 {
      BitsDetermineUsage(u, {});
    }
  }

  /** The single-usage flag is set exactly for the indices whose usage has one bit. */
  lemma SingleUsageIffOneBit(i: nat)
    requires 1 <= i < 16
    ensures SingleUsageIndex(i) <==> Bits(UsageOfIndex(i)).Count() == 1
  {
    BitsOfIndex(i);
    Pow2Values();
  }

  /**
   * Removes `token` from the front of `t` when it is there: whether it was,
   * and what remains.
   */
  function Strip(t: string, token: string): (bool, string)
  {
    if token <= t then (true, t[|token|..]) else (false, t)
  }

  /** Reads the usage bits back from a token string, one token at a time. */
  function ParseUsageTokens(t: string): UsageBits
  {
    var (color, t1) := Strip(t, "_COLOR");
    var (depthStencil, t2) := Strip(t1, "_DEPTHSTENCIL");
    var (sampled, t3) := Strip(t2, "_SAMPLED");
    var (storage, _) := Strip(t3, "_STORAGE");
    UsageBits(color, depthStencil, sampled, storage)
  }

  /** The tokens of a usage name determine the usage bits. */
  lemma UsageTokensRoundTrip(b: UsageBits)
    ensures ParseUsageTokens(UsageTokens(b)) == b
  {
    var t3: string := if b.storage then "_STORAGE" else "";
    var t2: string := (if b.sampled then "_SAMPLED" else "") + t3;
    var t1: string := (if b.depthStencil then "_DEPTHSTENCIL" else "") + t2;
    var t0: string := (if b.color then "_COLOR" else "") + t1;
    assert UsageTokens(b) == t0;
    StripStep(b.color, "_COLOR", t1, 1);
    StripStep(b.depthStencil, "_DEPTHSTENCIL", t2, 1);
    StripStep(b.sampled, "_SAMPLED", t3, 2);
    StripStep(b.storage, "_STORAGE", "", 1);
  }

  /**
   * Stripping a token from the front of an optional copy of it followed by
   * a rest whose character `k` differs from the token's gives back the rest.
   */
  lemma StripStep(present: bool, token: string, rest: string, k: nat)
    requires k < |token|
    requires k < |rest| ==> rest[k] != token[k]
    ensures Strip((if present then token else "") + rest, token) == (present, rest)
  {
    if present {
      assert (token + rest)[..|token|] == token;
      assert (token + rest)[|token|..] == rest;
    } else {
      assert ("" + rest) == rest;
    }
  }

  /** Within one combination, different usages within the four bits get different names. */
  lemma UsageCaseNameInjective(samplesCaseName: string, u: Mask, v: Mask)
    requires u <= ALL_USAGE && v <= ALL_USAGE
    requires UsageCaseName(samplesCaseName, u) == UsageCaseName(samplesCaseName, v)
    ensures u == v
  {
    var head := samplesCaseName + "_USAGE_FLAGS";
    UsageCaseNameLayout(samplesCaseName, u);
    UsageCaseNameLayout(samplesCaseName, v);
    var nu := UsageCaseName(samplesCaseName, u);
    var tu := UsageTokens(Bits(u));
    var tv := UsageTokens(Bits(v));
    assert nu == head + tu + "_SUBTEST";
    assert nu == head + tv + "_SUBTEST";
    assert |tu| == |tv|;
    assert tu == nu[|head|..|head| + |tu|];
    assert tv == nu[|head|..|head| + |tv|];
    UsageTokensRoundTrip(Bits(u));
    UsageTokensRoundTrip(Bits(v));
    BitsDetermineUsage(u, v);
  }

  /**
   * Every registered usage-flags case keeps the combination's format, type
   * and tiling and runs the usage-flags subtest under its usage's name.
   */
  lemma UsageFlagsCasesKeepCombination(samplesCaseName: string, caseDef: CaseDef)
    ensures var cases := UsageFlagsCases(samplesCaseName, caseDef);
      forall k :: 0 <= k < 15 ==>
        && cases[k].subtest == UsageFlags
        && cases[k].caseDef.format == caseDef.format
        && cases[k].caseDef.imageType == caseDef.imageType
        && cases[k].caseDef.imageTiling == caseDef.imageTiling
        && cases[k].name == UsageCaseName(samplesCaseName, cases[k].caseDef.usageFlags)
  {
  }

  /**
   * Every registered usage-flags case has a non-empty usage within the four
   * bits, and its single-usage flag is set exactly when that usage holds one bit.
   */
  lemma UsageFlagsCasesUsage(samplesCaseName: string, caseDef: CaseDef)
    ensures var cases := UsageFlagsCases(samplesCaseName, caseDef);
      forall k :: 0 <= k < 15 ==>
        var d := cases[k].caseDef;
        && d.usageFlags != {} && d.usageFlags <= ALL_USAGE
        && (d.singleUsageFlag <==> Bits(d.usageFlags).Count() == 1)
  {
    var cases := UsageFlagsCases(samplesCaseName, caseDef);
    EnumerationIsBijective();
    forall k | 0 <= k < 15
      ensures Bits(cases[k].caseDef.usageFlags).Count() == 1 <==> cases[k].caseDef.singleUsageFlag
    {
      SingleUsageIffOneBit(k + 1);
    }
  }

  /** The registered usage-flags cases have pairwise different usages and names. */
  lemma UsageFlagsCasesDistinct(samplesCaseName: string, caseDef: CaseDef)
    ensures var cases := UsageFlagsCases(samplesCaseName, caseDef);
      forall k, l :: 0 <= k < l < 15 ==>
        cases[k].caseDef.usageFlags != cases[l].caseDef.usageFlags && cases[k].name != cases[l].name
  {
    var cases := UsageFlagsCases(samplesCaseName, caseDef);
    EnumerationIsBijective();
    forall k, l | 0 <= k < l < 15
      ensures cases[k].name != cases[l].name
    {
      if cases[k].name == cases[l].name {
        UsageCaseNameInjective(samplesCaseName, cases[k].caseDef.usageFlags, cases[l].caseDef.usageFlags);
      }
    }
  }

  /** Every non-empty subset of the four usage bits is the usage of a registered case. */
  lemma UsageFlagsCasesCover(samplesCaseName: string, caseDef: CaseDef)
    ensures var cases := UsageFlagsCases(samplesCaseName, caseDef);
      forall u :: u != {} && u <= ALL_USAGE ==> exists k :: 0 <= k < 15 && cases[k].caseDef.usageFlags == u
  {
    var cases := UsageFlagsCases(samplesCaseName, caseDef);
    EnumerationIsBijective();
    forall u | u != {} && u <= ALL_USAGE
      ensures exists k :: 0 <= k < 15 && cases[k].caseDef.usageFlags == u
    {
      var i :| 1 <= i < 16 && UsageOfIndex(i) == u;
      assert cases[i - 1].caseDef.usageFlags == u;
    }
  }

  /**
   * Every registered single-usage case holds exactly one of the four usage
   * bits, so its check never takes the path where no bit is recognised.
   */
  lemma RegisteredSingleUsageHasOneCategory(samplesCaseName: string, caseDef: CaseDef, k: nat)
    requires k < 15
    requires UsageFlagsCases(samplesCaseName, caseDef)[k].caseDef.singleUsageFlag
    ensures var u := UsageFlagsCases(samplesCaseName, caseDef)[k].caseDef.usageFlags;
      exists cat :: u * ALL_USAGE == UsageBit(cat)
  {
    var i := k + 1;
    var u := UsageOfIndex(i);
    BitsOfIndex(i);
    Pow2Values();
    assert u * ALL_USAGE == u;
    if i == 1 {
      assert u == UsageBit(ColorAttachment);
    } else if i == 2 {
      assert u == UsageBit(DepthStencilAttachment);
    } else if i == 4 {
      assert u == UsageBit(Sampled);
    } else {
      assert u == UsageBit(Storage);
    }
  }
}
