/**
 * The four image usages whose sample-count limits the test checks, and how
 * a usage mask is read as the set of those it contains.
 */
module Usage {
  import opened SampleCountFlags

  datatype UsageCategory = ColorAttachment | DepthStencilAttachment | Sampled | Storage

  /** The usage bit of each category. */
  function UsageBit(c: UsageCategory): Mask
  {
    match c
    case ColorAttachment => USAGE_COLOR_ATTACHMENT
    case DepthStencilAttachment => USAGE_DEPTH_STENCIL_ATTACHMENT
    case Sampled => USAGE_SAMPLED
    case Storage => USAGE_STORAGE
  }

  /** The four usage bits together. */
  const ALL_USAGE: Mask :=
    USAGE_COLOR_ATTACHMENT + USAGE_DEPTH_STENCIL_ATTACHMENT + USAGE_SAMPLED + USAGE_STORAGE

  /** Position of a category in the order the test examines them. */
  function Rank(c: UsageCategory): nat
  {
    match c
    case ColorAttachment => 0
    case DepthStencilAttachment => 1
    case Sampled => 2
    case Storage => 3
  }

  /** Which of the four usage bits a mask contains. */
  datatype UsageBits = UsageBits(color: bool, depthStencil: bool, sampled: bool, storage: bool)
  {
    predicate Contains(c: UsageCategory)
    {
      match c
      case ColorAttachment => color
      case DepthStencilAttachment => depthStencil
      case Sampled => sampled
      case Storage => storage
    }

    /** How many of the four categories are contained. */
    function Count(): nat
    {
      (if color then 1 else 0) + (if depthStencil then 1 else 0)
      + (if sampled then 1 else 0) + (if storage then 1 else 0)
    }
  }

  /** Reads the four usage bits of a mask; other bits are ignored. */
  function Bits(usage: Mask): UsageBits
  {
    UsageBits(
      usage * USAGE_COLOR_ATTACHMENT != {},
      usage * USAGE_DEPTH_STENCIL_ATTACHMENT != {},
      usage * USAGE_SAMPLED != {},
      usage * USAGE_STORAGE != {})
  }

  /** A category is read as contained exactly when its usage bit is set. */
  lemma BitsContains(usage: Mask, c: UsageCategory)
    ensures Bits(usage).Contains(c) <==> usage * UsageBit(c) != {}
  {
  }

  datatype Option<T> = None | Some(value: T)

  /**
   * The first category, in the order colour attachment, depth-stencil
   * attachment, sampled, storage, that `b` contains: the contained category
   * of least rank, or none when `b` contains none.
   */
  function FirstCategory(b: UsageBits): (r: Option<UsageCategory>)
    ensures r.None? <==> b.Count() == 0
    ensures r.None? ==> forall c :: !b.Contains(c)
    ensures r.Some? ==> b.Contains(r.value)
    ensures r.Some? ==> forall c :: Rank(c) < Rank(r.value) ==> !b.Contains(c)
  {
    if b.color then Some(ColorAttachment)
    else if b.depthStencil then Some(DepthStencilAttachment)
    else if b.sampled then Some(Sampled)
    else if b.storage then Some(Storage)
    else None
  }
}
