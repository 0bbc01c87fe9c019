/**
 Memory-type selection of `Buffer::findMemoryType`: the first memory type,
 in index order, that the resource's `memoryTypeBits` allows and whose
 property flags contain every requested flag.
 */
module MemoryTypes {
  import opened Wrappers
  import opened VkCommon

  /** `VK_MAX_MEMORY_TYPES`: `memoryTypeBits` has one bit per memory type. */
  const MaxMemoryTypes: nat := 32

  /**
   `VkMemoryPropertyFlagBits`. A `VkMemoryPropertyFlags` mask is the set of
   its bits, so the source's `(flags & mask) == mask` is `mask <= flags`.
   */
  datatype MemoryPropertyFlag =
    | DeviceLocal | HostVisible | HostCoherent | HostCached | LazilyAllocated | Protected

  /** `VkMemoryType`. */
  datatype MemoryType = MemoryType(propertyFlags: set<MemoryPropertyFlag>, heapIndex: nat)

  /**
   `VkPhysicalDeviceMemoryProperties`, restricted to the memory types;
   `memoryTypeCount` is the length of `memoryTypes`, which the fixed-size
   array of the API bounds by `VK_MAX_MEMORY_TYPES`.
   */
  datatype MemoryProperties = MemoryProperties(memoryTypes: seq<MemoryType>) {
    predicate Valid() {
      |memoryTypes| <= MaxMemoryTypes
    }
  }

  /** `b >> n` on a `uint32_t`, taken one single-bit shift at a time as the source's loop does. */
  function ShiftedRight(b: U32, n: nat): U32 {
    if n == 0 then b else ShiftedRight(b, n - 1) / 2
  }

  /** Bit `i` of a `memoryTypeBits` mask is set. */
  predicate TypeAllowed(typeBits: U32, i: nat) {
    ShiftedRight(typeBits, i) % 2 == 1
  }

  /** Memory type `i` exists, is allowed by `typeBits` and has every flag of `mask`. */
  predicate Suitable(props: MemoryProperties, typeBits: U32, mask: set<MemoryPropertyFlag>, i: nat) {
    && i < |props.memoryTypes|
    && TypeAllowed(typeBits, i)
    && mask <= props.memoryTypes[i].propertyFlags
  }

  /**
   The lowest suitable memory type at or above `from`, or `None` when there
   is none (where the source's assertion fires).
   */
  function FirstSuitable(props: MemoryProperties, typeBits: U32, mask: set<MemoryPropertyFlag>, from: nat): (r: Option<nat>)
    requires props.Valid()
    decreases |props.memoryTypes| - from
    ensures r.Some? ==> from <= r.value && Suitable(props, typeBits, mask, r.value)
    ensures r.Some? ==> forall j :: from <= j < r.value ==> !Suitable(props, typeBits, mask, j)
    ensures r.None? ==> forall j :: from <= j ==> !Suitable(props, typeBits, mask, j)
  {
    if from >= |props.memoryTypes| then None
    else if TypeAllowed(typeBits, from) && mask <= props.memoryTypes[from].propertyFlags then Some(from)
    else FirstSuitable(props, typeBits, mask, from + 1)
  }

  /**
   `Buffer::findMemoryType`: walks the memory types in index order, halving a
   copy of `typeBits` (a right shift by one) at each step and testing its low
   bit. `None` is the failed assertion.
   */
  method FindMemoryType(props: MemoryProperties, typeBits: U32, requirementsMask: set<MemoryPropertyFlag>)
    returns (r: Option<nat>)
    requires props.Valid()
    ensures r.Some? ==> r.value < |props.memoryTypes| && TypeAllowed(typeBits, r.value)
    ensures r.Some? ==> requirementsMask <= props.memoryTypes[r.value].propertyFlags
    ensures r.Some? ==> forall j :: 0 <= j < r.value ==> !Suitable(props, typeBits, requirementsMask, j)
    ensures r.None? <==> forall j :: !Suitable(props, typeBits, requirementsMask, j)
    ensures r == FirstSuitable(props, typeBits, requirementsMask, 0)
  {
    var bits := typeBits;
    var i: nat := 0;
    while i < |props.memoryTypes|
      invariant i <= |props.memoryTypes|
      invariant bits == ShiftedRight(typeBits, i)
      invariant FirstSuitable(props, typeBits, requirementsMask, i) == FirstSuitable(props, typeBits, requirementsMask, 0)
      decreases |props.memoryTypes| - i
    {
      if bits % 2 == 1 && requirementsMask <= props.memoryTypes[i].propertyFlags {
        return Some(i);
      }
      bits := bits / 2;
      i := i + 1;
    }
    return None;
  }

  /**
   With an empty requirements mask the property flags play no part: the
   selected type is the lowest one whose bit is set in `typeBits`, and there
   is none exactly when no bit below `memoryTypeCount` is set.
   */
  lemma EmptyMaskPicksLowestAllowed(props: MemoryProperties, typeBits: U32)
    requires props.Valid()
    ensures var r := FirstSuitable(props, typeBits, {}, 0);
      && (r.Some? ==> r.value < |props.memoryTypes| && TypeAllowed(typeBits, r.value))
      && (r.Some? ==> forall j :: 0 <= j < r.value ==> !TypeAllowed(typeBits, j))
      && (r.None? <==> forall j :: 0 <= j < |props.memoryTypes| ==> !TypeAllowed(typeBits, j))
  {
    var r := FirstSuitable(props, typeBits, {}, 0);
    if r.Some? {
      forall j | 0 <= j < r.value
        ensures !TypeAllowed(typeBits, j)
      {
        assert !Suitable(props, typeBits, {}, j);
      }
    } else {
      forall j | 0 <= j < |props.memoryTypes|
        ensures !TypeAllowed(typeBits, j)
      {
        assert !Suitable(props, typeBits, {}, j);
      }
    }
  }
}
