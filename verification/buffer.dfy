/**
 The raw `Buffer` of the renderer: its constructor and destructor as the
 sequence of Vulkan calls they make, and an interpreter that replays such a
 sequence against the usage rules of the Vulkan "Resource Creation" and
 "Device Memory" chapters for one buffer and its one memory allocation.
 */
module Buffers {
  import opened Wrappers
  import opened VkCommon
  import opened MemoryTypes

  type Byte = x: int | 0 <= x < 256

  /** `VkBufferUsageFlagBits` the renderer uses. */
  datatype BufferUsage = TransferSrc | TransferDst | UniformBuffer | StorageBuffer | VertexBuffer | IndexBuffer

  /** `VkMemoryRequirements` as the driver reports it for the created buffer. */
  datatype MemoryRequirements = MemoryRequirements(size: nat, alignment: nat, memoryTypeBits: U32)

  /** One Vulkan call made on behalf of a `Buffer`. */
  datatype Call =
    | CreateBuffer(size: nat, usage: set<BufferUsage>, sharingMode: SharingMode)
    | GetBufferMemoryRequirements
    | AllocateMemory(allocationSize: nat, memoryTypeIndex: nat)
    | MapMemory(offset: nat, size: nat)
    | CopyToMapped(bytes: seq<Byte>)
    | UnmapMemory
    | BindBufferMemory(memoryOffset: nat)
    | DestroyBuffer
    | FreeMemory

  datatype BufferError = NoSuitableMemoryType

  /**
   `Buffer::Buffer`: the calls it makes for a buffer of `size` bytes, given the
   memory requirements the driver reports. `data` is `None` for a null
   pointer; otherwise `memcpy` reads its first `size` bytes. The constructor
   cannot go on when no memory type is suitable.
   */
  function Construct(
    props: MemoryProperties, usage: set<BufferUsage>, memoryFlags: set<MemoryPropertyFlag>,
    size: nat, data: Option<seq<Byte>>, reqs: MemoryRequirements): (r: Result<seq<Call>, BufferError>)
    requires props.Valid()
    requires data.Some? ==> size <= |data.value|
    ensures r.Failure? <==> forall j :: !Suitable(props, reqs.memoryTypeBits, memoryFlags, j)
    ensures r.Success? ==>
      && 4 <= |r.value|
      && r.value[0] == CreateBuffer(size, usage, Exclusive)
      && r.value[|r.value| - 1] == BindBufferMemory(0)
      && FirstSuitable(props, reqs.memoryTypeBits, memoryFlags, 0).Some?
      && r.value[2] == AllocateMemory(reqs.size, FirstSuitable(props, reqs.memoryTypeBits, memoryFlags, 0).value)
  {
    match FirstSuitable(props, reqs.memoryTypeBits, memoryFlags, 0)
    case None => Failure(NoSuitableMemoryType)
    case Some(typeIndex) =>
      var prefix := [CreateBuffer(size, usage, Exclusive), GetBufferMemoryRequirements, AllocateMemory(reqs.size, typeIndex)];
      var upload := if data.Some? then [MapMemory(0, reqs.size), CopyToMapped(data.value[..size]), UnmapMemory] else [];
      Success(prefix + upload + [BindBufferMemory(0)])
  }

  /** `Buffer::~Buffer`: releases the buffer and its memory once each, the buffer first. */
  function Destruct(): (r: seq<Call>)
    ensures multiset(r) == multiset{DestroyBuffer, FreeMemory}
    ensures forall i, j :: 0 <= i < |r| && 0 <= j < |r| && r[i] == DestroyBuffer && r[j] == FreeMemory ==> i < j
  {
    [DestroyBuffer, FreeMemory]
  }

  /** A memory allocation: its size, memory type and the bytes written to it so far. */
  datatype Allocation = Allocation(size: nat, typeIndex: nat, contents: map<nat, Byte>)

  /** What exists for one buffer: the buffer object, its memory, a host mapping and a binding. */
  datatype State = State(buffer: bool, memory: Option<Allocation>, mapping: Option<(nat, nat)>, boundAt: Option<nat>)

  const Nothing: State := State(false, None, None, None)

  /** Device facts the calls are checked against. */
  datatype Env = Env(props: MemoryProperties, reqs: MemoryRequirements)

  /** `m` with `bytes` written one by one starting at `offset`, as `memcpy` does. */
  function Write(m: map<nat, Byte>, offset: nat, bytes: seq<Byte>): (r: map<nat, Byte>)
    decreases |bytes|
    ensures forall k :: k in r <==> k in m || offset <= k < offset + |bytes|
    ensures forall k :: offset <= k < offset + |bytes| ==> r[k] == bytes[k - offset]
    ensures forall k :: k in m && !(offset <= k < offset + |bytes|) ==> r[k] == m[k]
  {
    if bytes == [] then m else Write(m[offset := bytes[0]], offset + 1, bytes[1..])
  }

  /**
   One call, or `None` when the call breaks a usage rule: an object used
   before it exists or after it is released, a second allocation or binding,
   a map of memory that is not host-visible or a range past its end, a copy
   outside the mapped range, or a binding to a memory type the buffer does
   not allow or too small for the buffer's requirements.
   */
  function Step(env: Env, s: State, c: Call): Option<State> {
    match c
    case CreateBuffer(_, _, _) =>
      if s.buffer then None else Some(s.(buffer := true))
    case GetBufferMemoryRequirements =>
      if s.buffer then Some(s) else None
    case AllocateMemory(size, typeIndex) =>
      if s.memory.Some? || typeIndex >= |env.props.memoryTypes| then None
      else Some(s.(memory := Some(Allocation(size, typeIndex, map[]))))
    case MapMemory(offset, size) =>
      if && s.memory.Some? && s.mapping.None?
         && s.memory.value.typeIndex < |env.props.memoryTypes|
         && HostVisible in env.props.memoryTypes[s.memory.value.typeIndex].propertyFlags
         && offset + size <= s.memory.value.size
      then Some(s.(mapping := Some((offset, size))))
      else None
    case CopyToMapped(bytes) =>
      if s.memory.Some? && s.mapping.Some? && |bytes| <= s.mapping.value.1
      then
        var a := s.memory.value;
        Some(s.(memory := Some(a.(contents := Write(a.contents, s.mapping.value.0, bytes)))))
      else None
    case UnmapMemory =>
      if s.mapping.Some? then Some(s.(mapping := None)) else None
    case BindBufferMemory(offset) =>
      if && s.buffer && s.memory.Some? && s.boundAt.None?
         && TypeAllowed(env.reqs.memoryTypeBits, s.memory.value.typeIndex)
         && offset + env.reqs.size <= s.memory.value.size
      then Some(s.(boundAt := Some(offset)))
      else None
    case DestroyBuffer =>
      if s.buffer then Some(s.(buffer := false, boundAt := None)) else None
    case FreeMemory =>
      if s.memory.Some? then Some(s.(memory := None, mapping := None)) else None
  }

  /** Replays `calls` from `s`; `None` as soon as one breaks a usage rule. */
  function Run(env: Env, s: State, calls: seq<Call>): Option<State>
    decreases |calls|
  {
    if calls == [] then Some(s)
    else match Step(env, s, calls[0])
      case None => None
      case Some(t) => Run(env, t, calls[1..])
  }

  /** Replaying a concatenation is replaying its halves in turn. */
  lemma {:induction false} RunAppend(env: Env, s: State, a: seq<Call>, b: seq<Call>)
    ensures Run(env, s, a + b) == (match Run(env, s, a) case None => None case Some(t) => Run(env, t, b))
    decreases |a|
  {
    if a == [] {
      assert a + b == b;
    } else {
      assert (a + b)[0] == a[0];
      assert (a + b)[1..] == a[1..] + b;
      match Step(env, s, a[0])
      case None =>
      case Some(t) => RunAppend(env, t, a[1..], b);
    }
  }

  /**
   A constructed buffer obeys the usage rules and is ready for use: the buffer
   exists, it is bound at offset 0 to an allocation of the required size of
   the lowest suitable memory type, nothing is left mapped, and the memory
   holds exactly the first `size` bytes of `data` at offsets 0 .. size-1 when
   `data` is given and nothing otherwise. It relies on what the driver
   guarantees (the required size covers the created size) and, when `data` is
   given, on the selected memory type being host-visible so that it can be
   mapped.
   */
  lemma ConstructedBufferIsBound(
    props: MemoryProperties, usage: set<BufferUsage>, memoryFlags: set<MemoryPropertyFlag>,
    size: nat, data: Option<seq<Byte>>, reqs: MemoryRequirements, calls: seq<Call>)
    requires props.Valid()
    requires data.Some? ==> size <= |data.value|
    requires size <= reqs.size
    requires Construct(props, usage, memoryFlags, size, data, reqs) == Success(calls)
    requires data.Some? ==>
      HostVisible in props.memoryTypes[FirstSuitable(props, reqs.memoryTypeBits, memoryFlags, 0).value].propertyFlags
    ensures Run(Env(props, reqs), Nothing, calls).Some?
    ensures var s := Run(Env(props, reqs), Nothing, calls).value;
      && s.buffer && s.boundAt == Some(0) && s.mapping.None? && s.memory.Some?
      && s.memory.value.size == reqs.size
      && Suitable(props, reqs.memoryTypeBits, memoryFlags, s.memory.value.typeIndex)
      && s.memory.value.typeIndex == FirstSuitable(props, reqs.memoryTypeBits, memoryFlags, 0).value
      && (forall k :: k in s.memory.value.contents <==> data.Some? && 0 <= k < size)
      && (forall k :: k in s.memory.value.contents ==> s.memory.value.contents[k] == data.value[k])
  {
    var env := Env(props, reqs);
    var typeIndex := FirstSuitable(props, reqs.memoryTypeBits, memoryFlags, 0).value;
    var alloc := Allocation(reqs.size, typeIndex, map[]);
    var prefix := [CreateBuffer(size, usage, Exclusive), GetBufferMemoryRequirements, AllocateMemory(reqs.size, typeIndex)];
    var s3 := State(true, Some(alloc), None, None);
    assert Run(env, Nothing, prefix) == Some(s3) by {
      var s1 := State(true, None, None, None);
      assert Step(env, Nothing, prefix[0]) == Some(s1);
      assert prefix[1..] == [GetBufferMemoryRequirements, AllocateMemory(reqs.size, typeIndex)];
      assert Step(env, s1, prefix[1]) == Some(s1);
      assert prefix[1..][1..] == [AllocateMemory(reqs.size, typeIndex)];
      assert Step(env, s1, prefix[2]) == Some(s3);
      assert prefix[1..][1..][1..] == [];
      assert Run(env, s3, []) == Some(s3);
      assert Run(env, s1, prefix[1..][1..]) == Some(s3);
      assert Run(env, s1, prefix[1..]) == Some(s3);
    }
    var upload := if data.Some? then [MapMemory(0, reqs.size), CopyToMapped(data.value[..size]), UnmapMemory] else [];
    var s6 := if data.Some? then s3.(memory := Some(alloc.(contents := Write(map[], 0, data.value[..size])))) else s3;
    assert Run(env, s3, upload) == Some(s6) by {
      if data.Some? {
        var bytes := data.value[..size];
        var s4 := s3.(mapping := Some((0, reqs.size)));
        var s5 := s4.(memory := Some(alloc.(contents := Write(map[], 0, bytes))));
        assert Step(env, s3, upload[0]) == Some(s4);
        assert upload[1..] == [CopyToMapped(bytes), UnmapMemory];
        assert Step(env, s4, upload[1]) == Some(s5);
        assert upload[1..][1..] == [UnmapMemory];
        assert Step(env, s5, upload[2]) == Some(s6);
        assert upload[1..][1..][1..] == [];
        assert Run(env, s6, []) == Some(s6);
        assert Run(env, s5, upload[1..][1..]) == Some(s6);
        assert Run(env, s4, upload[1..]) == Some(s6);
      }
    }
    var bind := [BindBufferMemory(0)];
    assert bind[1..] == [];
    assert Run(env, s6, bind) == Some(s6.(boundAt := Some(0)));
    assert calls == prefix + upload + bind;
    RunAppend(env, Nothing, prefix + upload, bind);
    RunAppend(env, Nothing, prefix, upload);
    assert Run(env, Nothing, calls) == Some(s6.(boundAt := Some(0)));
    if data.Some? {
      assert |data.value[..size]| == size;
    }
  }

  /**
   The whole lifetime, constructor then destructor, obeys the usage rules and
   leaves nothing behind: the buffer is destroyed and its memory freed, each
   exactly once, with the buffer destroyed first.
   */
  lemma LifetimeReleasesEverything(
    props: MemoryProperties, usage: set<BufferUsage>, memoryFlags: set<MemoryPropertyFlag>,
    size: nat, data: Option<seq<Byte>>, reqs: MemoryRequirements, calls: seq<Call>)
    requires props.Valid()
    requires data.Some? ==> size <= |data.value|
    requires size <= reqs.size
    requires Construct(props, usage, memoryFlags, size, data, reqs) == Success(calls)
    requires data.Some? ==>
      HostVisible in props.memoryTypes[FirstSuitable(props, reqs.memoryTypeBits, memoryFlags, 0).value].propertyFlags
    ensures Run(Env(props, reqs), Nothing, calls + Destruct()) == Some(Nothing)
    ensures multiset(calls + Destruct())[DestroyBuffer] == 1
    ensures multiset(calls + Destruct())[FreeMemory] == 1
  {
    var env := Env(props, reqs);
    ConstructedBufferIsBound(props, usage, memoryFlags, size, data, reqs, calls);
    assert Run(env, Run(env, Nothing, calls).value, Destruct()) == Some(Nothing) by {
      DestructReleases(env, Run(env, Nothing, calls).value);
    }
    RunAppend(env, Nothing, calls, Destruct());
    assert DestroyBuffer !in calls && FreeMemory !in calls by {
      ConstructReleasesNothing(props, usage, memoryFlags, size, data, reqs, calls);
    }
    DestructCounts(calls);
  }

  /** The destructor takes a bound, unmapped buffer and its memory back to nothing. */
  lemma DestructReleases(env: Env, s: State)
    requires s.buffer && s.memory.Some? && s.mapping.None?
    ensures Run(env, s, Destruct()) == Some(Nothing)
  {
    var d := Destruct();
    var s1 := s.(buffer := false, boundAt := None);
    assert Step(env, s, d[0]) == Some(s1);
    assert d[1..] == [FreeMemory];
    assert Step(env, s1, d[1]) == Some(Nothing);
    assert d[1..][1..] == [];
  }

  /** The constructor neither destroys the buffer nor frees the memory. */
  lemma ConstructReleasesNothing(
    props: MemoryProperties, usage: set<BufferUsage>, memoryFlags: set<MemoryPropertyFlag>,
    size: nat, data: Option<seq<Byte>>, reqs: MemoryRequirements, calls: seq<Call>)
    requires props.Valid()
    requires data.Some? ==> size <= |data.value|
    requires Construct(props, usage, memoryFlags, size, data, reqs) == Success(calls)
    ensures DestroyBuffer !in calls && FreeMemory !in calls
  {
  }

  lemma DestructCounts(calls: seq<Call>)
    requires DestroyBuffer !in calls && FreeMemory !in calls
    ensures multiset(calls + Destruct())[DestroyBuffer] == 1
    ensures multiset(calls + Destruct())[FreeMemory] == 1
  {
    assert multiset(calls + Destruct()) == multiset(calls) + multiset{DestroyBuffer, FreeMemory};
  }
}
