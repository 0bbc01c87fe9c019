/**
 The `Executor` resource bundle: what its constructor creates and what
 `destroy()` releases, as sequences of Vulkan calls, replayed against the
 objects they bring into and out of existence.
 */
module Executors {
  import opened Wrappers

  datatype DescriptorType = UniformBuffer | StorageBuffer | CombinedImageSampler | StorageImage
  datatype ShaderStage = VertexStage | FragmentStage | ComputeStage

  /** `VkDescriptorSetLayoutBinding`. */
  datatype DescriptorSetLayoutBinding = DescriptorSetLayoutBinding(
    binding: nat, descriptorType: DescriptorType, descriptorCount: nat, stageFlags: set<ShaderStage>)

  /** `VkCommandPoolCreateFlagBits`. */
  datatype CommandPoolFlag = Transient | ResetCommandBuffer | ProtectedPool

  /** `VkCommandBufferLevel`. */
  datatype CommandBufferLevel = Primary | Secondary

  /** The objects an executor comes to hold. */
  datatype Object =
    | DescriptorSetLayout | DescriptorSet | PipelineLayout | Queue | CommandPool | CommandBuffer
    | Pipeline(name: string)

  /** One Vulkan call made on an executor's objects. */
  datatype Call =
    | CreateDescriptorSetLayout(bindings: seq<DescriptorSetLayoutBinding>)
    | AllocateDescriptorSets(descriptorPool: nat, descriptorSetCount: nat)
    | CreatePipelineLayout(setLayoutCount: nat)
    | GetDeviceQueue(queueFamilyIndex: nat, queueIndex: nat)
    | CreateCommandPool(flags: set<CommandPoolFlag>, queueFamilyIndex: nat)
    | AllocateCommandBuffers(level: CommandBufferLevel, commandBufferCount: nat)
    | CreatePipeline(name: string)
    | DestroyPipeline(name: string)
    | DestroyPipelineLayout
    | DestroyDescriptorSetLayout
    | FreeDescriptorSets
    | FreeCommandBuffers
    | DestroyCommandPool

  /** The public fields of an `Executor` that are plain values. */
  datatype Executor = Executor(queueFamilyIndex: nat, pipelines: map<string, nat>)

  /**
   `Executor::Executor`, as written: the calls it makes, in order, and the
   executor it leaves. `queueFamilyIndex` keeps its in-class default of 0
   whatever family the queue and command pool are made for.
   */
  function Construct(queueFamilyIndex: nat, descriptorPool: nat, bindings: seq<DescriptorSetLayoutBinding>): (r: (Executor, seq<Call>))
    ensures r.0.pipelines == map[]
    ensures r.0.queueFamilyIndex == 0
    ensures CreateCommandPool({ResetCommandBuffer}, queueFamilyIndex) in r.1
    ensures GetDeviceQueue(queueFamilyIndex, 0) in r.1
    ensures AllocateDescriptorSets(descriptorPool, 1) in r.1 && AllocateCommandBuffers(Primary, 1) in r.1
    ensures forall c :: c in r.1 ==> !c.AllocateDescriptorSets? || c.descriptorSetCount == 1
  {
    (Executor(0, map[]),
     [ CreateDescriptorSetLayout(bindings),
       AllocateDescriptorSets(descriptorPool, 1),
       CreatePipelineLayout(1),
       GetDeviceQueue(queueFamilyIndex, 0),
       CreateCommandPool({ResetCommandBuffer}, queueFamilyIndex),
       AllocateCommandBuffers(Primary, 1) ])
  }

  /** The constructor with `queueFamilyIndex` recorded, as its public field evidently intends. */
  function ConstructIntended(queueFamilyIndex: nat, descriptorPool: nat, bindings: seq<DescriptorSetLayoutBinding>): (r: (Executor, seq<Call>))
    ensures r.0.queueFamilyIndex == queueFamilyIndex
    ensures r.0.pipelines == map[]
    ensures r.1 == Construct(queueFamilyIndex, descriptorPool, bindings).1
  {
    var (e, calls) := Construct(queueFamilyIndex, descriptorPool, bindings);
    (e.(queueFamilyIndex := queueFamilyIndex), calls)
  }

  /** The as-written constructor drops the family: made for family 1, the field reads 0. */
  lemma QueueFamilyIndexNotRecorded()
    ensures Construct(1, 0, []).0.queueFamilyIndex == 0
    ensures ConstructIntended(1, 0, []).0.queueFamilyIndex == 1
  {
  }

  /** `order` lists every key of the pipelines map exactly once: one iteration order of the `unordered_map`. */
  predicate Enumerates(order: seq<string>, keys: set<string>) {
    && (forall i :: 0 <= i < |order| ==> order[i] in keys)
    && (forall k :: k in keys ==> k in order)
    && (forall i, j :: 0 <= i < j < |order| ==> order[i] != order[j])
  }

  function DestroyPipelines(order: seq<string>): (r: seq<Call>)
    ensures |r| == |order|
    ensures forall i :: 0 <= i < |order| ==> r[i] == DestroyPipeline(order[i])
  {
    if order == [] then [] else [DestroyPipeline(order[0])] + DestroyPipelines(order[1..])
  }

  /** The calls after the pipelines in `destroy()`. */
  const Teardown: seq<Call> := [DestroyPipelineLayout, DestroyDescriptorSetLayout, FreeCommandBuffers, DestroyCommandPool]

  /**
   `Executor::destroy`: every pipeline of the map in the map's iteration
   order, then the fixed teardown; the map is left empty.
   */
  function Destroy(e: Executor, order: seq<string>): (r: (Executor, seq<Call>))
    requires Enumerates(order, e.pipelines.Keys)
    ensures r.0.pipelines == map[] && r.0.queueFamilyIndex == e.queueFamilyIndex
    ensures |r.1| == |e.pipelines| + 4
    ensures forall k :: k in e.pipelines ==> DestroyPipeline(k) in r.1
  {
    assert |order| == |e.pipelines| by { DistinctEnumerationSize(order, e.pipelines.Keys); }
    (e.(pipelines := map[]), DestroyPipelines(order) + Teardown)
  }

  lemma {:induction false} DistinctEnumerationSize(order: seq<string>, keys: set<string>)
    requires Enumerates(order, keys)
    ensures |order| == |keys|
    decreases |order|
  {
    if order != [] {
      var rest := order[1..];
      assert Enumerates(rest, keys - {order[0]}) by {
        forall k | k in keys - {order[0]}
          ensures k in rest
        {
          var i :| 0 <= i < |order| && order[i] == k;
          assert i != 0;
          assert rest[i - 1] == k;
        }
        forall i | 0 <= i < |rest|
          ensures rest[i] in keys - {order[0]}
        {
          assert rest[i] == order[i + 1];
        }
      }
      DistinctEnumerationSize(rest, keys - {order[0]});
    } else {
      assert keys == {};
    }
  }

  /** `m` with one copy of `o` removed, or `None` when it holds none. */
  function Release(m: multiset<Object>, o: Object): Option<multiset<Object>> {
    if o in m then Some(m - multiset{o}) else None
  }

  /** `m` with `n` more copies of `o`. */
  function Add(m: multiset<Object>, o: Object, n: nat): (r: multiset<Object>)
    ensures r[o] == m[o] + n
    ensures forall p :: p != o ==> r[p] == m[p]
  {
    m[o := m[o] + n]
  }

  /**
   One call against the multiset of live objects, or `None` when it breaks a
   usage rule: creating what already exists, allocating zero objects, using
   a layout or pool that does not exist, or releasing what is not live.
   Destroying the command pool also frees the command buffers left in it.
   */
  function Step(live: multiset<Object>, c: Call): Option<multiset<Object>> {
    match c
    case CreateDescriptorSetLayout(_) =>
      if DescriptorSetLayout in live then None else Some(Add(live, DescriptorSetLayout, 1))
    case AllocateDescriptorSets(_, n) =>
      if DescriptorSetLayout in live && n >= 1 then Some(Add(live, DescriptorSet, n)) else None
    case CreatePipelineLayout(n) =>
      if DescriptorSetLayout in live && PipelineLayout !in live && n >= 1 then Some(Add(live, PipelineLayout, 1)) else None
    case GetDeviceQueue(_, _) =>
      if Queue in live then None else Some(Add(live, Queue, 1))
    case CreateCommandPool(_, _) =>
      if CommandPool in live then None else Some(Add(live, CommandPool, 1))
    case AllocateCommandBuffers(_, n) =>
      if CommandPool in live && n >= 1 then Some(Add(live, CommandBuffer, n)) else None
    case CreatePipeline(name) =>
      if PipelineLayout in live && Pipeline(name) !in live then Some(Add(live, Pipeline(name), 1)) else None
    case DestroyPipeline(name) => Release(live, Pipeline(name))
    case DestroyPipelineLayout => Release(live, PipelineLayout)
    case DestroyDescriptorSetLayout => Release(live, DescriptorSetLayout)
    case FreeDescriptorSets => Release(live, DescriptorSet)
    case FreeCommandBuffers =>
      if CommandPool in live then Release(live, CommandBuffer) else None
    case DestroyCommandPool =>
      if CommandPool in live then Some(live[CommandPool := 0][CommandBuffer := 0]) else None
  }

  /** Replays `calls` from `live`; `None` as soon as one breaks a usage rule. */
  function Run(live: multiset<Object>, calls: seq<Call>): Option<multiset<Object>>
    decreases |calls|
  {
    if calls == [] then Some(live)
    else match Step(live, calls[0])
      case None => None
      case Some(next) => Run(next, calls[1..])
  }

  lemma {:induction false} RunAppend(live: multiset<Object>, a: seq<Call>, b: seq<Call>)
    ensures Run(live, a + b) == (match Run(live, a) case None => None case Some(m) => Run(m, b))
    decreases |a|
  {
    if a == [] {
      assert a + b == b;
    } else {
      assert (a + b)[0] == a[0];
      assert (a + b)[1..] == a[1..] + b;
      match Step(live, a[0])
      case None =>
      case Some(next) => RunAppend(next, a[1..], b);
    }
  }

  /** What the constructor leaves live: one of each, a single descriptor set and a single command buffer. */
  const Constructed: multiset<Object> :=
    multiset{DescriptorSetLayout, DescriptorSet, PipelineLayout, Queue, CommandPool, CommandBuffer}

  /**
   No step of the constructor breaks a usage rule; afterwards exactly one
   descriptor set and exactly one command buffer exist besides the layouts,
   the queue and the pool. The order of the steps is `ConstructOrder`, and
   the dependencies the rules impose on it are `ConstructionDependencies`.
   */
  lemma ConstructionIsValid(queueFamilyIndex: nat, descriptorPool: nat, bindings: seq<DescriptorSetLayoutBinding>)
    ensures Run(multiset{}, ConstructIntended(queueFamilyIndex, descriptorPool, bindings).1) == Some(Constructed)
  {
    var calls := ConstructIntended(queueFamilyIndex, descriptorPool, bindings).1;
    ConstructorSteps(calls);
  }

  /** Replaying a non-empty trace whose first call succeeds is replaying the rest from there. */
  lemma RunFirst(live: multiset<Object>, calls: seq<Call>, next: multiset<Object>)
    requires calls != [] && Step(live, calls[0]) == Some(next)
    ensures Run(live, calls) == Run(next, calls[1..])
  {
  }

  lemma ConstructorSteps(calls: seq<Call>)
    requires |calls| == 6
    requires calls[0].CreateDescriptorSetLayout?
    requires calls[1].AllocateDescriptorSets? && calls[1].descriptorSetCount == 1
    requires calls[2] == CreatePipelineLayout(1)
    requires calls[3].GetDeviceQueue?
    requires calls[4].CreateCommandPool?
    requires calls[5].AllocateCommandBuffers? && calls[5].commandBufferCount == 1
    ensures Run(multiset{}, calls) == Some(Constructed)
  {
    var m3 := multiset{DescriptorSetLayout, DescriptorSet, PipelineLayout};
    var rest := calls[1..][1..][1..];
    assert rest == calls[3..];
    assert Run(multiset{}, calls) == Run(m3, rest) by { LayoutSteps(calls); }
    QueueAndPoolSteps(rest);
  }

  /** The descriptor-set layout, the descriptor set and the pipeline layout, in turn. */
  lemma LayoutSteps(calls: seq<Call>)
    requires |calls| >= 3
    requires calls[0].CreateDescriptorSetLayout?
    requires calls[1].AllocateDescriptorSets? && calls[1].descriptorSetCount == 1
    requires calls[2] == CreatePipelineLayout(1)
    ensures Run(multiset{}, calls) == Run(multiset{DescriptorSetLayout, DescriptorSet, PipelineLayout}, calls[1..][1..][1..])
  {
    var m0: multiset<Object> := multiset{};
    var m1 := multiset{DescriptorSetLayout};
    var m2 := multiset{DescriptorSetLayout, DescriptorSet};
    var m3 := multiset{DescriptorSetLayout, DescriptorSet, PipelineLayout};
    var c1 := calls[1..];
    var c2 := c1[1..];
    assert c1[0] == calls[1] && c2[0] == calls[2];
    assert Add(m0, DescriptorSetLayout, 1) == m1;
    assert Add(m1, DescriptorSet, 1) == m2;
    assert Add(m2, PipelineLayout, 1) == m3;
    RunFirst(m0, calls, m1);
    RunFirst(m1, c1, m2);
    RunFirst(m2, c2, m3);
  }

  /** The queue, the command pool and its command buffer, in turn. */
  lemma QueueAndPoolSteps(calls: seq<Call>)
    requires |calls| == 3
    requires calls[0].GetDeviceQueue?
    requires calls[1].CreateCommandPool?
    requires calls[2].AllocateCommandBuffers? && calls[2].commandBufferCount == 1
    ensures Run(multiset{DescriptorSetLayout, DescriptorSet, PipelineLayout}, calls) == Some(Constructed)
  {
    var m3 := multiset{DescriptorSetLayout, DescriptorSet, PipelineLayout};
    var m4 := Add(m3, Queue, 1);
    var m5 := Add(m4, CommandPool, 1);
    var m6 := Add(m5, CommandBuffer, 1);
    var c1 := calls[1..];
    var c2 := c1[1..];
    assert c1[0] == calls[1] && c2[0] == calls[2] && c2[1..] == [];
    RunFirst(m3, calls, m4);
    RunFirst(m4, c1, m5);
    RunFirst(m5, c2, m6);
    assert m6 == Constructed by { ConstructedByAdding(); }
  }

  lemma ConstructedByAdding()
    ensures Add(Add(Add(multiset{DescriptorSetLayout, DescriptorSet, PipelineLayout}, Queue, 1), CommandPool, 1), CommandBuffer, 1)
      == Constructed
  {
  }

  /**
   The creation order of the constructor: the descriptor-set layout, one
   descriptor set from the given pool, the pipeline layout over one set
   layout, queue 0 of the given family, a pool for that family whose command
   buffers can be reset individually, and one primary command buffer.
   */
  lemma ConstructOrder(queueFamilyIndex: nat, descriptorPool: nat, bindings: seq<DescriptorSetLayoutBinding>)
    ensures var calls := ConstructIntended(queueFamilyIndex, descriptorPool, bindings).1;
      && |calls| == 6
      && calls[0] == CreateDescriptorSetLayout(bindings)
      && calls[1] == AllocateDescriptorSets(descriptorPool, 1)
      && calls[2] == CreatePipelineLayout(1)
      && calls[3] == GetDeviceQueue(queueFamilyIndex, 0)
      && calls[4] == CreateCommandPool({ResetCommandBuffer}, queueFamilyIndex)
      && calls[5] == AllocateCommandBuffers(Primary, 1)
  {
  }

  /**
   The dependencies the usage rules impose on construction: a descriptor set
   cannot be allocated, nor a pipeline layout created, before the set layout,
   and a command buffer cannot be allocated before its pool.
   */
  lemma ConstructionDependencies(descriptorPool: nat, bindings: seq<DescriptorSetLayoutBinding>)
    ensures Run(multiset{}, [AllocateDescriptorSets(descriptorPool, 1), CreateDescriptorSetLayout(bindings)]).None?
    ensures Run(multiset{}, [CreatePipelineLayout(1), CreateDescriptorSetLayout(bindings)]).None?
    ensures Run(multiset{}, [AllocateCommandBuffers(Primary, 1), CreateCommandPool({ResetCommandBuffer}, 0)]).None?
  {
  }

  /** The pipelines named in `names`. */
  function Pipelines(names: seq<string>): (r: multiset<Object>)
    ensures forall o :: o in r ==> o.Pipeline?
  {
    if names == [] then multiset{} else multiset{Pipeline(names[0])} + Pipelines(names[1..])
  }

  /** The calls that fill the pipelines map, one pipeline per name. */
  function CreatePipelines(names: seq<string>): seq<Call> {
    if names == [] then [] else [CreatePipeline(names[0])] + CreatePipelines(names[1..])
  }

  lemma {:induction false} CreatingPipelinesIsValid(live: multiset<Object>, names: seq<string>)
    requires PipelineLayout in live
    requires forall i :: 0 <= i < |names| ==> Pipeline(names[i]) !in live
    requires forall i, j :: 0 <= i < j < |names| ==> names[i] != names[j]
    ensures Run(live, CreatePipelines(names)) == Some(live + Pipelines(names))
    decreases |names|
  {
    if names != [] {
      var next := live + multiset{Pipeline(names[0])};
      assert Add(live, Pipeline(names[0]), 1) == next;
      assert Step(live, CreatePipeline(names[0])) == Some(next);
      forall i | 0 <= i < |names[1..]|
        ensures Pipeline(names[1..][i]) !in next
      {
        assert names[1..][i] == names[i + 1];
      }
      CreatingPipelinesIsValid(next, names[1..]);
      assert CreatePipelines(names)[0] == CreatePipeline(names[0]);
      assert CreatePipelines(names)[1..] == CreatePipelines(names[1..]);
      assert next + Pipelines(names[1..]) == live + Pipelines(names);
    } else {
      assert live + Pipelines(names) == live;
    }
  }

  lemma {:induction false} DestroyingPipelinesIsValid(rest: multiset<Object>, order: seq<string>)
    requires forall o :: o in rest ==> !o.Pipeline?
    ensures Run(rest + Pipelines(order), DestroyPipelines(order)) == Some(rest)
    decreases |order|
  {
    if order == [] {
      assert rest + Pipelines(order) == rest;
    } else {
      var live := rest + Pipelines(order);
      var next := rest + Pipelines(order[1..]);
      assert live == next + multiset{Pipeline(order[0])};
      assert live - multiset{Pipeline(order[0])} == next;
      assert Step(live, DestroyPipeline(order[0])) == Some(next);
      assert DestroyPipelines(order)[1..] == DestroyPipelines(order[1..]);
      DestroyingPipelinesIsValid(rest, order[1..]);
    }
  }

  /** A distinct enumeration of the names creates the same pipelines as the names themselves. */
  lemma {:induction false} EnumerationSamePipelines(names: seq<string>, order: seq<string>)
    requires forall i, j :: 0 <= i < j < |names| ==> names[i] != names[j]
    requires Enumerates(order, set n | n in names)
    ensures Pipelines(order) == Pipelines(names)
  {
    PipelinesCount(names);
    PipelinesCount(order);
    forall o
      ensures Pipelines(order)[o] == Pipelines(names)[o]
    {
      if o.Pipeline? {
        var n := o.name;
        if n in names {
          var i :| 0 <= i < |names| && names[i] == n;
          assert n in order;
        } else {
          assert n !in order;
        }
      }
    }
  }

  /** In a list of distinct names a pipeline occurs once if its name is listed and not at all otherwise. */
  lemma {:induction false} PipelinesCount(names: seq<string>)
    requires forall i, j :: 0 <= i < j < |names| ==> names[i] != names[j]
    ensures forall n :: Pipelines(names)[Pipeline(n)] == (if n in names then 1 else 0)
    decreases |names|
  {
    if names != [] {
      PipelinesCount(names[1..]);
      forall n
        ensures Pipelines(names)[Pipeline(n)] == (if n in names then 1 else 0)
      {
        if n == names[0] {
          assert n !in names[1..] by {
            forall i | 0 <= i < |names[1..]|
              ensures names[1..][i] != n
            {
              assert names[1..][i] == names[i + 1];
            }
          }
        } else {
          assert n in names <==> n in names[1..];
        }
      }
    }
  }

  /**
   The fixed teardown after the pipelines: from what the constructor left, it
   releases the pipeline layout, the descriptor-set layout, the command buffer
   and the pool, leaving the descriptor set and the queue.
   */
  lemma TeardownLeavesSetAndQueue()
    ensures Run(Constructed, Teardown) == Some(multiset{DescriptorSet, Queue})
  {
    var m2 := multiset{DescriptorSet, Queue, CommandPool, CommandBuffer};
    var t2 := Teardown[1..][1..];
    assert t2 == [FreeCommandBuffers, DestroyCommandPool];
    assert Run(m2, t2) == Some(multiset{DescriptorSet, Queue}) by { PoolTeardown(); }
    assert Run(Constructed, Teardown) == Run(m2, t2) by { LayoutTeardown(); }
  }

  lemma LayoutTeardown()
    ensures Run(Constructed, Teardown) == Run(multiset{DescriptorSet, Queue, CommandPool, CommandBuffer}, Teardown[1..][1..])
  {
    var m1 := multiset{DescriptorSetLayout, DescriptorSet, Queue, CommandPool, CommandBuffer};
    assert Run(Constructed, Teardown) == Run(m1, Teardown[1..]) by { PipelineLayoutTeardown(); }
    DescriptorSetLayoutTeardown(Teardown[1..]);
  }

  lemma PipelineLayoutTeardown()
    ensures Run(Constructed, Teardown)
      == Run(multiset{DescriptorSetLayout, DescriptorSet, Queue, CommandPool, CommandBuffer}, Teardown[1..])
  {
    assert Constructed - multiset{PipelineLayout} == multiset{DescriptorSetLayout, DescriptorSet, Queue, CommandPool, CommandBuffer};
    RunFirst(Constructed, Teardown, multiset{DescriptorSetLayout, DescriptorSet, Queue, CommandPool, CommandBuffer});
  }

  lemma DescriptorSetLayoutTeardown(calls: seq<Call>)
    requires calls != [] && calls[0] == DestroyDescriptorSetLayout
    ensures Run(multiset{DescriptorSetLayout, DescriptorSet, Queue, CommandPool, CommandBuffer}, calls)
      == Run(multiset{DescriptorSet, Queue, CommandPool, CommandBuffer}, calls[1..])
  {
    var m1 := multiset{DescriptorSetLayout, DescriptorSet, Queue, CommandPool, CommandBuffer};
    assert m1 - multiset{DescriptorSetLayout} == multiset{DescriptorSet, Queue, CommandPool, CommandBuffer};
    RunFirst(m1, calls, multiset{DescriptorSet, Queue, CommandPool, CommandBuffer});
  }

  lemma PoolTeardown()
    ensures Run(multiset{DescriptorSet, Queue, CommandPool, CommandBuffer}, [FreeCommandBuffers, DestroyCommandPool])
      == Some(multiset{DescriptorSet, Queue})
  {
    var m2 := multiset{DescriptorSet, Queue, CommandPool, CommandBuffer};
    var m3 := multiset{DescriptorSet, Queue, CommandPool};
    var m4 := multiset{DescriptorSet, Queue};
    assert m2 - multiset{CommandBuffer} == m3;
    RunFirst(m2, [FreeCommandBuffers, DestroyCommandPool], m3);
    assert [FreeCommandBuffers, DestroyCommandPool][1..] == [DestroyCommandPool];
    assert m3[CommandPool := 0][CommandBuffer := 0] == m4;
    RunFirst(m3, [DestroyCommandPool], m4);
    assert [DestroyCommandPool][1..] == [];
  }

  /**
   The whole lifetime of an executor: construction, the pipelines the caller
   adds under the distinct `names` (the keys of `pipelines`), then `destroy()`
   once from the destructor, in any iteration order of the map. Every step
   obeys the usage rules and what stays live is exactly one descriptor set,
   which goes with its descriptor pool, and the queue, which belongs to the
   device: every other object is released exactly once.
   */
  lemma LifetimeReleasesOnce(
    queueFamilyIndex: nat, descriptorPool: nat, bindings: seq<DescriptorSetLayoutBinding>,
    pipelines: map<string, nat>, names: seq<string>, order: seq<string>)
    requires forall i, j :: 0 <= i < j < |names| ==> names[i] != names[j]
    requires pipelines.Keys == set n | n in names
    requires Enumerates(order, pipelines.Keys)
    ensures Run(multiset{},
      ConstructIntended(queueFamilyIndex, descriptorPool, bindings).1
      + CreatePipelines(names)
      + Destroy(ConstructIntended(queueFamilyIndex, descriptorPool, bindings).0.(pipelines := pipelines), order).1)
      == Some(multiset{DescriptorSet, Queue})
  {
    var built := ConstructIntended(queueFamilyIndex, descriptorPool, bindings).1;
    var released := Destroy(ConstructIntended(queueFamilyIndex, descriptorPool, bindings).0.(pipelines := pipelines), order).1;
    ConstructionIsValid(queueFamilyIndex, descriptorPool, bindings);
    LifetimeFrom(built, names, order, released);
  }

  lemma LifetimeFrom(built: seq<Call>, names: seq<string>, order: seq<string>, released: seq<Call>)
    requires Run(multiset{}, built) == Some(Constructed)
    requires forall i, j :: 0 <= i < j < |names| ==> names[i] != names[j]
    requires Enumerates(order, set n | n in names)
    requires released == DestroyPipelines(order) + Teardown
    ensures Run(multiset{}, built + CreatePipelines(names) + released) == Some(multiset{DescriptorSet, Queue})
  {
    var withPipelines := Constructed + Pipelines(names);
    assert Run(multiset{}, built + CreatePipelines(names)) == Some(withPipelines) by {
      BuildPipelines(built, names);
    }
    assert Run(withPipelines, released) == Some(multiset{DescriptorSet, Queue}) by {
      ReleaseAll(names, order, released);
    }
    RunAppend(multiset{}, built + CreatePipelines(names), released);
  }

  lemma BuildPipelines(built: seq<Call>, names: seq<string>)
    requires Run(multiset{}, built) == Some(Constructed)
    requires forall i, j :: 0 <= i < j < |names| ==> names[i] != names[j]
    ensures Run(multiset{}, built + CreatePipelines(names)) == Some(Constructed + Pipelines(names))
  {
    CreatingPipelinesIsValid(Constructed, names);
    RunAppend(multiset{}, built, CreatePipelines(names));
  }

  lemma ReleaseAll(names: seq<string>, order: seq<string>, released: seq<Call>)
    requires forall i, j :: 0 <= i < j < |names| ==> names[i] != names[j]
    requires Enumerates(order, set n | n in names)
    requires released == DestroyPipelines(order) + Teardown
    ensures Run(Constructed + Pipelines(names), released) == Some(multiset{DescriptorSet, Queue})
  {
    TeardownLeavesSetAndQueue();
    assert forall o :: o in Constructed ==> !o.Pipeline?;
    ReleaseAllFrom(Constructed, multiset{DescriptorSet, Queue}, names, order, released);
  }

  lemma ReleaseAllFrom(rest: multiset<Object>, final: multiset<Object>, names: seq<string>, order: seq<string>, released: seq<Call>)
    requires forall o :: o in rest ==> !o.Pipeline?
    requires Run(rest, Teardown) == Some(final)
    requires forall i, j :: 0 <= i < j < |names| ==> names[i] != names[j]
    requires Enumerates(order, set n | n in names)
    requires released == DestroyPipelines(order) + Teardown
    ensures Run(rest + Pipelines(names), released) == Some(final)
  {
    EnumerationSamePipelines(names, order);
    DestroyingPipelinesIsValid(rest, order);
    RunAppend(rest + Pipelines(names), DestroyPipelines(order), Teardown);
  }

  /**
   What `destroy()` releases: each pipeline of the map once, then the
   pipeline layout, the descriptor-set layout, the command buffer and the
   pool once each. The descriptor set is never freed individually and no call
   touches the queue.
   */
  lemma DestroyReleasesEachOnce(e: Executor, order: seq<string>)
    requires Enumerates(order, e.pipelines.Keys)
    ensures var released := Destroy(e, order).1;
      && (forall k :: k in e.pipelines ==> multiset(released)[DestroyPipeline(k)] == 1)
      && multiset(released)[DestroyPipelineLayout] == 1
      && multiset(released)[DestroyDescriptorSetLayout] == 1
      && multiset(released)[FreeCommandBuffers] == 1
      && multiset(released)[DestroyCommandPool] == 1
      && FreeDescriptorSets !in released
  {
    assert Destroy(e, order).1 == DestroyPipelines(order) + Teardown;
    ReleasedCounts(e.pipelines.Keys, order, DestroyPipelines(order), Destroy(e, order).1);
  }

  lemma ReleasedCounts(keys: set<string>, order: seq<string>, ps: seq<Call>, released: seq<Call>)
    requires Enumerates(order, keys)
    requires ps == DestroyPipelines(order)
    requires released == ps + Teardown
    ensures forall k :: k in keys ==> multiset(released)[DestroyPipeline(k)] == 1
    ensures multiset(released)[DestroyPipelineLayout] == 1
    ensures multiset(released)[DestroyDescriptorSetLayout] == 1
    ensures multiset(released)[FreeCommandBuffers] == 1
    ensures multiset(released)[DestroyCommandPool] == 1
    ensures FreeDescriptorSets !in released
  {
    TeardownCounts(ps, released);
    PipelineCounts(keys, order, ps);
  }

  lemma PipelineCounts(keys: set<string>, order: seq<string>, ps: seq<Call>)
    requires Enumerates(order, keys)
    requires ps == DestroyPipelines(order)
    ensures forall k :: k in keys ==> multiset(ps)[DestroyPipeline(k)] == 1
  {
    forall k | k in keys
      ensures multiset(ps)[DestroyPipeline(k)] == 1
    {
      var i :| 0 <= i < |order| && order[i] == k;
      DestroyPipelinesCount(order, i);
    }
  }

  lemma TeardownCounts(ps: seq<Call>, released: seq<Call>)
    requires released == ps + Teardown
    requires forall i :: 0 <= i < |ps| ==> ps[i].DestroyPipeline?
    ensures forall c: Call :: c.DestroyPipeline? ==> multiset(released)[c] == multiset(ps)[c]
    ensures multiset(released)[DestroyPipelineLayout] == 1
    ensures multiset(released)[DestroyDescriptorSetLayout] == 1
    ensures multiset(released)[FreeCommandBuffers] == 1
    ensures multiset(released)[DestroyCommandPool] == 1
    ensures FreeDescriptorSets !in released
  {
    var td := multiset{DestroyPipelineLayout, DestroyDescriptorSetLayout, FreeCommandBuffers, DestroyCommandPool};
    assert multiset(released) == multiset(ps) + td by {
      assert multiset(Teardown) == td;
    }
    forall c: Call | !c.DestroyPipeline?
      ensures multiset(ps)[c] == 0
    {
      assert c !in ps;
    }
  }

  /**
   The order of `destroy()`: every pipeline goes before anything else, and
   the last four calls release the pipeline layout, the descriptor-set layout,
   the command buffer and the pool, in that order.
   */
  lemma DestroyOrder(e: Executor, order: seq<string>)
    requires Enumerates(order, e.pipelines.Keys)
    ensures var released := Destroy(e, order).1;
      && |released| >= 4
      && (forall i, j :: 0 <= i < |released| && 0 <= j < |released| && released[i].DestroyPipeline? && !released[j].DestroyPipeline? ==> i < j)
      && released[|released| - 4..] == [DestroyPipelineLayout, DestroyDescriptorSetLayout, FreeCommandBuffers, DestroyCommandPool]
  {
    assert Destroy(e, order).1 == DestroyPipelines(order) + Teardown;
    TeardownLast(DestroyPipelines(order), Destroy(e, order).1);
  }

  lemma TeardownLast(ps: seq<Call>, released: seq<Call>)
    requires released == ps + Teardown
    requires forall i :: 0 <= i < |ps| ==> ps[i].DestroyPipeline?
    ensures |released| >= 4
    ensures forall i, j :: 0 <= i < |released| && 0 <= j < |released| && released[i].DestroyPipeline? && !released[j].DestroyPipeline? ==> i < j
    ensures released[|released| - 4..] == [DestroyPipelineLayout, DestroyDescriptorSetLayout, FreeCommandBuffers, DestroyCommandPool]
  {
    PipelinesFirst(ps, Teardown, released);
    assert released[|released| - 4..] == Teardown;
  }

  lemma PipelinesFirst(ps: seq<Call>, rest: seq<Call>, released: seq<Call>)
    requires released == ps + rest
    requires forall i :: 0 <= i < |ps| ==> ps[i].DestroyPipeline?
    requires forall i :: 0 <= i < |rest| ==> !rest[i].DestroyPipeline?
    ensures forall i, j :: 0 <= i < |released| && 0 <= j < |released| && released[i].DestroyPipeline? && !released[j].DestroyPipeline? ==> i < j
  {
    forall i | 0 <= i < |released|
      ensures released[i].DestroyPipeline? <==> i < |ps|
    {
      if i < |ps| {
        assert released[i] == ps[i];
      } else {
        assert released[i] == rest[i - |ps|];
      }
    }
  }

  lemma {:induction false} DestroyPipelinesCount(order: seq<string>, i: nat)
    requires i < |order|
    requires forall a, b :: 0 <= a < b < |order| ==> order[a] != order[b]
    ensures multiset(DestroyPipelines(order))[DestroyPipeline(order[i])] == 1
    decreases |order|
  {
    var ps := DestroyPipelines(order);
    assert ps == [DestroyPipeline(order[0])] + DestroyPipelines(order[1..]);
    if i == 0 {
      assert DestroyPipeline(order[0]) !in DestroyPipelines(order[1..]) by {
        forall j | 0 <= j < |order[1..]|
          ensures DestroyPipelines(order[1..])[j] != DestroyPipeline(order[0])
        {
          assert order[1..][j] == order[j + 1];
        }
      }
    } else {
      assert order[1..][i - 1] == order[i];
      DestroyPipelinesCount(order[1..], i - 1);
    }
  }

  /**
   `destroy()` must run once: replaying its teardown a second time breaks a
   usage rule at the first call, as the pipeline layout is already gone.
   */
  lemma SecondDestroyRejected()
    ensures Run(Constructed, Teardown + Teardown).None?
  {
    TeardownLeavesSetAndQueue();
    RunAppend(Constructed, Teardown, Teardown);
  }

  /**
   The teardown order is load-bearing: freeing the command buffer after its
   pool is destroyed breaks a usage rule, while the order `destroy()` uses is
   accepted.
   */
  lemma FreeAfterPoolDestroyedRejected()
    ensures Run(multiset{CommandPool, CommandBuffer}, [DestroyCommandPool, FreeCommandBuffers]).None?
    ensures Run(multiset{CommandPool, CommandBuffer}, [FreeCommandBuffers, DestroyCommandPool]) == Some(multiset{})
  {
    var m0 := multiset{CommandPool, CommandBuffer};
    assert m0 - multiset{CommandBuffer} == multiset{CommandPool};
    assert multiset{CommandPool}[CommandPool := 0][CommandBuffer := 0] == multiset{};
    assert [FreeCommandBuffers, DestroyCommandPool][1..] == [DestroyCommandPool];
    assert m0[CommandPool := 0][CommandBuffer := 0] == multiset{};
    assert [DestroyCommandPool, FreeCommandBuffers][1..] == [FreeCommandBuffers];
  }
}
