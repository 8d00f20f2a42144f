/**
 * Descriptor bookkeeping of src/framework/core/nile_descriptors.cpp: the set
 * layout builder and the layout it creates, the descriptor pool builder and
 * pool, and the writer that collects pending writes and applies them to a
 * freshly allocated set.
 *
 * The pool is abstracted as a capacity (maxSets) plus the set of descriptor
 * sets currently live in it, together with what each live set is bound to.
 */
module Descriptors {
  import opened Common

  datatype DescriptorType = UniformBuffer | CombinedImageSampler | OtherDescriptorType(code: nat)

  /** VkDescriptorSetLayoutBinding: binding number, type, count, shader stage mask. */
  datatype LayoutBinding = LayoutBinding(binding: nat, descriptorType: DescriptorType, count: nat, stages: nat)

  /** A created VkDescriptorSetLayout: its handle, the builder's map and the
   *  array of bindings that was handed to vkCreateDescriptorSetLayout. */
  datatype SetLayout = SetLayout(handle: Handle, bindings: map<nat, LayoutBinding>, createInfo: seq<LayoutBinding>)

  /** Every entry of a binding map is stored under its own binding number. */
  ghost predicate KeyedByBinding(m: map<nat, LayoutBinding>)
  {
    forall b :: b in m ==> m[b].binding == b
  }

  // ---------------------------------------------------------------------
  // Descriptor set layout builder and layout
  // ---------------------------------------------------------------------

  class LayoutBuilder {
    var bindings: map<nat, LayoutBinding>

    ghost predicate Valid()
      reads this
    {
      KeyedByBinding(bindings)
    }

    constructor ()
      ensures Valid() && bindings == map[]
    {
      bindings := map[];
    }

    /** Registers one binding; using a binding number twice is a failed assertion. */
    method AddBinding(binding: nat, descriptorType: DescriptorType, stages: nat, count: nat := 1)
      requires Valid()
      requires binding !in bindings
      modifies this
      ensures Valid()
      ensures bindings == old(bindings)[binding := LayoutBinding(binding, descriptorType, count, stages)]
      ensures |bindings| == |old(bindings)| + 1
    {
      bindings := bindings[binding := LayoutBinding(binding, descriptorType, count, stages)];
    }

    /** `order` is the order in which the unordered map hands out its entries;
     *  `vk` is what vkCreateDescriptorSetLayout returns and `handle` the layout it creates. */
    method Build(order: seq<nat>, vk: VkResult, handle: Handle) returns (r: Result<SetLayout>)
      requires Valid() && Enumerates(order, bindings)
      ensures r.Ok? <==> vk == Success
      ensures r.Err? ==> r.message == "failed to create descriptor set layout!"
      ensures r.Ok? ==> r.value.handle == handle && r.value.bindings == bindings
      ensures r.Ok? ==> |r.value.createInfo| == |bindings| && DistinctBindingNumbers(r.value.createInfo)
    {
      r := CreateSetLayout(bindings, order, vk, handle);
    }
  }

  /** No binding number appears twice in an array of layout bindings. */
  predicate DistinctBindingNumbers(s: seq<LayoutBinding>)
  {
    forall i, j :: 0 <= i < j < |s| ==> s[i].binding != s[j].binding
  }

  /** The NileDescriptorSetLayout constructor: one layout binding per map entry,
   *  so bindingCount is the number of distinct keys; creation failure throws. */
  method CreateSetLayout(bindings: map<nat, LayoutBinding>, order: seq<nat>, vk: VkResult, handle: Handle)
    returns (r: Result<SetLayout>)
    requires Enumerates(order, bindings)
    ensures r.Ok? <==> vk == Success
    ensures r.Err? ==> r.message == "failed to create descriptor set layout!"
    ensures r.Ok? ==> r.value.handle == handle && r.value.bindings == bindings
    ensures r.Ok? ==> |r.value.createInfo| == |order| == |bindings|
    ensures r.Ok? ==> forall k :: 0 <= k < |order| ==> r.value.createInfo[k] == bindings[order[k]]
    ensures r.Ok? ==> forall b :: b in bindings ==> bindings[b] in r.value.createInfo
    ensures r.Ok? && KeyedByBinding(bindings) ==> DistinctBindingNumbers(r.value.createInfo)
  {
    var setLayoutBindings: seq<LayoutBinding> := [];
    var i := 0;
    while i < |order|
      invariant 0 <= i <= |order|
      invariant |setLayoutBindings| == i
      invariant forall k :: 0 <= k < i ==> setLayoutBindings[k] == bindings[order[k]]
    {
      setLayoutBindings := setLayoutBindings + [bindings[order[i]]];
      i := i + 1;
    }
    EnumerationSize(order, bindings);
    if vk != Success {
      return Err("failed to create descriptor set layout!");
    }
    forall b | b in bindings
      ensures bindings[b] in setLayoutBindings
    {
      var k :| 0 <= k < |order| && order[k] == b;
      assert setLayoutBindings[k] == bindings[b];
    }
    r := Ok(SetLayout(handle, bindings, setLayoutBindings));
  }

  /** An enumeration of a map's keys is exactly as long as the map is large. */
  lemma {:induction false} EnumerationSize<V>(order: seq<nat>, m: map<nat, V>)
    requires Enumerates(order, m)
    ensures |order| == |m|
  {
    if order == [] {
      assert m.Keys == {};
    } else {
      var k := order[0];
      var rest := m - {k};
      assert Enumerates(order[1..], rest) by {
        forall key | key in rest
          ensures key in order[1..]
        {
          var j :| 0 <= j < |order| && order[j] == key;
          assert j != 0;
          assert order[1..][j - 1] == key;
        }
      }
      EnumerationSize(order[1..], rest);
      assert m.Keys == rest.Keys + {k};
    }
  }

  // ---------------------------------------------------------------------
  // Descriptor pool builder and pool
  // ---------------------------------------------------------------------

  /** VkDescriptorPoolSize. */
  datatype PoolSize = PoolSize(descriptorType: DescriptorType, count: nat)

  const DEFAULT_MAX_SETS: nat := 1000

  class PoolBuilder {
    var poolSizes: seq<PoolSize>
    var maxSets: nat
    var poolFlags: nat

    constructor ()
      ensures poolSizes == [] && maxSets == DEFAULT_MAX_SETS && poolFlags == 0
    {
      poolSizes := [];
      maxSets := DEFAULT_MAX_SETS;
      poolFlags := 0;
    }

    method AddPoolSize(descriptorType: DescriptorType, count: nat)
      modifies this
      ensures poolSizes == old(poolSizes) + [PoolSize(descriptorType, count)]
      ensures maxSets == old(maxSets) && poolFlags == old(poolFlags)
    {
      poolSizes := poolSizes + [PoolSize(descriptorType, count)];
    }

    method SetPoolFlags(flags: nat)
      modifies this
      ensures poolFlags == flags
      ensures poolSizes == old(poolSizes) && maxSets == old(maxSets)
    {
      poolFlags := flags;
    }

    method SetMaxSets(count: nat)
      modifies this
      ensures maxSets == count
      ensures poolSizes == old(poolSizes) && poolFlags == old(poolFlags)
    {
      maxSets := count;
    }

    /** `vk` is what vkCreateDescriptorPool returns; failure throws. */
    method Build(vk: VkResult, handle: Handle) returns (r: Result<DescriptorPool>)
      ensures r.Ok? <==> vk == Success
      ensures r.Err? ==> r.message == "failed to create descriptor pool!"
      ensures r.Ok? ==> fresh(r.value) && r.value.Valid() && r.value.live == {}
      ensures r.Ok? ==> r.value.handle == handle && r.value.maxSets == maxSets
      ensures r.Ok? ==> r.value.poolFlags == poolFlags && r.value.poolSizes == poolSizes
    {
      if vk != Success {
        return Err("failed to create descriptor pool!");
      }
      var pool := new DescriptorPool(handle, maxSets, poolFlags, poolSizes);
      r := Ok(pool);
    }
  }

  /** VkDescriptorBufferInfo (a buffer and the element it starts at) or VkDescriptorImageInfo. */
  datatype Info = BufferInfo(buffer: Handle, element: nat) | ImageInfo(image: Handle)

  class DescriptorPool {
    const handle: Handle
    const maxSets: nat
    const poolFlags: nat
    const poolSizes: seq<PoolSize>
    /** Descriptor sets currently allocated from this pool. */
    var live: set<Handle>
    /** What each live set has bound at each binding number. */
    var contents: map<Handle, map<nat, Info>>
    /** Handles are never handed out twice: every live one is below this. */
    var nextHandle: Handle

    ghost predicate Valid()
      reads this
    {
      live == contents.Keys && |live| <= maxSets && NullHandle < nextHandle &&
      (forall s :: s in live ==> NullHandle < s < nextHandle)
    }

    constructor (handle: Handle, maxSets: nat, poolFlags: nat, poolSizes: seq<PoolSize>)
      ensures Valid() && live == {} && contents == map[]
      ensures this.handle == handle && this.maxSets == maxSets
      ensures this.poolFlags == poolFlags && this.poolSizes == poolSizes
    {
      this.handle := handle;
      this.maxSets := maxSets;
      this.poolFlags := poolFlags;
      this.poolSizes := poolSizes;
      live := {};
      contents := map[];
      nextHandle := 1;
    }

    /** Allocation from a full pool is a soft failure (false and a null set), never a throw. */
    method AllocateDescriptor(layout: SetLayout) returns (ok: bool, ds: Handle)
      requires Valid()
      modifies this
      ensures Valid()
      ensures ok <==> |old(live)| < maxSets
      ensures ok ==> ds != NullHandle && ds !in old(live)
      ensures ok ==> live == old(live) + {ds} && contents == old(contents)[ds := map[]]
      ensures !ok ==> ds == NullHandle && live == old(live) && contents == old(contents)
    {
      if |live| >= maxSets {
        return false, NullHandle;
      }
      ds := nextHandle;
      assert ds !in live;
      assert |live + {ds}| == |live| + 1;
      nextHandle := nextHandle + 1;
      live := live + {ds};
      contents := contents[ds := map[]];
      ok := true;
    }

    method FreeDescriptors(descriptors: seq<Handle>)
      requires Valid()
      modifies this
      ensures Valid()
      ensures live == old(live) - set s | s in descriptors
      ensures forall s :: s in live ==> contents[s] == old(contents)[s]
    {
      var gone := set s | s in descriptors;
      live := live - gone;
      contents := map s | s in contents && s !in gone :: contents[s];
    }

    /** Returns every set of the pool to it in one call. */
    method ResetPool()
      requires Valid()
      modifies this
      ensures Valid() && live == {} && contents == map[]
      ensures nextHandle == old(nextHandle)
    {
      live := {};
      contents := map[];
    }
  }

  // ---------------------------------------------------------------------
  // Descriptor writer
  // ---------------------------------------------------------------------

  /** VkWriteDescriptorSet as the writer fills it. */
  datatype Write = Write(dstSet: Handle, dstBinding: nat, descriptorType: DescriptorType, count: nat, info: Info)

  /** The pending writes after the loop of `overwrite` has stamped each with `ds`. */
  function Stamped(ws: seq<Write>, ds: Handle): (r: seq<Write>)
    ensures |r| == |ws|
  {
    if ws == [] then [] else [ws[0].(dstSet := ds)] + Stamped(ws[1..], ds)
  }

  lemma {:induction false} StampedAt(ws: seq<Write>, ds: Handle, k: nat)
    requires k < |ws|
    ensures Stamped(ws, ds)[k] == ws[k].(dstSet := ds)
  {
    if k > 0 {
      StampedAt(ws[1..], ds, k - 1);
    } else if |ws| > 1 {
      StampedAt(ws[1..], ds, 0);
    }
  }

  /** vkUpdateDescriptorSets: the writes take effect in order, the last one per binding wins. */
  function Apply(bound: map<nat, Info>, ws: seq<Write>): map<nat, Info>
    decreases |ws|
  {
    if ws == [] then bound else Apply(bound[ws[0].dstBinding := ws[0].info], ws[1..])
  }

  /** The bindings a sequence of writes touches. */
  function Touched(ws: seq<Write>): set<nat>
  {
    set k | 0 <= k < |ws| :: ws[k].dstBinding
  }

  /** Applying writes binds exactly the bindings they touch on top of what was bound,
   *  and a write whose binding no later write touches leaves its info there. */
  lemma {:induction false} ApplyBinds(bound: map<nat, Info>, ws: seq<Write>, k: nat)
    decreases |ws|
    requires k < |ws|
    requires forall j :: k < j < |ws| ==> ws[j].dstBinding != ws[k].dstBinding
    ensures Apply(bound, ws).Keys == bound.Keys + Touched(ws)
    ensures Apply(bound, ws)[ws[k].dstBinding] == ws[k].info
  {
    var next := bound[ws[0].dstBinding := ws[0].info];
    if |ws| == 1 {
      assert Touched(ws) == {ws[0].dstBinding};
    } else if k == 0 {
      ApplyKeys(next, ws[1..]);
      ApplyUntouched(next, ws[1..], ws[0].dstBinding);
      TouchedCons(ws);
    } else {
      forall j | k - 1 < j < |ws[1..]|
        ensures ws[1..][j].dstBinding != ws[1..][k - 1].dstBinding
      {
        assert ws[1..][j] == ws[j + 1];
      }
      ApplyBinds(next, ws[1..], k - 1);
      TouchedCons(ws);
    }
  }

  lemma TouchedCons(ws: seq<Write>)
    requires |ws| > 0
    ensures Touched(ws) == {ws[0].dstBinding} + Touched(ws[1..])
  {
    forall b | b in Touched(ws)
      ensures b in {ws[0].dstBinding} + Touched(ws[1..])
    {
      var k :| 0 <= k < |ws| && ws[k].dstBinding == b;
      if k > 0 {
        assert ws[1..][k - 1] == ws[k];
      }
    }
    forall b | b in Touched(ws[1..])
      ensures b in Touched(ws)
    {
      var k :| 0 <= k < |ws[1..]| && ws[1..][k].dstBinding == b;
      assert ws[k + 1] == ws[1..][k];
    }
  }

  lemma {:induction false} ApplyKeys(bound: map<nat, Info>, ws: seq<Write>)
    decreases |ws|
    ensures Apply(bound, ws).Keys == bound.Keys + Touched(ws)
  {
    if ws != [] {
      ApplyKeys(bound[ws[0].dstBinding := ws[0].info], ws[1..]);
      TouchedCons(ws);
    } else {
      assert Touched(ws) == {};
    }
  }

  lemma {:induction false} ApplyUntouched(bound: map<nat, Info>, ws: seq<Write>, b: nat)
    decreases |ws|
    requires b in bound && b !in Touched(ws)
    ensures b in Apply(bound, ws) && Apply(bound, ws)[b] == bound[b]
  {
    if ws != [] {
      TouchedCons(ws);
      ApplyUntouched(bound[ws[0].dstBinding := ws[0].info], ws[1..], b);
    }
  }

  /** With no binding written twice, applying the writes to a fresh set binds
   *  exactly the bindings they touch, each to the info its own write carries. */
  lemma ApplyDistinct(ws: seq<Write>)
    requires forall i, j :: 0 <= i < j < |ws| ==> ws[i].dstBinding != ws[j].dstBinding
    ensures Apply(map[], ws).Keys == Touched(ws)
    ensures forall k :: 0 <= k < |ws| ==> Apply(map[], ws)[ws[k].dstBinding] == ws[k].info
  {
    ApplyKeys(map[], ws);
    forall k | 0 <= k < |ws|
      ensures Apply(map[], ws)[ws[k].dstBinding] == ws[k].info
    {
      ApplyBinds(map[], ws, k);
    }
  }

  /** A write targets a single-descriptor binding of the layout, with its type. */
  predicate Fits(layout: SetLayout, w: Write)
  {
    w.dstBinding in layout.bindings && w.count == 1 &&
    layout.bindings[w.dstBinding].count == 1 &&
    w.descriptorType == layout.bindings[w.dstBinding].descriptorType
  }

  class DescriptorWriter {
    const layout: SetLayout
    const pool: DescriptorPool
    var writes: seq<Write>

    /** Every pending write targets a single-descriptor binding of the layout, with its type. */
    ghost predicate Valid()
      reads this
    {
      forall k :: 0 <= k < |writes| ==> Fits(layout, writes[k])
    }

    constructor (layout: SetLayout, pool: DescriptorPool)
      ensures Valid() && this.layout == layout && this.pool == pool && writes == []
    {
      this.layout := layout;
      this.pool := pool;
      writes := [];
    }

    /** Appends one write for `binding`; the binding must exist in the layout with count 1. */
    method WriteBuffer(binding: nat, buffer: Handle, element: nat)
      requires Valid()
      requires binding in layout.bindings && layout.bindings[binding].count == 1
      modifies this`writes
      ensures Valid()
      ensures writes == old(writes) +
        [Write(NullHandle, binding, layout.bindings[binding].descriptorType, 1, BufferInfo(buffer, element))]
    {
      var bindingDescription := layout.bindings[binding];
      writes := writes + [Write(NullHandle, binding, bindingDescription.descriptorType, 1, BufferInfo(buffer, element))];
    }

    method WriteImage(binding: nat, image: Handle)
      requires Valid()
      requires binding in layout.bindings && layout.bindings[binding].count == 1
      modifies this`writes
      ensures Valid()
      ensures writes == old(writes) +
        [Write(NullHandle, binding, layout.bindings[binding].descriptorType, 1, ImageInfo(image))]
    {
      var bindingDescription := layout.bindings[binding];
      writes := writes + [Write(NullHandle, binding, bindingDescription.descriptorType, 1, ImageInfo(image))];
    }

    /** Allocates a set; on failure returns false with nothing written, otherwise
     *  stamps and applies every pending write to the new set. */
    method Build() returns (ok: bool, ds: Handle)
      requires Valid() && pool.Valid()
      modifies this`writes, pool
      ensures Valid() && pool.Valid()
      ensures ok <==> |old(pool.live)| < pool.maxSets
      ensures !ok ==> ds == NullHandle && writes == old(writes)
      ensures !ok ==> pool.live == old(pool.live) && pool.contents == old(pool.contents)
      ensures ok ==> ds != NullHandle && ds !in old(pool.live) && pool.live == old(pool.live) + {ds}
      ensures ok ==> writes == Stamped(old(writes), ds)
      ensures ok ==> pool.contents == old(pool.contents)[ds := Apply(map[], writes)]
    {
      ok, ds := pool.AllocateDescriptor(layout);
      if !ok {
        return;
      }
      Overwrite(ds);
    }

    /** Stamps every pending write with `ds` and applies them to it. */
    method Overwrite(ds: Handle)
      requires Valid() && pool.Valid() && ds in pool.live
      modifies this`writes, pool`contents
      ensures Valid() && pool.Valid()
      ensures writes == Stamped(old(writes), ds)
      ensures pool.contents == old(pool.contents)[ds := Apply(old(pool.contents)[ds], writes)]
    {
      ghost var before := writes;
      var i := 0;
      while i < |writes|
        invariant 0 <= i <= |writes| == |before|
        invariant forall k :: 0 <= k < i ==> writes[k] == before[k].(dstSet := ds)
        invariant forall k :: i <= k < |writes| ==> writes[k] == before[k]
        invariant pool.contents == old(pool.contents) && pool.live == old(pool.live)
      {
        writes := writes[i := writes[i].(dstSet := ds)];
        i := i + 1;
      }
      forall k | 0 <= k < |writes|
        ensures writes[k] == Stamped(before, ds)[k]
      {
        StampedAt(before, ds, k);
      }
      if |before| > 0 {
        StampedAt(before, ds, 0);
      } else {
        assert Stamped(before, ds) == [];
      }
      assert writes == Stamped(before, ds);
      pool.contents := pool.contents[ds := Apply(pool.contents[ds], writes)];
    }
  }
}
