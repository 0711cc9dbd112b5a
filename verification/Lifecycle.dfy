/**
 The event hooks of the Go SDK over the pin table, in one address space shared with a garbage collector.

 A handle is the address of a node. The collector may free, and the allocator may hand out again, every address
 whose node no list of the manager reaches. `Valid` says that each handle Envoy holds still denotes the very
 object it was created for.
 */
module Lifecycle {
  import opened SplitMix
  import opened PinTable

  /**
   The handles Envoy holds are the addresses of the pinned nodes, and each leads through memory to the node that
   pins its object.
   */
  ghost predicate Live<T>(memory: map<Address, LinkedList<T>>, handles: map<Address, T>, pinned: set<LinkedList<T>>) {
    && (forall a :: a in memory ==> memory[a].addr == a)
    && (forall h :: h in handles ==> h != NIL && h in memory && memory[h].obj == handles[h] && memory[h] in pinned)
    && (forall n :: n in pinned ==> n.addr in handles && memory[n.addr] == n)
  }

  lemma LiveAt<T>(memory: map<Address, LinkedList<T>>, handles: map<Address, T>, pinned: set<LinkedList<T>>,
                  h: Address)
    requires Live(memory, handles, pinned) && h in handles
    ensures h in memory && memory[h] in pinned && memory[h].obj == handles[h] && memory[h].addr == h
  {}

  lemma LivePlus<T>(memory: map<Address, LinkedList<T>>, handles: map<Address, T>, pinned: set<LinkedList<T>>,
                    n: LinkedList<T>)
    requires Live(memory, handles, pinned) && n.addr != NIL && n.addr !in memory
    ensures Live(memory[n.addr := n], handles[n.addr := n.obj], pinned + {n})
  {}

  lemma LiveMinus<T>(memory: map<Address, LinkedList<T>>, handles: map<Address, T>, pinned: set<LinkedList<T>>,
                     h: Address)
    requires Live(memory, handles, pinned) && h in handles
    ensures Live(memory, handles - {h}, pinned - {memory[h]})
  {}

  /** What is left of memory after a collection of the addresses `dead`. */
  function Swept<T(==)>(memory: map<Address, LinkedList<T>>, marked: set<LinkedList<T>>, dead: set<Address>)
    : map<Address, LinkedList<T>>
  {
    map a | a in memory && (a !in dead || memory[a] in marked) :: memory[a]
  }

  lemma LiveSwept<T>(memory: map<Address, LinkedList<T>>, handles: map<Address, T>, pinned: set<LinkedList<T>>,
                     dead: set<Address>)
    requires Live(memory, handles, pinned)
    ensures Live(Swept(memory, pinned, dead), handles, pinned)
  {}

  class Module {
    const manager: MemoryManager

    // What the Go heap holds at each allocated address.
    var filterMemory: map<Address, LinkedList<HttpFilter>>
    var configMemory: map<Address, LinkedList<HttpFilterConfig>>

    // The handles Envoy holds, each with the object created for it.
    ghost var filters: map<Address, HttpFilter>
    ghost var configs: map<Address, HttpFilterConfig>

    ghost var repr: set<object>  // the module, its lists and nodes, but not the objects they pin

    ghost predicate Valid()
      reads this, repr
    {
      && {this, manager, manager.httpFilterConfigs} <= repr
      && (forall l :: l in manager.httpFilterLists ==> l in repr)
      && manager.pinned <= repr
      && manager.httpFilterConfigs.repr <= repr
      && manager.Valid()
      && Live(filterMemory, filters, manager.pinned)
      && Live(configMemory, configs, manager.httpFilterConfigs.repr)
      && filterMemory.Keys !! configMemory.Keys
    }

    /** The allocator may return any address at which the heap holds nothing. */
    predicate Free(addr: Address)
      reads this
    {
      addr != NIL && addr !in filterMemory && addr !in configMemory
    }

    lemma FreeIsUnused(addr: Address)
      requires Valid() && Free(addr)
      ensures addr !in filters && addr !in configs
    {
      hide MemoryManager.Valid;
    }

    /** Once Envoy holds no handle, every list is empty. */
    lemma NothingPinned()
      requires Valid() && filters == map[] && configs == map[]
      ensures manager.httpFilterConfigs.nodes == []
      ensures forall list :: list in manager.httpFilterLists ==> list.nodes == []
    {
      assert manager.pinned == {} && manager.httpFilterConfigs.repr == {};
      PartitionMembers(manager.Parts(), manager.pinned);
      forall i | 0 <= i < SHARDING_SIZE ensures manager.httpFilterLists[i].nodes == [] {
        assert manager.Parts()[i] == Elements(manager.httpFilterLists[i].nodes);
        HeadIsElement(manager.httpFilterLists[i].nodes);
      }
      HeadIsElement(manager.httpFilterConfigs.nodes);
    }

    constructor ()
      ensures Valid() && fresh(repr)
      ensures filters == map[] && configs == map[]
    {
      filterMemory, configMemory, filters, configs := map[], map[], map[], map[];
      manager := new MemoryManager();
      new;
      repr := {this, manager, manager.httpFilterConfigs} + (set l | l in manager.httpFilterLists :: l as object);
    }

    method OnHttpFilterConfigNew(config: HttpFilterConfig?, addr: Address) returns (handle: Address)
      requires Valid() && Free(addr)
      modifies repr
      ensures Valid() && fresh(repr - old(repr))
      ensures handle == if config == null then NIL else addr
      ensures configs == (if config == null then old(configs) else old(configs)[addr := config])
      ensures filters == old(filters)
    {
      hide MemoryManager.Valid, Live;
      if config == null {
        return NIL;
      }
      var pinned := manager.PinHttpFilterConfig(config, addr);
      LivePlus(configMemory, configs, old(manager.httpFilterConfigs.repr), pinned);
      configMemory, configs := configMemory[addr := pinned], configs[addr := config];
      repr := repr + {pinned};
      return pinned.addr;
    }

    method OnHttpFilterConfigDestroy(handle: Address)
      requires Valid() && handle in configs
      modifies repr, configs[handle]
      ensures Valid() && fresh(repr - old(repr))
      ensures configs == old(configs) - {handle} && filters == old(filters)
      ensures old(configs[handle]).events == old(configs[handle].events) + [Destroy]
    {
      hide MemoryManager.Valid, Live;
      LiveAt(configMemory, configs, manager.httpFilterConfigs.repr, handle);
      var pinned := configMemory[handle];
      pinned.obj.events := pinned.obj.events + [Destroy];
      manager.UnpinHttpFilterConfig(pinned);
      LiveMinus(configMemory, configs, old(manager.httpFilterConfigs.repr), handle);
      configs := configs - {handle};
    }

    /** `filter` is what the configuration's NewFilter returned. */
    method OnHttpFilterNew(configHandle: Address, filter: HttpFilter?, addr: Address) returns (handle: Address)
      requires Valid() && configHandle in configs && Free(addr)
      modifies repr, configs[configHandle]
      ensures Valid() && fresh(repr - old(repr))
      ensures handle == if filter == null then NIL else addr
      ensures filters == if filter == null then old(filters) else old(filters)[addr := filter]
      ensures configs == old(configs) && configs[configHandle].events == old(configs[configHandle].events) + [NewFilter]
    {
      hide MemoryManager.Valid, MemoryManager.ListOf, Live;
      LiveAt(configMemory, configs, manager.httpFilterConfigs.repr, configHandle);
      var config := configMemory[configHandle].obj;
      config.events := config.events + [NewFilter];
      if filter == null {
        return NIL;
      }
      manager.ListIsPinned(addr);
      var pinned := manager.PinHttpFilter(filter, addr);
      LivePlus(filterMemory, filters, old(manager.pinned), pinned);
      filterMemory, filters := filterMemory[addr := pinned], filters[addr := filter];
      repr := repr + {pinned};
      return pinned.addr;
    }

    /** Any of the stream hooks: headers, bodies, scheduled events. */
    method OnHttpFilterEvent(handle: Address, event: StreamEvent)
      requires Valid() && handle in filters
      modifies filters[handle]
      ensures Valid()
      ensures repr == old(repr) && filters == old(filters) && configs == old(configs)
      ensures filters[handle].events == old(filters[handle].events) + [Stream(event)]
    {
      hide MemoryManager.Valid, Live;
      LiveAt(filterMemory, filters, manager.pinned, handle);
      var pinned := filterMemory[handle];
      pinned.obj.events := pinned.obj.events + [Stream(event)];
    }

    method OnHttpFilterDestroy(handle: Address)
      requires Valid() && handle in filters
      modifies repr, filters[handle]
      ensures Valid() && fresh(repr - old(repr))
      ensures filters == old(filters) - {handle} && configs == old(configs)
      ensures old(filters[handle]).events == old(filters[handle].events) + [Destroy]
    {
      hide MemoryManager.Valid, MemoryManager.ListOf, Live;
      LiveAt(filterMemory, filters, manager.pinned, handle);
      var pinned := filterMemory[handle];
      pinned.obj.events := pinned.obj.events + [Destroy];
      manager.ListIsPinned(handle);
      manager.UnpinHttpFilter(pinned);
      LiveMinus(filterMemory, filters, old(manager.pinned), handle);
      filters := filters - {handle};
    }

    /** A garbage collection: any address may go whose node is not reachable from the manager. */
    method Collect(dead: set<Address>)
      requires Valid()
      modifies repr
      ensures Valid() && fresh(repr - old(repr))
      ensures filters == old(filters) && configs == old(configs)
      ensures filterMemory.Keys <= old(filterMemory).Keys && configMemory.Keys <= old(configMemory).Keys
      ensures forall a :: a in dead && a !in filters && a !in configs ==> Free(a) || a == NIL
    {
      hide MemoryManager.Valid, Live;
      var filterMarks := manager.MarkFilters();
      var configMarks := manager.MarkConfigs();
      LiveSwept(filterMemory, filters, manager.pinned, dead);
      LiveSwept(configMemory, configs, manager.httpFilterConfigs.repr, dead);
      filterMemory := Swept(filterMemory, filterMarks, dead);
      configMemory := Swept(configMemory, configMarks, dead);
    }
  }
}
