/**
 The memory manager of the Go SDK: the table that pins every filter and filter configuration handed to Envoy.

 Each of the 256 filter lists and the configuration list is an intrusive doubly linked list. A ghost sequence
 gives the nodes of each list in order; `Valid` ties it to the pointers. Pinning puts the new node in front,
 unpinning takes exactly the given node out, and nothing else moves.
 */
module PinTable {
  import opened Common
  import opened SplitMix

  class LinkedList<T> {
    const obj: T
    const addr: Address  // where the allocator placed the node
    var next: LinkedList?<T>
    var prev: LinkedList?<T>

    constructor (obj: T, addr: Address, next: LinkedList?<T>)
      ensures this.obj == obj && this.addr == addr && this.next == next && this.prev == null
    {
      this.obj, this.addr, this.next, this.prev := obj, addr, next, null;
    }
  }

  ghost function At<T>(s: seq<LinkedList<T>>, i: int): LinkedList?<T> {
    if 0 <= i < |s| then s[i] else null
  }

  /** `next` runs through `s` forwards and `prev` backwards, each ending in null. */
  ghost predicate Chained<T>(s: seq<LinkedList<T>>)
    reads s
  {
    && (forall i {:trigger s[i].next} :: 0 <= i < |s| ==> s[i].next == At(s, i + 1))
    && (forall i {:trigger s[i].prev} :: 0 <= i < |s| ==> s[i].prev == At(s, i - 1))
  }

  /** `head` starts a well-formed, acyclic list whose nodes are `s`. */
  ghost predicate Links<T>(head: LinkedList?<T>, s: seq<LinkedList<T>>)
    reads s
  {
    head == At(s, 0) && Chained(s) && Distinct(s)
  }

  ghost function Elements<T>(s: seq<T>): set<T> {
    set x | x in s
  }

  lemma HeadIsElement<T>(s: seq<T>)
    ensures s != [] ==> s[0] in Elements(s)
  {}

  lemma WithoutElements<T>(head: LinkedList?<T>, s: seq<LinkedList<T>>, n: LinkedList<T>)
    requires Links(head, s) && n in s
    ensures Elements(Without(s, n)) == Elements(s) - {n}
  {
    var k :| 0 <= k < |s| && s[k] == n;
    WithoutSkips(s, k);
  }

  lemma PushedChained<T>(item: LinkedList<T>, s: seq<LinkedList<T>>)
    requires item.next == At(s, 0) && item.prev == null
    requires forall i {:trigger s[i].next} :: 0 <= i < |s| ==> s[i].next == At(s, i + 1)
    requires forall i {:trigger s[i].prev} :: 0 <= i < |s| ==> s[i].prev == if i == 0 then item else At(s, i - 1)
    ensures Chained([item] + s)
  {
    var r := [item] + s;
    forall i | 0 <= i < |r| ensures r[i].next == At(r, i + 1) && r[i].prev == At(r, i - 1) {
      if i > 0 {
        assert s[i - 1].next == At(s, i) && s[i - 1].prev == if i == 1 then item else At(s, i - 2);
      }
    }
  }

  lemma NextBypassed<T>(s: seq<LinkedList<T>>, k: nat, r: seq<LinkedList<T>>)
    requires Skips(s, k, r)
    requires forall i {:trigger s[i].next} :: 0 <= i < |s| && i != k ==>
               s[i].next == At(s, if i == k - 1 then k + 1 else i + 1)
    ensures forall i {:trigger r[i].next} :: 0 <= i < |r| ==> r[i].next == At(r, i + 1)
  {
    forall i {:trigger r[i].next} | 0 <= i < |r| ensures r[i].next == At(r, i + 1) {
      var j := if i < k then i else i + 1;
      assert s[j].next == At(s, if j == k - 1 then k + 1 else j + 1);
    }
  }

  lemma PrevBypassed<T>(s: seq<LinkedList<T>>, k: nat, r: seq<LinkedList<T>>)
    requires Skips(s, k, r)
    requires forall i {:trigger s[i].prev} :: 0 <= i < |s| && i != k ==>
               s[i].prev == At(s, if i == k + 1 then k - 1 else i - 1)
    ensures forall i {:trigger r[i].prev} :: 0 <= i < |r| ==> r[i].prev == At(r, i - 1)
  {
    forall i {:trigger r[i].prev} | 0 <= i < |r| ensures r[i].prev == At(r, i - 1) {
      var j := if i < k then i else i + 1;
      assert s[j].prev == At(s, if j == k + 1 then k - 1 else j - 1);
    }
  }

  /** With the node bypassed in both directions, the links run through the shorter list. */
  lemma Bypassed<T>(s: seq<LinkedList<T>>, k: nat, r: seq<LinkedList<T>>)
    requires Skips(s, k, r)
    requires forall i {:trigger s[i].next} :: 0 <= i < |s| && i != k ==>
               s[i].next == At(s, if i == k - 1 then k + 1 else i + 1)
    requires forall i {:trigger s[i].prev} :: 0 <= i < |s| && i != k ==>
               s[i].prev == At(s, if i == k + 1 then k - 1 else i - 1)
    ensures Chained(r)
  {
    NextBypassed(s, k, r);
    PrevBypassed(s, k, r);
  }

  /** What is left of a list when its node `n` has been taken out. */
  lemma Removed<T>(head: LinkedList?<T>, s: seq<LinkedList<T>>, n: LinkedList<T>) returns (k: nat)
    requires Links(head, s) && n in s
    ensures k < |s| && s[k] == n
    ensures Skips(s, k, Without(s, n)) && Distinct(Without(s, n))
    ensures Elements(Without(s, n)) == Elements(s) - {n}
  {
    k :| 0 <= k < |s| && s[k] == n;
    WithoutSkips(s, k);
    WithoutElements(head, s, n);
  }

  /** One list of the table: the head pointer, and for the proof the nodes in list order. */
  class PinnedList<T> {
    var head: LinkedList?<T>
    ghost var nodes: seq<LinkedList<T>>
    ghost var repr: set<LinkedList<T>>

    ghost predicate Valid()
      reads this, repr
    {
      repr == Elements(nodes) && Links(head, nodes)
    }

    constructor ()
      ensures Valid() && nodes == [] && repr == {}
    {
      head, nodes, repr := null, [], {};
    }

    method Pin(obj: T, addr: Address) returns (item: LinkedList<T>)
      requires Valid()
      modifies this, repr
      ensures Valid()
      ensures fresh(item) && item.obj == obj && item.addr == addr
      ensures nodes == [item] + old(nodes) && repr == old(repr) + {item}
    {
      item := new LinkedList(obj, addr, null);
      item.next := head;
      if head != null {
        head.prev := item;
      }
      PushedChained(item, nodes);
      head := item;
      nodes, repr := [item] + nodes, repr + {item};
    }

    /** The nodes that the list's pointers reach, found by following `next` from the head. */
    method Mark() returns (marked: set<LinkedList<T>>)
      requires Valid()
      ensures marked == repr
    {
      var n := head;
      marked := {};
      ghost var k := 0;
      while n != null
        invariant 0 <= k <= |nodes| && n == At(nodes, k)
        invariant marked == Elements(nodes[..k])
        decreases |nodes| - k
      {
        assert nodes[..k + 1] == nodes[..k] + [nodes[k]];
        marked := marked + {n};
        n := n.next;
        k := k + 1;
      }
      assert nodes[..k] == nodes;
    }

    method Unpin(n: LinkedList<T>)
      requires Valid() && n in repr
      modifies this, repr
      ensures Valid()
      ensures nodes == Without(old(nodes), n) && repr == old(repr) - {n}
    {
      hide Without;
      ghost var k := Removed(head, nodes, n);
      ghost var r := Without(nodes, n);
      if n.prev != null {
        n.prev.next := n.next;
      } else {
        head := n.next;
      }
      if n.next != null {
        n.next.prev := n.prev;
      }
      Bypassed(nodes, k, r);
      assert head == At(r, 0);
      nodes, repr := r, repr - {n};
    }
  }

  /** An event hook of a stream, with what it passes on to the filter. */
  datatype StreamEvent =
    | RequestHeaders(endOfStream: bool)
    | RequestBody(endOfStream: bool)
    | ResponseHeaders(endOfStream: bool)
    | ResponseBody(endOfStream: bool)
    | Scheduled(eventID: nat)

  /** A call as the object behind a handle sees it. */
  datatype Hook = NewFilter | Stream(event: StreamEvent) | Destroy

  /** The object behind a filter handle; it records the calls that reached it. */
  class HttpFilter {
    var events: seq<Hook>
    constructor ()
      ensures events == []
    {
      events := [];
    }
  }

  class HttpFilterConfig {
    var events: seq<Hook>
    constructor ()
      ensures events == []
    {
      events := [];
    }
  }

  ghost function OfShard(pinned: set<LinkedList<HttpFilter>>, i: nat): set<LinkedList<HttpFilter>> {
    set n | n in pinned && ShardIndex(n.addr) == i
  }

  /** `parts` splits the pinned nodes by the shard their addresses hash to. */
  ghost predicate Partition(parts: seq<set<LinkedList<HttpFilter>>>, pinned: set<LinkedList<HttpFilter>>) {
    |parts| == SHARDING_SIZE && forall i :: 0 <= i < SHARDING_SIZE ==> parts[i] == OfShard(pinned, i)
  }

  lemma PartitionMembers(parts: seq<set<LinkedList<HttpFilter>>>, pinned: set<LinkedList<HttpFilter>>)
    requires Partition(parts, pinned)
    ensures forall i, j :: 0 <= i < SHARDING_SIZE && 0 <= j < SHARDING_SIZE && i != j ==> parts[i] !! parts[j]
    ensures forall i :: 0 <= i < SHARDING_SIZE ==> parts[i] <= pinned
    ensures forall n :: n in pinned ==> n in parts[ShardIndex(n.addr)]
  {
    hide ShardIndex;
    forall n | n in pinned ensures n in parts[ShardIndex(n.addr)] {
      assert n in OfShard(pinned, ShardIndex(n.addr));
    }
  }

  lemma PartitionUpdate(parts: seq<set<LinkedList<HttpFilter>>>, pinned: set<LinkedList<HttpFilter>>,
                        n: LinkedList<HttpFilter>)
    requires Partition(parts, pinned)
    ensures var i := ShardIndex(n.addr);
            && Partition(parts[i := parts[i] + {n}], pinned + {n})
            && Partition(parts[i := parts[i] - {n}], pinned - {n})
  {
    hide ShardIndex;
    forall i | 0 <= i < SHARDING_SIZE
      ensures OfShard(pinned + {n}, i) == if i == ShardIndex(n.addr) then parts[i] + {n} else parts[i]
      ensures OfShard(pinned - {n}, i) == if i == ShardIndex(n.addr) then parts[i] - {n} else parts[i]
    {
      assert parts[i] == OfShard(pinned, i);
    }
  }

  class MemoryManager {
    const httpFilterConfigs: PinnedList<HttpFilterConfig>
    const httpFilterLists: seq<PinnedList<HttpFilter>>
    ghost var pinned: set<LinkedList<HttpFilter>>  // the nodes of all filter lists

    ghost function Parts(): seq<set<LinkedList<HttpFilter>>>
      reads httpFilterLists
    {
      seq(|httpFilterLists|, i requires 0 <= i < |httpFilterLists| reads httpFilterLists => httpFilterLists[i].repr)
    }

    /** Every pinned node sits in the list of the shard its address hashes to, and nowhere else. */
    ghost predicate Sharded()
      reads this, httpFilterLists
    {
      && |httpFilterLists| == SHARDING_SIZE
      && Distinct(httpFilterLists)
      && Partition(Parts(), pinned)
    }

    ghost predicate Valid()
      reads this, httpFilterConfigs, httpFilterConfigs.repr, httpFilterLists, pinned
    {
      && Sharded()
      && httpFilterConfigs.Valid()
      && (PartitionMembers(Parts(), pinned);
          forall i :: 0 <= i < SHARDING_SIZE ==> Parts()[i] <= pinned && httpFilterLists[i].Valid())
    }

    ghost function ListOf(addr: Address): PinnedList<HttpFilter>
      requires |httpFilterLists| == SHARDING_SIZE
    {
      httpFilterLists[ShardIndex(addr)]
    }

    lemma ListIsPinned(addr: Address)
      requires Valid()
      ensures ListOf(addr) in httpFilterLists && ListOf(addr).repr <= pinned
    {
      hide ShardIndex;
      assert Parts()[ShardIndex(addr)] == ListOf(addr).repr;
    }

    constructor ()
      ensures Valid()
      ensures pinned == {} && httpFilterConfigs.nodes == [] && fresh(httpFilterConfigs)
      ensures forall i :: 0 <= i < SHARDING_SIZE ==> httpFilterLists[i].nodes == [] && fresh(httpFilterLists[i])
    {
      var lists: seq<PinnedList<HttpFilter>> := [];
      while |lists| < SHARDING_SIZE
        invariant |lists| <= SHARDING_SIZE && Distinct(lists)
        invariant forall i :: 0 <= i < |lists| ==> fresh(lists[i]) && lists[i].Valid() && lists[i].nodes == []
      {
        var list := new PinnedList<HttpFilter>();
        lists := lists + [list];
      }
      httpFilterConfigs := new PinnedList();
      httpFilterLists := lists;
      pinned := {};
    }

    /** Every filter node that a garbage collector reaches from the manager. */
    method MarkFilters() returns (marked: set<LinkedList<HttpFilter>>)
      requires Valid()
      ensures marked == pinned
    {
      hide ShardIndex;
      PartitionMembers(Parts(), pinned);
      marked := {};
      for i := 0 to SHARDING_SIZE
        invariant marked == set n | n in pinned && ShardIndex(n.addr) < i
      {
        var more := httpFilterLists[i].Mark();
        assert more == Parts()[i] == OfShard(pinned, i);
        marked := marked + more;
      }
    }

    method MarkConfigs() returns (marked: set<LinkedList<HttpFilterConfig>>)
      requires Valid()
      ensures marked == httpFilterConfigs.repr
    {
      marked := httpFilterConfigs.Mark();
    }

    method PinHttpFilterConfig(filterConfig: HttpFilterConfig, addr: Address)
      returns (item: LinkedList<HttpFilterConfig>)
      requires Valid()
      modifies httpFilterConfigs, httpFilterConfigs.repr
      ensures Valid()
      ensures fresh(item) && item.obj == filterConfig && item.addr == addr
      ensures httpFilterConfigs.nodes == [item] + old(httpFilterConfigs.nodes)
      ensures httpFilterConfigs.repr == old(httpFilterConfigs.repr) + {item}
    {
      hide Partition, PinnedList<HttpFilterConfig>.Valid, PinnedList<HttpFilter>.Valid;
      PartitionMembers(Parts(), pinned);
      item := httpFilterConfigs.Pin(filterConfig, addr);
      assert Parts() == old(Parts());
    }

    method UnpinHttpFilterConfig(filterConfig: LinkedList<HttpFilterConfig>)
      requires Valid() && filterConfig in httpFilterConfigs.repr
      modifies httpFilterConfigs, httpFilterConfigs.repr
      ensures Valid()
      ensures httpFilterConfigs.nodes == Without(old(httpFilterConfigs.nodes), filterConfig)
      ensures httpFilterConfigs.repr == old(httpFilterConfigs.repr) - {filterConfig}
    {
      hide Partition, PinnedList<HttpFilterConfig>.Valid, PinnedList<HttpFilter>.Valid;
      PartitionMembers(Parts(), pinned);
      httpFilterConfigs.Unpin(filterConfig);
      assert Parts() == old(Parts());
    }

    method PinHttpFilter(filter: HttpFilter, addr: Address) returns (item: LinkedList<HttpFilter>)
      requires Valid()
      modifies this`pinned, ListOf(addr), ListOf(addr).repr
      ensures Valid()
      ensures fresh(item) && item.obj == filter && item.addr == addr
      ensures pinned == old(pinned) + {item}
      ensures ListOf(addr).nodes == [item] + old(ListOf(addr).nodes)
    {
      hide ShardIndex, Partition, PinnedList<HttpFilter>.Valid, PinnedList<HttpFilterConfig>.Valid;
      PartitionMembers(Parts(), pinned);
      var index := ShardIndex(addr);
      item := httpFilterLists[index].Pin(filter, addr);
      PartitionUpdate(old(Parts()), pinned, item);
      pinned := pinned + {item};
      assert Parts() == old(Parts())[index := old(Parts()[index]) + {item}];
      PartitionMembers(Parts(), pinned);
    }

    method UnpinHttpFilter(filter: LinkedList<HttpFilter>)
      requires Valid() && filter in pinned
      modifies this`pinned, ListOf(filter.addr), ListOf(filter.addr).repr
      ensures Valid()
      ensures pinned == old(pinned) - {filter}
      ensures ListOf(filter.addr).nodes == Without(old(ListOf(filter.addr).nodes), filter)
    {
      hide ShardIndex, Partition, PinnedList<HttpFilter>.Valid, PinnedList<HttpFilterConfig>.Valid;
      PartitionMembers(Parts(), pinned);
      var index := ShardIndex(filter.addr);
      httpFilterLists[index].Unpin(filter);
      PartitionUpdate(old(Parts()), pinned, filter);
      pinned := pinned - {filter};
      assert Parts() == old(Parts())[index := old(Parts()[index]) - {filter}];
      PartitionMembers(Parts(), pinned);
    }
  }
}
