/**
 Pinning and unpinning filters from any number of threads, one pointer write at a time.

 Main result: every interleaving refines an atomic set of pinned addresses. Each operation takes effect at one step
 inside its critical section, a shard's list is well formed whenever its mutex is free, and a thread inside one shard
 touches no node of another.
 */
module PinConcurrency {
  import opened Common
  import opened SplitMix

  datatype Node = Node(next: Address, prev: Address)

  type Memory = map<Address, Node>

  /** How far a thread is in pinHttpFilter or unpinHttpFilter; each name says what has been done. */
  datatype PC =
    | PinAllocated(addr: Address)
    | PinIndexed(addr: Address, index: nat)
    | PinLocked(addr: Address, index: nat)
    | PinNextSet(addr: Address, index: nat)
    | PinPrevSet(addr: Address, index: nat)
    | PinHeadSet(addr: Address, index: nat)
    | UnpinCalled(addr: Address)
    | UnpinIndexed(addr: Address, index: nat)
    | UnpinLocked(addr: Address, index: nat)
    | UnpinBypassed(addr: Address, index: nat)
    | UnpinPrevSet(addr: Address, index: nat)
  {
    predicate Indexed() {
      !PinAllocated? && !UnpinCalled?
    }

    /** Inside the critical section of shard `index`. */
    predicate Holding() {
      Indexed() && !PinIndexed? && !UnpinIndexed?
    }

    /** The operation has taken effect if it is a pin, and not yet if it is an unpin. */
    predicate InTable() {
      PinHeadSet? || UnpinCalled? || UnpinIndexed? || UnpinLocked?
    }
  }

  /**
   Heads of the lists (NIL when empty), mutexes, running operations, and the handles Envoy holds. A running operation
   stands for the thread that executes it; it is named by the node it pins or unpins, and mutexes by that name too.
   Any number of threads means any set of operations.
   */
  datatype State = State(
    memory: Memory,
    heads: seq<Address>,
    locks: seq<Option<Address>>,
    running: map<Address, PC>,
    handles: set<Address>)

  datatype Label =
    | BeginPin(addr: Address)    // the allocator returned `addr`
    | BeginUnpin(addr: Address)  // Envoy destroys the filter with handle `addr`
    | Advance(addr: Address)

  // ---------------------------------------------------------------------------
  // Steps inside a critical section
  // ---------------------------------------------------------------------------

  function SetNext(m: Memory, a: Address, next: Address): Memory {
    if a in m then m[a := m[a].(next := next)] else m
  }

  function SetPrev(m: Memory, a: Address, prev: Address): Memory {
    if a in m then m[a := m[a].(prev := prev)] else m
  }

  function Load(m: Memory, a: Address): Node {
    if a in m then m[a] else Node(NIL, NIL)
  }

  /** One pointer write of the thread that holds the mutex of the list starting at `head`. */
  function Write(m: Memory, head: Address, pc: PC): (Memory, Address, PC)
    requires pc.Holding() && !pc.PinHeadSet? && !pc.UnpinPrevSet?
  {
    var a := pc.addr;
    match pc
    case PinLocked(_, i) => (SetNext(m, a, head), head, PinNextSet(a, i))
    case PinNextSet(_, i) => (if head != NIL then SetPrev(m, head, a) else m, head, PinPrevSet(a, i))
    case PinPrevSet(_, i) => (m, a, PinHeadSet(a, i))
    case UnpinLocked(_, i) =>
      if Load(m, a).prev != NIL then (SetNext(m, Load(m, a).prev, Load(m, a).next), head, UnpinBypassed(a, i))
      else (m, Load(m, a).next, UnpinBypassed(a, i))
    case UnpinBypassed(_, i) =>
      (if Load(m, a).next != NIL then SetPrev(m, Load(m, a).next, Load(m, a).prev) else m, head, UnpinPrevSet(a, i))
  }

  /** The nodes that `Write` reads or writes. */
  function Touched(m: Memory, head: Address, pc: PC): set<Address> {
    (match pc
     case PinLocked(a, _) => {a}
     case PinNextSet(_, _) => {head}
     case UnpinLocked(a, _) => {a, Load(m, a).prev}
     case UnpinBypassed(a, _) => {a, Load(m, a).next}
     case _ => {}) - {NIL}
  }

  // ---------------------------------------------------------------------------
  // The step system
  // ---------------------------------------------------------------------------

  /** The addresses the allocator cannot return: handles, and nodes that running operations refer to. */
  function InUse(s: State): set<Address> {
    s.handles + s.running.Keys
  }

  predicate Enabled(s: State, l: Label)
    requires |s.locks| == SHARDING_SIZE
  {
    match l
    case BeginPin(a) => a != NIL && a !in InUse(s)
    case BeginUnpin(a) => a in s.handles
    case Advance(a) => a in s.running && CanAdvance(s, s.running[a])
  }

  predicate CanAdvance(s: State, pc: PC)
    requires |s.locks| == SHARDING_SIZE
  {
    && (pc.Indexed() ==> pc.index < SHARDING_SIZE)
    && (pc.PinIndexed? || pc.UnpinIndexed? ==> s.locks[pc.index].None?)
  }

  function Next(s: State, l: Label): State
    requires |s.heads| == |s.locks| == SHARDING_SIZE && Enabled(s, l)
  {
    match l
    case BeginPin(a) => s.(memory := s.memory[a := Node(NIL, NIL)], running := s.running[a := PinAllocated(a)])
    case BeginUnpin(a) => s.(handles := s.handles - {a}, running := s.running[a := UnpinCalled(a)])
    case Advance(a) => Advanced(s, a, s.running[a])
  }

  function Advanced(s: State, a: Address, pc: PC): State
    requires |s.heads| == |s.locks| == SHARDING_SIZE && CanAdvance(s, pc)
  {
    match pc
    case PinAllocated(b) => s.(running := s.running[a := PinIndexed(b, ShardIndex(a))])
    case UnpinCalled(b) => s.(running := s.running[a := UnpinIndexed(b, ShardIndex(a))])
    case PinIndexed(_, i) => s.(locks := s.locks[i := Some(a)], running := s.running[a := PinLocked(a, i)])
    case UnpinIndexed(_, i) => s.(locks := s.locks[i := Some(a)], running := s.running[a := UnpinLocked(a, i)])
    case PinHeadSet(_, i) => s.(locks := s.locks[i := None], running := s.running - {a}, handles := s.handles + {a})
    case UnpinPrevSet(_, i) => s.(locks := s.locks[i := None], running := s.running - {a})
    case _ =>
      var (m, head, pc') := Write(s.memory, s.heads[pc.index], pc);
      s.(memory := m, heads := s.heads[pc.index := head], running := s.running[a := pc'])
  }

  // ---------------------------------------------------------------------------
  // Shapes of one list
  // ---------------------------------------------------------------------------

  function At(l: seq<Address>, i: int): Address {
    if 0 <= i < |l| then l[i] else NIL
  }

  /** A list of nodes: none twice, and not the nil address. */
  ghost predicate Nodes(l: seq<Address>) {
    NIL !in l && Distinct(l)
  }

  ghost predicate NextAt(m: Memory, l: seq<Address>, i: nat)
    requires i < |l|
  {
    l[i] in m && m[l[i]].next == At(l, i + 1)
  }

  ghost predicate PrevAt(m: Memory, l: seq<Address>, i: nat, stale: int, a: Address)
    requires i < |l|
  {
    l[i] in m && m[l[i]].prev == if i == stale then a else At(l, i - 1)
  }

  ghost predicate NextOk(m: Memory, l: seq<Address>) {
    forall i :: 0 <= i < |l| ==> NextAt(m, l, i)
  }

  /** `prev` pointers are right, except that the node at index `stale` still points to `a`. */
  ghost predicate PrevOk(m: Memory, l: seq<Address>, stale: int, a: Address) {
    forall i :: 0 <= i < |l| ==> PrevAt(m, l, i, stale, a)
  }

  ghost predicate WellFormed(m: Memory, head: Address, l: seq<Address>) {
    head == At(l, 0) && NextOk(m, l) && PrevOk(m, l, -1, NIL)
  }

  /** The list as the thread in its critical section has left it; `l` is the order after the operation's effect. */
  ghost predicate Shape(m: Memory, head: Address, l: seq<Address>, holder: Option<PC>) {
    match holder
    case Some(PinLocked(a, _)) => WellFormed(m, head, l) && a in m && m[a].prev == NIL
    case Some(PinNextSet(a, _)) => WellFormed(m, head, l) && a in m && m[a] == Node(At(l, 0), NIL)
    case Some(PinPrevSet(a, _)) =>
      head == At(l, 0) && NextOk(m, l) && PrevOk(m, l, 0, a) && a in m && m[a] == Node(At(l, 0), NIL)
    case Some(UnpinBypassed(a, _)) =>
      && head == At(l, 0) && NextOk(m, l) && a in m
      && exists k :: 0 <= k <= |l| && PrevOk(m, l, k, a) && m[a] == Node(At(l, k), At(l, k - 1))
    case _ => WellFormed(m, head, l)
  }

  /** The list's order after the next write of its holder. */
  function Effect(l: seq<Address>, pc: PC): seq<Address> {
    if pc.PinPrevSet? then [pc.addr] + l
    else if pc.UnpinLocked? then Without(l, pc.addr)
    else l
  }

  /** `m'` agrees with `m` on the nodes of `l`. */
  ghost predicate Agree(m: Memory, m': Memory, l: seq<Address>) {
    forall x :: x in l && x in m ==> x in m' && m'[x] == m[x]
  }

  lemma NextFrame(m: Memory, m': Memory, l: seq<Address>)
    requires NextOk(m, l) && Agree(m, m', l)
    ensures NextOk(m', l)
  {
    forall i | 0 <= i < |l| ensures NextAt(m', l, i) {
      assert NextAt(m, l, i) && l[i] in l;
    }
  }

  lemma PrevFrame(m: Memory, m': Memory, l: seq<Address>, stale: int, a: Address)
    requires PrevOk(m, l, stale, a) && Agree(m, m', l)
    ensures PrevOk(m', l, stale, a)
  {
    forall i | 0 <= i < |l| ensures PrevAt(m', l, i, stale, a) {
      assert PrevAt(m, l, i, stale, a) && l[i] in l;
    }
  }

  /** Writes outside the list and away from its holder's node do not disturb its shape. */
  lemma ShapeFrame(m: Memory, m': Memory, head: Address, l: seq<Address>, holder: Option<PC>)
    requires Shape(m, head, l, holder) && Agree(m, m', l)
    requires holder.Some? ==> Agree(m, m', [holder.value.addr])
    ensures Shape(m', head, l, holder)
  {
    NextFrame(m, m', l);
    if holder.Some? {
      assert holder.value.addr in [holder.value.addr];
    }
    match holder
    case Some(UnpinBypassed(a, _)) =>
      var k :| 0 <= k <= |l| && PrevOk(m, l, k, a) && m[a] == Node(At(l, k), At(l, k - 1));
      PrevFrame(m, m', l, k, a);
    case Some(PinPrevSet(a, _)) => PrevFrame(m, m', l, 0, a);
    case _ => PrevFrame(m, m', l, -1, NIL);
  }

  /** The holder's node is where its operation says: a pin's node is outside the list, an unpin's still inside. */
  ghost predicate Placed(l: seq<Address>, pc: PC) {
    pc.addr != NIL && (pc.addr in l <==> pc.InTable())
  }

  lemma PinLockedStep(m: Memory, head: Address, l: seq<Address>, a: Address, i: nat)
    requires Shape(m, head, l, Some(PinLocked(a, i))) && a !in l
    ensures Shape(SetNext(m, a, head), head, l, Some(PinNextSet(a, i)))
  {
    var m' := SetNext(m, a, head);
    NextFrame(m, m', l);
    PrevFrame(m, m', l, -1, NIL);
  }

  lemma PinNextSetStep(m: Memory, head: Address, l: seq<Address>, a: Address, i: nat)
    requires Shape(m, head, l, Some(PinNextSet(a, i))) && a !in l && Nodes(l)
    ensures Shape(if head != NIL then SetPrev(m, head, a) else m, head, l, Some(PinPrevSet(a, i)))
  {
    var m' := if head != NIL then SetPrev(m, head, a) else m;
    forall j | 0 <= j < |l| ensures NextAt(m', l, j) && PrevAt(m', l, j, 0, a) {
      assert NextAt(m, l, j) && PrevAt(m, l, j, -1, NIL);
    }
  }

  lemma PinPrevSetStep(m: Memory, head: Address, l: seq<Address>, a: Address, i: nat)
    requires Shape(m, head, l, Some(PinPrevSet(a, i)))
    ensures Shape(m, a, [a] + l, Some(PinHeadSet(a, i)))
  {
    var l' := [a] + l;
    forall j | 0 <= j < |l'| ensures NextAt(m, l', j) && PrevAt(m, l', j, -1, NIL) {
      if j > 0 {
        assert NextAt(m, l, j - 1) && PrevAt(m, l, j - 1, 0, a);
      }
    }
  }

  lemma NextSkips(m: Memory, l: seq<Address>, k: nat, r: seq<Address>)
    requires Skips(l, k, r) && Nodes(l) && NextOk(m, l) && PrevOk(m, l, -1, NIL)
    ensures NextAt(m, l, k)
    ensures NextOk(if k > 0 then SetNext(m, l[k - 1], m[l[k]].next) else m, r)
  {
    assert NextAt(m, l, k);
    var m' := if k > 0 then SetNext(m, l[k - 1], m[l[k]].next) else m;
    forall j | 0 <= j < |r| ensures NextAt(m', r, j) {
      var j' := if j < k then j else j + 1;
      assert NextAt(m, l, j');
    }
  }

  lemma PrevSkips(m: Memory, l: seq<Address>, k: nat, r: seq<Address>, next: Address)
    requires Skips(l, k, r) && PrevOk(m, l, -1, NIL)
    ensures PrevOk(if k > 0 then SetNext(m, l[k - 1], next) else m, r, k, l[k])
  {
    var m' := if k > 0 then SetNext(m, l[k - 1], next) else m;
    forall j | 0 <= j < |r| ensures PrevAt(m', r, j, k, l[k]) {
      var j' := if j < k then j else j + 1;
      assert PrevAt(m, l, j', -1, NIL);
    }
  }

  lemma UnpinAt(m: Memory, l: seq<Address>, k: nat, a: Address, i: nat)
    requires WellFormed(m, At(l, 0), l) && k < |l| && l[k] == a && Nodes(l)
    ensures a in m && m[a] == Node(At(l, k + 1), At(l, k - 1))
    ensures var m' := if k > 0 then SetNext(m, l[k - 1], m[a].next) else m;
            Shape(m', if k > 0 then l[0] else m[a].next, Without(l, a), Some(UnpinBypassed(a, i)))
  {
    WithoutSkips(l, k);
    var r := Without(l, a);
    assert NextAt(m, l, k) && PrevAt(m, l, k, -1, NIL);
    NextSkips(m, l, k, r);
    PrevSkips(m, l, k, r, m[a].next);
    var m' := if k > 0 then SetNext(m, l[k - 1], m[a].next) else m;
    assert PrevOk(m', r, k, a) && m'[a] == Node(At(r, k), At(r, k - 1));
  }

  lemma UnpinLockedStep(m: Memory, head: Address, l: seq<Address>, a: Address, i: nat)
    requires Shape(m, head, l, Some(UnpinLocked(a, i))) && a in l && Nodes(l)
    ensures a in m
    ensures m[a].prev != NIL ==>
              Shape(SetNext(m, m[a].prev, m[a].next), head, Without(l, a), Some(UnpinBypassed(a, i)))
    ensures m[a].prev == NIL ==> Shape(m, m[a].next, Without(l, a), Some(UnpinBypassed(a, i)))
  {
    hide NextOk, PrevOk, Without;
    var k :| 0 <= k < |l| && l[k] == a;
    UnpinAt(m, l, k, a, i);
  }

  lemma UnpinBypassedStep(m: Memory, head: Address, l: seq<Address>, a: Address, i: nat)
    requires Shape(m, head, l, Some(UnpinBypassed(a, i))) && Nodes(l)
    ensures a in m
    ensures Shape(if m[a].next != NIL then SetPrev(m, m[a].next, m[a].prev) else m, head, l, Some(UnpinPrevSet(a, i)))
  {
    var k :| 0 <= k <= |l| && PrevOk(m, l, k, a) && m[a] == Node(At(l, k), At(l, k - 1));
    var m' := if m[a].next != NIL then SetPrev(m, m[a].next, m[a].prev) else m;
    forall j | 0 <= j < |l| ensures NextAt(m', l, j) && PrevAt(m', l, j, -1, NIL) {
      assert NextAt(m, l, j) && PrevAt(m, l, j, k, a);
    }
  }

  /** After the effect of a write its node is listed just if a pin has acted or an unpin has not. */
  lemma EffectKeepsPlace(l: seq<Address>, pc: PC)
    requires Placed(l, pc) && Nodes(l)
    ensures Nodes(Effect(l, pc))
    ensures pc.addr in Effect(l, pc) <==> (pc.InTable() && !pc.UnpinLocked?) || pc.PinPrevSet?
    ensures forall x :: x != pc.addr ==> (x in Effect(l, pc) <==> x in l)
  {
    if pc.UnpinLocked? {
      var k :| 0 <= k < |l| && l[k] == pc.addr;
      WithoutSkips(l, k);
    }
  }

  /** Every write keeps the shape of the list whose mutex is held. */
  lemma WriteKeepsShape(m: Memory, head: Address, l: seq<Address>, pc: PC)
    requires pc.Holding() && !pc.PinHeadSet? && !pc.UnpinPrevSet?
    requires Shape(m, head, l, Some(pc)) && Placed(l, pc) && Nodes(l)
    ensures var (m', head', pc') := Write(m, head, pc);
            Shape(m', head', Effect(l, pc), Some(pc')) && Placed(Effect(l, pc), pc') && Nodes(Effect(l, pc))
  {
    hide Shape, Nodes, Without;
    EffectKeepsPlace(l, pc);
    match pc
    case PinLocked(a, i) => PinLockedStep(m, head, l, a, i);
    case PinNextSet(a, i) => PinNextSetStep(m, head, l, a, i);
    case PinPrevSet(a, i) => PinPrevSetStep(m, head, l, a, i);
    case UnpinLocked(a, i) => UnpinLockedStep(m, head, l, a, i);
    case UnpinBypassed(a, i) => UnpinBypassedStep(m, head, l, a, i);
  }

  /** A write stays within the list and the thread's own node, never through a nil pointer. */
  lemma WriteStaysInside(m: Memory, head: Address, l: seq<Address>, pc: PC)
    requires pc.Holding() && !pc.PinHeadSet? && !pc.UnpinPrevSet?
    requires Shape(m, head, l, Some(pc)) && Placed(l, pc)
    ensures forall x :: x in Touched(m, head, pc) ==> (x in l || x == pc.addr) && x in m
    ensures var m' := Write(m, head, pc).0;
            m'.Keys == m.Keys && forall x :: x in m && x !in Touched(m, head, pc) ==> m'[x] == m[x]
  {
    match pc
    case PinLocked(a, i) =>
    case PinNextSet(a, i) =>
      if head != NIL {
        assert NextAt(m, l, 0);
      }
    case PinPrevSet(a, i) =>
    case UnpinLocked(a, i) =>
      var k :| 0 <= k < |l| && l[k] == a;
      assert NextAt(m, l, k) && PrevAt(m, l, k, -1, NIL);
      if k > 0 {
        assert NextAt(m, l, k - 1);
      }
    case UnpinBypassed(a, i) =>
      var k :| 0 <= k <= |l| && PrevOk(m, l, k, a) && m[a] == Node(At(l, k), At(l, k - 1));
      if k < |l| {
        assert NextAt(m, l, k);
      }
  }

  // ---------------------------------------------------------------------------
  // The invariant
  // ---------------------------------------------------------------------------

  type Lists = seq<seq<Address>>

  /** The operation in the critical section of shard `i`, if any. */
  function Holder(s: State, i: nat): Option<PC>
    requires i < |s.locks|
  {
    if s.locks[i].Some? && s.locks[i].value in s.running then Some(s.running[s.locks[i].value]) else None
  }

  ghost predicate RunningOk(s: State, a: Address, pc: PC) {
    && pc.addr == a != NIL && a !in s.handles
    && (pc.Indexed() ==> pc.index == ShardIndex(a))
    && (pc.PinAllocated? || pc.PinIndexed? ==> a in s.memory && s.memory[a] == Node(NIL, NIL))
    && (pc.Holding() ==> pc.index < |s.locks| && s.locks[pc.index] == Some(a))
  }

  ghost predicate LockOk(s: State, i: nat)
    requires i < |s.locks|
  {
    s.locks[i].Some? ==>
      var a := s.locks[i].value;
      a in s.running && s.running[a].Holding() && s.running[a].index == i
  }

  /** The lists hold every handle, and of the running operations those that have (pin) or have not (unpin) acted. */
  ghost predicate ListOk(s: State, l: seq<Address>, i: nat) {
    && Nodes(l)
    && (forall a :: a in l ==> ShardIndex(a) == i && a in InUse(s))
    && (forall a :: a in s.handles && ShardIndex(a) == i ==> a in l)
    && (forall a :: a in s.running && ShardIndex(a) == i ==> Placed(l, s.running[a]))
  }

  ghost predicate Inv(s: State, lists: Lists) {
    && |s.heads| == |s.locks| == |lists| == SHARDING_SIZE
    && NIL !in s.handles
    && (forall a :: a in s.running ==> RunningOk(s, a, s.running[a]))
    && (forall i :: 0 <= i < SHARDING_SIZE ==> LockOk(s, i) && ListOk(s, lists[i], i))
    && (forall i :: 0 <= i < SHARDING_SIZE ==> Shape(s.memory, s.heads[i], lists[i], Holder(s, i)))
  }

  function NextLists(s: State, lists: Lists, l: Label): Lists {
    if l.Advance? && l.addr in s.running && s.running[l.addr].Holding() && s.running[l.addr].index < |lists| then
      var pc := s.running[l.addr];
      lists[pc.index := Effect(lists[pc.index], pc)]
    else lists
  }

  /** Nothing that `ListOk` says about shard `i` differs between the two states. */
  ghost predicate SameShard(s: State, s': State, i: nat) {
    forall x :: ShardIndex(x) == i ==>
      && (x in s.handles <==> x in s'.handles)
      && (x in s.running <==> x in s'.running)
      && (x in s.running ==> s.running[x].addr == s'.running[x].addr &&
                             (s.running[x].InTable() <==> s'.running[x].InTable()))
  }

  lemma ListFrame(s: State, s': State, l: seq<Address>, i: nat)
    requires ListOk(s, l, i) && SameShard(s, s', i)
    ensures ListOk(s', l, i)
  {
    hide ShardIndex, Nodes;
  }

  lemma KeepBeginPin(s: State, lists: Lists, a: Address)
    requires Inv(s, lists) && Enabled(s, BeginPin(a))
    ensures Inv(Next(s, BeginPin(a)), lists)
  {
    hide ShardIndex, Shape, Nodes;
    var s' := Next(s, BeginPin(a));
    assert forall i :: 0 <= i < SHARDING_SIZE ==> a !in lists[i];
    forall i | 0 <= i < SHARDING_SIZE
      ensures LockOk(s', i) && ListOk(s', lists[i], i)
      ensures Shape(s'.memory, s'.heads[i], lists[i], Holder(s', i))
    {
      assert LockOk(s, i) && ListOk(s, lists[i], i);
      assert Holder(s', i) == Holder(s, i);
      ShapeFrame(s.memory, s'.memory, s.heads[i], lists[i], Holder(s, i));
    }
  }

  lemma KeepBeginUnpin(s: State, lists: Lists, a: Address)
    requires Inv(s, lists) && Enabled(s, BeginUnpin(a))
    ensures Inv(Next(s, BeginUnpin(a)), lists)
  {
    hide ShardIndex, Shape, Nodes;
    var s' := Next(s, BeginUnpin(a));
    forall i | 0 <= i < SHARDING_SIZE
      ensures LockOk(s', i) && ListOk(s', lists[i], i) && Holder(s', i) == Holder(s, i)
    {
      assert LockOk(s, i) && ListOk(s, lists[i], i);
    }
  }

  // The state after each kind of step.

  lemma AfterIndex(s: State, a: Address)
    requires |s.heads| == |s.locks| == SHARDING_SIZE && Enabled(s, Advance(a))
    requires s.running[a].PinAllocated? || s.running[a].UnpinCalled?
    ensures var pc := s.running[a];
            var pc' := if pc.PinAllocated? then PinIndexed(pc.addr, ShardIndex(a))
                       else UnpinIndexed(pc.addr, ShardIndex(a));
            Next(s, Advance(a)) == s.(running := s.running[a := pc'])
  {}

  lemma AfterLock(s: State, a: Address)
    requires |s.heads| == |s.locks| == SHARDING_SIZE && Enabled(s, Advance(a))
    requires s.running[a].PinIndexed? || s.running[a].UnpinIndexed?
    ensures var pc := s.running[a];
            var pc' := if pc.PinIndexed? then PinLocked(a, pc.index) else UnpinLocked(a, pc.index);
            Next(s, Advance(a)) == s.(locks := s.locks[pc.index := Some(a)], running := s.running[a := pc'])
  {}

  lemma AfterUnlock(s: State, a: Address)
    requires |s.heads| == |s.locks| == SHARDING_SIZE && Enabled(s, Advance(a))
    requires s.running[a].PinHeadSet? || s.running[a].UnpinPrevSet?
    ensures var pc := s.running[a];
            Next(s, Advance(a)) == s.(locks := s.locks[pc.index := None], running := s.running - {a},
                                      handles := if pc.PinHeadSet? then s.handles + {a} else s.handles)
  {}

  lemma AfterWrite(s: State, a: Address)
    requires |s.heads| == |s.locks| == SHARDING_SIZE && Enabled(s, Advance(a))
    requires var pc := s.running[a]; pc.Holding() && !pc.PinHeadSet? && !pc.UnpinPrevSet?
    ensures var pc := s.running[a];
            var (m, head, pc') := Write(s.memory, s.heads[pc.index], pc);
            && pc'.Holding() && pc'.addr == pc.addr && pc'.index == pc.index
            && Next(s, Advance(a)) ==
               s.(memory := m, heads := s.heads[pc.index := head], running := s.running[a := pc'])
  {}

  /** Computing the index. */
  lemma KeepIndex(s: State, lists: Lists, a: Address)
    requires Inv(s, lists) && Enabled(s, Advance(a))
    requires s.running[a].PinAllocated? || s.running[a].UnpinCalled?
    ensures NextLists(s, lists, Advance(a)) == lists
    ensures Inv(Next(s, Advance(a)), lists)
  {
    hide ShardIndex, ListOk, Shape, Next;
    AfterIndex(s, a);
    var s' := Next(s, Advance(a));
    assert RunningOk(s, a, s.running[a]);
    forall b | b in s'.running ensures RunningOk(s', b, s'.running[b]) {
      assert b in s.running && RunningOk(s, b, s.running[b]);
    }
    forall i | 0 <= i < SHARDING_SIZE ensures LockOk(s', i) && ListOk(s', lists[i], i) {
      assert LockOk(s, i) && SameShard(s, s', i);
      ListFrame(s, s', lists[i], i);
    }
    forall i | 0 <= i < SHARDING_SIZE ensures Shape(s'.memory, s'.heads[i], lists[i], Holder(s', i)) {
      assert LockOk(s, i) && Shape(s.memory, s.heads[i], lists[i], Holder(s, i));
      assert Holder(s', i) == Holder(s, i);
    }
  }

  /** A free list has the shape that an operation expects on entry, and leaves on exit. */
  lemma ShapeEnter(m: Memory, head: Address, l: seq<Address>, pc: PC)
    requires pc.PinIndexed? ==> pc.addr in m && m[pc.addr].prev == NIL
    requires Shape(m, head, l, None)
    ensures pc.PinIndexed? ==> Shape(m, head, l, Some(PinLocked(pc.addr, pc.index)))
    ensures pc.UnpinIndexed? ==> Shape(m, head, l, Some(UnpinLocked(pc.addr, pc.index)))
  {}

  lemma ShapeLeave(m: Memory, head: Address, l: seq<Address>, pc: PC)
    requires (pc.PinHeadSet? || pc.UnpinPrevSet?) && Shape(m, head, l, Some(pc))
    ensures Shape(m, head, l, None)
  {}

  lemma LockKeepsOwners(s: State, s': State, lists: Lists, a: Address, pc: PC)
    requires Inv(s, lists) && a in s.running && pc.Indexed() && pc.index < SHARDING_SIZE
    requires s.running[a] == PinIndexed(a, pc.index) || s.running[a] == UnpinIndexed(a, pc.index)
    requires pc == PinLocked(a, pc.index) || pc == UnpinLocked(a, pc.index)
    requires s.locks[pc.index].None?
    requires s' == s.(locks := s.locks[pc.index := Some(a)], running := s.running[a := pc])
    ensures forall b :: b in s'.running ==> RunningOk(s', b, s'.running[b])
    ensures forall i :: 0 <= i < SHARDING_SIZE ==> LockOk(s', i)
  {
    hide ShardIndex, ListOk, Shape;
    assert RunningOk(s, a, s.running[a]);
    forall b | b in s'.running ensures RunningOk(s', b, s'.running[b]) {
      assert b in s.running && RunningOk(s, b, s.running[b]);
    }
    forall i | 0 <= i < SHARDING_SIZE ensures LockOk(s', i) {
      assert LockOk(s, i);
    }
  }

  /** Taking the mutex. */
  lemma KeepLock(s: State, lists: Lists, a: Address)
    requires Inv(s, lists) && Enabled(s, Advance(a))
    requires s.running[a].PinIndexed? || s.running[a].UnpinIndexed?
    ensures NextLists(s, lists, Advance(a)) == lists
    ensures Inv(Next(s, Advance(a)), lists)
  {
    hide ShardIndex, ListOk, Shape, Next, RunningOk;
    AfterLock(s, a);
    var s' := Next(s, Advance(a));
    var pc := s.running[a];
    ReadyToLock(s, a);
    LockKeepsOwners(s, s', lists, a, s'.running[a]);
    forall i | 0 <= i < SHARDING_SIZE ensures ListOk(s', lists[i], i) {
      assert SameShard(s, s', i);
      ListFrame(s, s', lists[i], i);
    }
    forall i | 0 <= i < SHARDING_SIZE ensures Shape(s'.memory, s'.heads[i], lists[i], Holder(s', i)) {
      assert LockOk(s, i) && Shape(s.memory, s.heads[i], lists[i], Holder(s, i));
      if i == pc.index {
        ShapeEnter(s.memory, s.heads[i], lists[i], pc);
      } else {
        assert Holder(s', i) == Holder(s, i);
      }
    }
  }

  lemma ReadyToLock(s: State, a: Address)
    requires a in s.running && RunningOk(s, a, s.running[a])
    ensures s.running[a].addr == a
    ensures s.running[a].PinIndexed? ==> a in s.memory && s.memory[a].prev == NIL
  {}

  lemma UnlockKeepsOwners(s: State, s': State, a: Address, pc: PC)
    requires |s.locks| == |s'.locks| == SHARDING_SIZE
    requires pc.Indexed() && pc.index < SHARDING_SIZE
    requires a in s.running && s.running[a] == pc && pc.Holding()
    requires s'.memory == s.memory && s'.locks == s.locks[pc.index := None] && s'.running == s.running - {a}
    requires s'.handles <= s.handles + {a}
    requires forall b :: b in s.running ==> RunningOk(s, b, s.running[b])
    requires forall i :: 0 <= i < SHARDING_SIZE ==> LockOk(s, i)
    ensures forall b :: b in s'.running ==> RunningOk(s', b, s'.running[b])
    ensures forall i :: 0 <= i < SHARDING_SIZE ==> LockOk(s', i)
  {
    hide ShardIndex;
    assert RunningOk(s, a, pc) && LockOk(s, pc.index);
    forall b | b in s'.running ensures RunningOk(s', b, s'.running[b]) {
      assert b in s.running && RunningOk(s, b, s.running[b]);
    }
    forall i | 0 <= i < SHARDING_SIZE ensures LockOk(s', i) {
      assert LockOk(s, i);
    }
  }

  /** The list of a finished operation: a pinned node has become a handle, an unpinned one is gone. */
  lemma UnlockKeepsList(s: State, s': State, l: seq<Address>, a: Address, pc: PC)
    requires a in s.running && s.running[a] == pc && pc.addr == a && pc.Indexed() && pc.index == ShardIndex(a)
    requires (pc.PinHeadSet? && s'.handles == s.handles + {a}) || (pc.UnpinPrevSet? && s'.handles == s.handles)
    requires s'.running == s.running - {a}
    requires ListOk(s, l, pc.index)
    ensures ListOk(s', l, pc.index)
  {
    hide ShardIndex, Nodes;
    assert Placed(l, pc);
  }

  /** Releasing the mutex and returning. */
  lemma KeepUnlock(s: State, lists: Lists, a: Address)
    requires Inv(s, lists) && Enabled(s, Advance(a))
    requires s.running[a].PinHeadSet? || s.running[a].UnpinPrevSet?
    ensures NextLists(s, lists, Advance(a)) == lists
    ensures Inv(Next(s, Advance(a)), lists)
  {
    hide ShardIndex, Nodes, Shape, Next, ListOk;
    AfterUnlock(s, a);
    var s' := Next(s, Advance(a));
    var pc := s.running[a];
    assert RunningOk(s, a, pc);
    UnlockKeepsOwners(s, s', a, pc);
    forall i | 0 <= i < SHARDING_SIZE ensures ListOk(s', lists[i], i) {
      if i == pc.index {
        UnlockKeepsList(s, s', lists[i], a, pc);
      } else {
        assert SameShard(s, s', i);
        ListFrame(s, s', lists[i], i);
      }
    }
    forall i | 0 <= i < SHARDING_SIZE ensures Shape(s'.memory, s'.heads[i], lists[i], Holder(s', i)) {
      assert LockOk(s, i) && Shape(s.memory, s.heads[i], lists[i], Holder(s, i));
      if i == pc.index {
        ShapeLeave(s.memory, s.heads[i], lists[i], pc);
      } else {
        assert Holder(s', i) == Holder(s, i);
      }
    }
  }

  /** The write of the operation `a` in shard `i` leaves every other shard alone. */
  lemma OtherShardUntouched(s: State, lists: Lists, a: Address, j: nat)
    requires Inv(s, lists) && Enabled(s, Advance(a)) && j < SHARDING_SIZE
    requires var pc := s.running[a]; pc.Holding() && !pc.PinHeadSet? && !pc.UnpinPrevSet? && pc.index != j
    ensures var s' := Next(s, Advance(a));
            Shape(s'.memory, s.heads[j], lists[j], Holder(s, j)) && Holder(s', j) == Holder(s, j)
  {
    hide ShardIndex, Nodes, Shape, Write, Touched, Next;
    AfterWrite(s, a);
    var pc := s.running[a];
    var i := pc.index;
    var s' := Next(s, Advance(a));
    assert RunningOk(s, a, pc) && LockOk(s, j) && ListOk(s, lists[i], i) && ListOk(s, lists[j], j);
    assert Holder(s, i) == Some(pc);
    WriteStaysInside(s.memory, s.heads[i], lists[i], pc);
    assert Agree(s.memory, s'.memory, lists[j]);
    if Holder(s, j).Some? {
      var b := s.locks[j].value;
      assert RunningOk(s, b, s.running[b]);
      assert Agree(s.memory, s'.memory, [b]);
    }
    ShapeFrame(s.memory, s'.memory, s.heads[j], lists[j], Holder(s, j));
  }

  lemma ListEffect(s: State, s': State, l: seq<Address>, r: seq<Address>, i: nat, a: Address, pc: PC)
    requires ListOk(s, l, i) && a in s.running && a !in s.handles && ShardIndex(a) == i
    requires s'.handles == s.handles && s'.running == s.running[a := pc]
    requires Placed(r, pc) && Nodes(r) && pc.addr == a
    requires forall x :: x in s.running && x != a ==> s.running[x].addr == x
    requires forall x :: x != a ==> (x in r <==> x in l)
    ensures ListOk(s', r, i)
  {
    hide ShardIndex, Nodes;
  }

  lemma WriteKeepsOwners(s: State, s': State, l: seq<Address>, a: Address, pc: PC)
    requires |s.locks| == SHARDING_SIZE && pc.Indexed() && pc.index < SHARDING_SIZE
    requires a in s.running && s.running[a].Holding() && s.running[a].index == pc.index
    requires s'.locks == s.locks && s'.handles == s.handles && s'.running == s.running[a := pc]
    requires pc.Holding() && pc.addr == a
    requires forall b :: b in s.running ==> RunningOk(s, b, s.running[b])
    requires forall i :: 0 <= i < SHARDING_SIZE ==> LockOk(s, i)
    requires forall x :: x in s.running && x != a && x in l ==> s.running[x].InTable()
    requires s'.memory.Keys == s.memory.Keys
    requires forall x :: x in s.memory && x !in l && x != a ==> s'.memory[x] == s.memory[x]
    ensures forall b :: b in s'.running ==> RunningOk(s', b, s'.running[b])
    ensures forall i :: 0 <= i < SHARDING_SIZE ==> LockOk(s', i)
  {
    hide ShardIndex;
    assert RunningOk(s, a, s.running[a]);
    forall b | b in s'.running ensures RunningOk(s', b, s'.running[b]) {
      assert b in s.running && RunningOk(s, b, s.running[b]);
    }
    forall i | 0 <= i < SHARDING_SIZE ensures LockOk(s', i) {
      assert LockOk(s, i);
    }
  }

  /** A pointer write under the mutex. */
  lemma KeepWrite(s: State, lists: Lists, a: Address)
    requires Inv(s, lists) && Enabled(s, Advance(a))
    requires var pc := s.running[a]; pc.Holding() && !pc.PinHeadSet? && !pc.UnpinPrevSet?
    ensures Inv(Next(s, Advance(a)), NextLists(s, lists, Advance(a)))
  {
    hide ShardIndex, Nodes, Shape, Write, Touched, Effect, Next;
    AfterWrite(s, a);
    var pc := s.running[a];
    var i := pc.index;
    var s' := Next(s, Advance(a));
    var lists' := NextLists(s, lists, Advance(a));
    assert RunningOk(s, a, pc) && ListOk(s, lists[i], i) && LockOk(s, i) && Holder(s, i) == Some(pc);
    WriteKeepsShape(s.memory, s.heads[i], lists[i], pc);
    WriteStaysInside(s.memory, s.heads[i], lists[i], pc);
    EffectKeepsPlace(lists[i], pc);
    InListInTable(s, lists[i], i);
    WriteKeepsOwners(s, s', lists[i], a, s'.running[a]);
    forall j | 0 <= j < SHARDING_SIZE ensures ListOk(s', lists'[j], j) {
      if j != i {
        OtherListKept(s, s', lists[j], j, a);
      } else {
        ListEffect(s, s', lists[i], lists'[i], i, a, s'.running[a]);
      }
    }
    forall j | 0 <= j < SHARDING_SIZE ensures Shape(s'.memory, s'.heads[j], lists'[j], Holder(s', j)) {
      if j != i {
        OtherShardUntouched(s, lists, a, j);
      }
    }
  }

  lemma InListInTable(s: State, l: seq<Address>, i: nat)
    requires ListOk(s, l, i)
    requires forall b :: b in s.running ==> RunningOk(s, b, s.running[b])
    ensures forall x :: x in s.running && x in l ==> s.running[x].InTable()
  {
    hide ShardIndex, Nodes;
    forall x | x in s.running && x in l ensures s.running[x].InTable() {
      assert RunningOk(s, x, s.running[x]) && Placed(l, s.running[x]);
    }
  }

  lemma OtherListKept(s: State, s': State, l: seq<Address>, j: nat, a: Address)
    requires ListOk(s, l, j) && a in s.running && ShardIndex(a) != j
    requires s'.handles == s.handles && s'.running.Keys == s.running.Keys
    requires forall x :: x in s.running && x != a ==> s'.running[x] == s.running[x]
    ensures ListOk(s', l, j)
  {
    hide ShardIndex, ListOk;
    assert SameShard(s, s', j);
    ListFrame(s, s', l, j);
  }

  /** Every step keeps the invariant. */
  lemma Keep(s: State, lists: Lists, l: Label)
    requires Inv(s, lists) && Enabled(s, l)
    ensures Inv(Next(s, l), NextLists(s, lists, l))
  {
    hide Inv, Next, NextLists;
    NextListsOther(s, lists, l);
    match l
    case BeginPin(a) => KeepBeginPin(s, lists, a);
    case BeginUnpin(a) => KeepBeginUnpin(s, lists, a);
    case Advance(a) =>
      var pc := s.running[a];
      if pc.PinAllocated? || pc.UnpinCalled? {
        KeepIndex(s, lists, a);
      } else if pc.PinIndexed? || pc.UnpinIndexed? {
        KeepLock(s, lists, a);
      } else if pc.PinHeadSet? || pc.UnpinPrevSet? {
        KeepUnlock(s, lists, a);
      } else {
        KeepWrite(s, lists, a);
      }
  }

  lemma NextListsOther(s: State, lists: Lists, l: Label)
    ensures !l.Advance? ==> NextLists(s, lists, l) == lists
  {}

  // ---------------------------------------------------------------------------
  // Refinement of an atomic set
  // ---------------------------------------------------------------------------

  /** The set of pinned addresses that the lists stand for. */
  ghost function Pinned(lists: Lists): set<Address> {
    set i, a | 0 <= i < |lists| && a in lists[i] :: a
  }

  datatype Action = Pin(addr: Address) | Unpin(addr: Address)

  /** The atomic action that a step performs, if it is the one at which its operation takes effect. */
  function ActionOf(s: State, l: Label): Option<Action> {
    if !l.Advance? || l.addr !in s.running then None
    else if s.running[l.addr].PinPrevSet? then Some(Pin(l.addr))
    else if s.running[l.addr].UnpinLocked? then Some(Unpin(l.addr))
    else None
  }

  /** An atomic set: only an absent address is pinned, only a present one is unpinned. */
  predicate Permitted(pinned: set<Address>, action: Action) {
    match action
    case Pin(a) => a !in pinned
    case Unpin(a) => a in pinned
  }

  function Perform(pinned: set<Address>, action: Action): set<Address> {
    match action
    case Pin(a) => pinned + {a}
    case Unpin(a) => pinned - {a}
  }

  /** Replacing one list by another that differs from it in one node changes the set by that node only. */
  lemma PinnedAfter(lists: Lists, i: nat, r: seq<Address>, a: Address)
    requires i < |lists| && forall x :: x != a ==> (x in r <==> x in lists[i])
    requires forall j :: 0 <= j < |lists| && a in lists[j] ==> j == i
    ensures Pinned(lists[i := r]) == if a in r then Pinned(lists) + {a} else Pinned(lists) - {a}
  {
    var lists' := lists[i := r];
    forall x ensures x in Pinned(lists') <==> if x == a then a in r else x in Pinned(lists) {
      if x in Pinned(lists') {
        var j :| 0 <= j < |lists'| && x in lists'[j];
        assert j != i ==> lists'[j] == lists[j];
      }
      if x in Pinned(lists) && x != a {
        var j :| 0 <= j < |lists| && x in lists[j];
        assert x in lists'[j];
      }
      if x == a && a in r {
        assert a in lists'[i];
      }
    }
  }

  /** Each step is invisible in the atomic set, or is a permitted action of it inside a critical section. */
  lemma StepRefines(s: State, lists: Lists, l: Label)
    requires Inv(s, lists) && Enabled(s, l)
    ensures match ActionOf(s, l)
            case None => Pinned(NextLists(s, lists, l)) == Pinned(lists)
            case Some(action) =>
              && s.running[l.addr].Holding()
              && Permitted(Pinned(lists), action)
              && Pinned(NextLists(s, lists, l)) == Perform(Pinned(lists), action)
  {
    hide ShardIndex, Nodes, Shape, Effect;
    if l.Advance? && s.running[l.addr].Holding() {
      var a, pc := l.addr, s.running[l.addr];
      var i := pc.index;
      assert RunningOk(s, a, pc) && ListOk(s, lists[i], i);
      EffectKeepsPlace(lists[i], pc);
      forall j | 0 <= j < SHARDING_SIZE ensures a in lists[j] ==> j == i {
        assert ListOk(s, lists[j], j);
      }
      PinnedAfter(lists, i, Effect(lists[i], pc), a);
    }
  }

  // ---------------------------------------------------------------------------
  // Runs
  // ---------------------------------------------------------------------------

  const INITIAL := State(map[], seq(SHARDING_SIZE, _ => NIL), seq(SHARDING_SIZE, _ => None), map[], {})
  const NO_LISTS: Lists := seq(SHARDING_SIZE, _ => [])

  /** The states of a schedule, last one last, while it is enabled. */
  datatype Run = Run(state: State, lists: Lists, actions: seq<Action>)

  ghost predicate Sized(s: State) {
    |s.heads| == |s.locks| == SHARDING_SIZE
  }

  ghost predicate Schedule(s: State, labels: seq<Label>)
    decreases |labels|
  {
    Sized(s) && (labels != [] ==> Enabled(s, labels[0]) && Schedule(Next(s, labels[0]), labels[1..]))
  }

  /** The run of a schedule; `actions` are the atomic actions in the order in which they took effect. */
  ghost function Execute(s: State, lists: Lists, labels: seq<Label>): Run
    requires Schedule(s, labels)
    decreases |labels|
  {
    if labels == [] then Run(s, lists, [])
    else
      var rest := Execute(Next(s, labels[0]), NextLists(s, lists, labels[0]), labels[1..]);
      var action := ActionOf(s, labels[0]);
      rest.(actions := (if action.Some? then [action.value] else []) + rest.actions)
  }

  predicate AllPermitted(pinned: set<Address>, actions: seq<Action>)
    decreases |actions|
  {
    actions != [] ==> Permitted(pinned, actions[0]) && AllPermitted(Perform(pinned, actions[0]), actions[1..])
  }

  function PerformAll(pinned: set<Address>, actions: seq<Action>): set<Address>
    decreases |actions|
  {
    if actions == [] then pinned else PerformAll(Perform(pinned, actions[0]), actions[1..])
  }

  lemma {:induction false} ScheduleRefines(s: State, lists: Lists, labels: seq<Label>)
    requires Inv(s, lists) && Schedule(s, labels)
    ensures var run := Execute(s, lists, labels);
            && Inv(run.state, run.lists)
            && AllPermitted(Pinned(lists), run.actions)
            && Pinned(run.lists) == PerformAll(Pinned(lists), run.actions)
    decreases |labels|
  {
    hide Inv, Next, NextLists, Pinned, ActionOf, Permitted, Perform;
    if labels != [] {
      var l := labels[0];
      Keep(s, lists, l);
      StepRefines(s, lists, l);
      ScheduleRefines(Next(s, l), NextLists(s, lists, l), labels[1..]);
      var rest := Execute(Next(s, l), NextLists(s, lists, l), labels[1..]);
      if ActionOf(s, l).Some? {
        var actions := [ActionOf(s, l).value] + rest.actions;
        assert actions[1..] == rest.actions;
      } else {
        assert [] + rest.actions == rest.actions;
      }
    }
  }

  /**
   Every run from the empty table refines an atomic set of pinned addresses: the invariant holds at its end, and the
   operations that took effect are permitted actions of the set, one after the other, that lead to the lists' content.
   */
  lemma EveryRunRefinesASet(labels: seq<Label>)
    requires Schedule(INITIAL, labels)
    ensures var run := Execute(INITIAL, NO_LISTS, labels);
            && Inv(run.state, run.lists)
            && AllPermitted({}, run.actions)
            && Pinned(run.lists) == PerformAll({}, run.actions)
  {
    hide ShardIndex;
    assert Inv(INITIAL, NO_LISTS);
    assert Pinned(NO_LISTS) == {};
    ScheduleRefines(INITIAL, NO_LISTS, labels);
  }

  /** A list whose mutex is free is well formed, and every handle Envoy holds is in the list its address hashes to. */
  lemma FreeListsAreWellFormed(s: State, lists: Lists, i: nat)
    requires Inv(s, lists) && i < SHARDING_SIZE
    ensures s.locks[i].None? ==> WellFormed(s.memory, s.heads[i], lists[i]) && Nodes(lists[i])
    ensures forall a :: a in s.handles && ShardIndex(a) == i ==> a in lists[i]
  {
    hide ShardIndex, WellFormed;
    assert ListOk(s, lists[i], i) && Shape(s.memory, s.heads[i], lists[i], Holder(s, i));
  }

  ghost predicate NodesOfShard(nodes: set<Address>, m: Memory, i: nat) {
    forall x :: x in nodes ==> x in m && ShardIndex(x) == i
  }

  ghost predicate SameOn(m: Memory, m': Memory, nodes: set<Address>) {
    forall x :: x in nodes ==> (x in m <==> x in m') && (x in m ==> m[x] == m'[x])
  }

  /** A write depends on the head and on the nodes in `Touched`: memories that agree there give the same write. */
  lemma WriteReadsTouched(m: Memory, m': Memory, head: Address, pc: PC)
    requires pc.Holding() && !pc.PinHeadSet? && !pc.UnpinPrevSet?
    requires SameOn(m, m', Touched(m, head, pc)) && pc.addr != NIL
    ensures Write(m, head, pc).1 == Write(m', head, pc).1
    ensures Write(m, head, pc).2 == Write(m', head, pc).2
    ensures SameOn(Write(m, head, pc).0, Write(m', head, pc).0, Touched(m, head, pc))
  {}

  /**
   A thread in a critical section reads and writes existing nodes of its own shard only: all other nodes stay as they
   are, and whatever they hold (`m'`), the thread does the same.
   */
  lemma TouchesOwnShardOnly(s: State, lists: Lists, a: Address, pc: PC, i: nat, m': Memory)
    requires Sized(s) && i < SHARDING_SIZE && pc.Indexed() && pc.index == i
    requires pc.Holding() && !pc.PinHeadSet? && !pc.UnpinPrevSet?
    requires Inv(s, lists) && a in s.running && s.running[a] == pc
    requires SameOn(s.memory, m', Touched(s.memory, s.heads[i], pc))
    ensures i == ShardIndex(a) && NodesOfShard(Touched(s.memory, s.heads[i], pc), s.memory, i)
    ensures var touched, after := Touched(s.memory, s.heads[i], pc), Write(s.memory, s.heads[i], pc);
            var after' := Write(m', s.heads[i], pc);
            && SameOn(s.memory, after.0, s.memory.Keys + after.0.Keys - touched)
            && after.1 == after'.1 && after.2 == after'.2 && SameOn(after.0, after'.0, touched)
  {
    hide ShardIndex, Touched, Shape, Nodes, Write;
    assert RunningOk(s, a, pc) && LockOk(s, i) && ListOk(s, lists[i], i);
    assert Holder(s, i) == Some(pc);
    WriteStaysInside(s.memory, s.heads[i], lists[i], pc);
    WriteReadsTouched(s.memory, m', s.heads[i], pc);
  }

  /** The node `k` links behind the head. */
  function Follow(m: Memory, head: Address, k: nat): Address {
    if k == 0 then head else Load(m, Follow(m, head, k - 1)).next
  }

  lemma {:induction false} FollowList(m: Memory, l: seq<Address>, k: nat)
    requires NextOk(m, l) && k < |l|
    ensures Follow(m, l[0], k) == l[k]
  {
    if k > 0 {
      FollowList(m, l, k - 1);
      assert NextAt(m, l, k - 1);
    }
  }

  lemma ShapeLinks(m: Memory, head: Address, l: seq<Address>, holder: Option<PC>)
    requires Shape(m, head, l, holder)
    ensures head == At(l, 0) && NextOk(m, l)
  {
    hide NextOk, PrevOk;
  }

  /**
   A collector may look at any moment: every handle is reached from the head of its shard through the forward links,
   whether a thread is in the critical section or not.
   */
  lemma HandlesStayReachable(s: State, lists: Lists, a: Address)
    requires Inv(s, lists) && a in s.handles
    ensures exists k :: Follow(s.memory, s.heads[ShardIndex(a)], k) == a
  {
    hide ShardIndex, Shape, Nodes, Follow;
    var i := ShardIndex(a);
    assert ListOk(s, lists[i], i) && Shape(s.memory, s.heads[i], lists[i], Holder(s, i));
    ShapeLinks(s.memory, s.heads[i], lists[i], Holder(s, i));
    var k :| 0 <= k < |lists[i]| && lists[i][k] == a;
    FollowList(s.memory, lists[i], k);
  }

  /** In every reachable state of every run, every handle Envoy holds is reachable from the manager. */
  lemma EveryRunKeepsHandles(labels: seq<Label>, a: Address)
    requires Schedule(INITIAL, labels) && a in Execute(INITIAL, NO_LISTS, labels).state.handles
    ensures var s := Execute(INITIAL, NO_LISTS, labels).state;
            Sized(s) && exists k :: Follow(s.memory, s.heads[ShardIndex(a)], k) == a
  {
    hide ShardIndex, Inv, Follow;
    EveryRunRefinesASet(labels);
    var run := Execute(INITIAL, NO_LISTS, labels);
    SizedByInv(run.state, run.lists);
    HandlesStayReachable(run.state, run.lists, a);
  }

  lemma SizedByInv(s: State, lists: Lists)
    requires Inv(s, lists)
    ensures Sized(s)
  {}

  /** While any operation runs, some operation can take a step: there is no deadlock. */
  lemma NoDeadlock(s: State, lists: Lists, a: Address)
    requires Inv(s, lists) && a in s.running
    ensures exists b :: b in s.running && Enabled(s, Advance(b))
  {
    hide ShardIndex, ListOk, Shape;
    var pc := s.running[a];
    assert RunningOk(s, a, pc);
    if (pc.PinIndexed? || pc.UnpinIndexed?) && s.locks[pc.index].Some? {
      var b := s.locks[pc.index].value;
      assert LockOk(s, pc.index);
      assert RunningOk(s, b, s.running[b]);
      assert Enabled(s, Advance(b));
    } else {
      assert Enabled(s, Advance(a));
    }
  }
}
