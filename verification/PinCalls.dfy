/**
 What the calls that Envoy makes lead to, in every interleaving: every pin and every unpin takes effect once, within a
 fixed number of steps of its own, can always be completed, and the table ends up with what the calls say.
 */
module PinCalls {
  import opened Common
  import opened SplitMix
  import opened PinConcurrency

  predicate IsPin(pc: PC) {
    pc.PinAllocated? || pc.PinIndexed? || pc.PinLocked? || pc.PinNextSet? || pc.PinPrevSet? || pc.PinHeadSet?
  }

  /** The last call about an address: a pin, an unpin, or none. */
  function LastCall(labels: seq<Label>, a: Address): Option<Label>
    decreases |labels|
  {
    if labels == [] then None
    else
      var later := LastCall(labels[1..], a);
      if later.Some? then later
      else if labels[0] == BeginPin(a) || labels[0] == BeginUnpin(a) then Some(labels[0])
      else None
  }

  /** The address is pinned, or will be when its running operation has ended. */
  predicate Wanted(s: State, a: Address) {
    if a in s.running then IsPin(s.running[a]) else a in s.handles
  }

  /** The action that the running operation on an address still owes. */
  function Owed(s: State, a: Address): Option<Action> {
    if a !in s.running then None
    else if IsPin(s.running[a]) && !s.running[a].PinHeadSet? then Some(Pin(a))
    else if s.running[a].UnpinCalled? || s.running[a].UnpinIndexed? || s.running[a].UnpinLocked? then Some(Unpin(a))
    else None
  }

  /** The steps that an operation still takes. */
  function StepsLeft(pc: PC): nat {
    match pc
    case PinAllocated(_) => 6
    case PinIndexed(_, _) => 5
    case PinLocked(_, _) => 4
    case PinNextSet(_, _) => 3
    case PinPrevSet(_, _) => 2
    case PinHeadSet(_, _) => 1
    case UnpinCalled(_) => 5
    case UnpinIndexed(_, _) => 4
    case UnpinLocked(_, _) => 3
    case UnpinBypassed(_, _) => 2
    case UnpinPrevSet(_, _) => 1
  }

  function Left(s: State, a: Address): nat {
    if a in s.running then StepsLeft(s.running[a]) else 0
  }

  lemma WriteMoves(m: Memory, head: Address, pc: PC)
    requires pc.Holding() && !pc.PinHeadSet? && !pc.UnpinPrevSet?
    ensures var pc' := Write(m, head, pc).2;
            IsPin(pc') == IsPin(pc) && StepsLeft(pc') == StepsLeft(pc) - 1
  {}

  /** An advance moves its own operation by one step, and no other. */
  lemma AdvanceMoves(s: State, lists: Lists, a: Address)
    requires Inv(s, lists) && Enabled(s, Advance(a))
    ensures var s', pc := Next(s, Advance(a)), s.running[a];
            && s'.running - {a} == s.running - {a}
            && (a in s'.running <==> !pc.PinHeadSet? && !pc.UnpinPrevSet?)
            && (a in s'.running ==> IsPin(s'.running[a]) == IsPin(pc) && StepsLeft(s'.running[a]) == StepsLeft(pc) - 1)
            && s'.handles == if pc.PinHeadSet? then s.handles + {a} else s.handles
  {
    hide ShardIndex, Inv, Next, Write, Enabled;
    InvAt(s, lists, a);
    var pc := s.running[a];
    if pc.PinAllocated? || pc.UnpinCalled? {
      AfterIndex(s, a);
    } else if pc.PinIndexed? || pc.UnpinIndexed? {
      AfterLock(s, a);
    } else if pc.PinHeadSet? || pc.UnpinPrevSet? {
      AfterUnlock(s, a);
    } else {
      AfterWrite(s, a);
      WriteMoves(s.memory, s.heads[pc.index], pc);
    }
  }

  lemma InvAt(s: State, lists: Lists, a: Address)
    requires Inv(s, lists)
    ensures Sized(s)
    ensures Enabled(s, Advance(a)) ==> a in s.running
    ensures a in s.running ==> s.running[a].addr == a && a !in s.handles
    ensures a in s.running && s.running[a].Indexed() ==> s.running[a].index < SHARDING_SIZE
    ensures a in s.running && s.running[a].Holding() ==> Enabled(s, Advance(a))
  {
    hide ShardIndex, Shape, ListOk;
    if a in s.running {
      assert RunningOk(s, a, s.running[a]);
    }
  }

  /** What a step makes of what is wanted and of what is left to do. */
  lemma StepWants(s: State, lists: Lists, l: Label, a: Address)
    requires Inv(s, lists) && Enabled(s, l)
    ensures Wanted(Next(s, l), a) <==>
            if l == BeginPin(a) then true else if l == BeginUnpin(a) then false else Wanted(s, a)
    ensures Left(Next(s, l), a) ==
            if l == BeginPin(a) then 6 else if l == BeginUnpin(a) then 5
            else if l == Advance(a) then Left(s, a) - 1 else Left(s, a)
    ensures l == BeginPin(a) || l == BeginUnpin(a) ==> Left(s, a) == 0
  {
    hide Inv, Advanced;
    InvAt(s, lists, a);
    if l.Advance? {
      var b, s' := l.addr, Next(s, l);
      AdvanceMoves(s, lists, b);
      if b != a {
        OtherKept(s.running, s'.running, b, a);
      }
    }
  }

  lemma OtherKept(m: map<Address, PC>, m': map<Address, PC>, b: Address, a: Address)
    requires m' - {b} == m - {b} && a != b
    ensures a in m' <==> a in m
    ensures a in m ==> m'[a] == m[a]
  {
    assert a in m <==> a in m - {b};
    assert a in m' <==> a in m' - {b};
    assert a in m ==> (m - {b})[a] == m[a] && (m' - {b})[a] == m'[a];
  }

  predicate Pinning(s: State, a: Address) {
    Owed(s, a) == Some(Pin(a))
  }

  predicate Unpinning(s: State, a: Address) {
    Owed(s, a) == Some(Unpin(a))
  }

  function Bit(b: bool): nat {
    if b then 1 else 0
  }

  /** An action takes effect exactly when it stops being owed, and becomes owed exactly by a call. */
  lemma StepOwes(s: State, lists: Lists, l: Label, a: Address)
    requires Inv(s, lists) && Enabled(s, l)
    ensures Bit(ActionOf(s, l) == Some(Pin(a))) + Bit(Pinning(Next(s, l), a)) ==
            Bit(l == BeginPin(a)) + Bit(Pinning(s, a))
    ensures Bit(ActionOf(s, l) == Some(Unpin(a))) + Bit(Unpinning(Next(s, l), a)) ==
            Bit(l == BeginUnpin(a)) + Bit(Unpinning(s, a))
  {
    hide Inv, Advanced, Write;
    InvAt(s, lists, a);
    StepWants(s, lists, l, a);
    if l.Advance? && l.addr != a {
      AdvanceMoves(s, lists, l.addr);
      OtherKept(s.running, Next(s, l).running, l.addr, a);
    } else if l.Advance? {
      AdvanceMoves(s, lists, a);
      OwedByStepsLeft(s.running[a]);
      if a in Next(s, l).running {
        OwedByStepsLeft(Next(s, l).running[a]);
      }
    }
  }

  lemma OwedByStepsLeft(pc: PC)
    ensures IsPin(pc) ==> 1 <= StepsLeft(pc) <= 6 && (pc.PinHeadSet? <==> StepsLeft(pc) == 1)
    ensures IsPin(pc) ==> (pc.PinPrevSet? <==> StepsLeft(pc) == 2)
    ensures !IsPin(pc) ==> (pc.UnpinCalled? || pc.UnpinIndexed? || pc.UnpinLocked? <==> StepsLeft(pc) >= 3)
    ensures !IsPin(pc) ==> (pc.UnpinLocked? <==> StepsLeft(pc) == 3)
  {}

  /** At rest, exactly the wanted addresses are in the lists. */
  lemma RestingIsWanted(s: State, lists: Lists, a: Address)
    requires Inv(s, lists) && a !in s.running
    ensures a in Pinned(lists) <==> a in s.handles
  {
    hide ShardIndex, Shape, Nodes, Placed;
    if a in s.handles {
      assert ListOk(s, lists[ShardIndex(a)], ShardIndex(a));
    }
    if a in Pinned(lists) {
      var i :| 0 <= i < |lists| && a in lists[i];
      assert ListOk(s, lists[i], i);
    }
  }

  // ---------------------------------------------------------------------------
  // Whole schedules
  // ---------------------------------------------------------------------------

  lemma {:induction false} CallsDecide(s: State, lists: Lists, labels: seq<Label>, a: Address)
    requires Inv(s, lists) && Schedule(s, labels)
    ensures var run, last := Execute(s, lists, labels), LastCall(labels, a);
            Wanted(run.state, a) <==> if last.Some? then last.value == BeginPin(a) else Wanted(s, a)
    decreases |labels|
  {
    hide Inv, Next, NextLists, Wanted, Left;
    if labels != [] {
      Keep(s, lists, labels[0]);
      StepWants(s, lists, labels[0], a);
      CallsDecide(Next(s, labels[0]), NextLists(s, lists, labels[0]), labels[1..], a);
    }
  }

  lemma FirstOf<T>(s: seq<T>, x: T)
    requires s != []
    ensures multiset(s)[x] == (if s[0] == x then 1 else 0) + multiset(s[1..])[x]
  {
    assert s == [s[0]] + s[1..];
  }

  lemma {:induction false} CallsCount(s: State, lists: Lists, labels: seq<Label>, a: Address)
    requires Inv(s, lists) && Schedule(s, labels)
    ensures var run := Execute(s, lists, labels);
            && multiset(run.actions)[Pin(a)] + Bit(Pinning(run.state, a)) ==
               multiset(labels)[BeginPin(a)] + Bit(Pinning(s, a))
            && multiset(run.actions)[Unpin(a)] + Bit(Unpinning(run.state, a)) ==
               multiset(labels)[BeginUnpin(a)] + Bit(Unpinning(s, a))
    decreases |labels|
  {
    hide Inv, Next, NextLists, Pinning, Unpinning, ActionOf;
    if labels != [] {
      var l := labels[0];
      Keep(s, lists, l);
      StepOwes(s, lists, l, a);
      CallsCount(Next(s, l), NextLists(s, lists, l), labels[1..], a);
      FirstOf(labels, BeginPin(a));
      FirstOf(labels, BeginUnpin(a));
      var rest := Execute(Next(s, l), NextLists(s, lists, l), labels[1..]);
      ActionsFirst(ActionOf(s, l), rest.actions, Pin(a));
      ActionsFirst(ActionOf(s, l), rest.actions, Unpin(a));
    }
  }

  lemma ActionsFirst(first: Option<Action>, rest: seq<Action>, x: Action)
    ensures multiset((if first.Some? then [first.value] else []) + rest)[x] == Bit(first == Some(x)) + multiset(rest)[x]
  {}

  lemma {:induction false} StepsCount(s: State, lists: Lists, labels: seq<Label>, a: Address)
    requires Inv(s, lists) && Schedule(s, labels)
    ensures var run := Execute(s, lists, labels);
            multiset(labels)[Advance(a)] + Left(run.state, a) ==
            6 * multiset(labels)[BeginPin(a)] + 5 * multiset(labels)[BeginUnpin(a)] + Left(s, a)
    decreases |labels|
  {
    hide Inv, Next, NextLists, Left, Wanted;
    if labels != [] {
      var l := labels[0];
      Keep(s, lists, l);
      StepWants(s, lists, l, a);
      StepsCount(Next(s, l), NextLists(s, lists, l), labels[1..], a);
      FirstOf(labels, BeginPin(a));
      FirstOf(labels, BeginUnpin(a));
      FirstOf(labels, Advance(a));
    }
  }

  /**
   Every call of Envoy does what it asks for. In every run and for every address: unless an operation on it is still
   running, the address is in the lists if and only if the last call about it was a pin, and then Envoy holds it as a
   handle; the pins and unpins that took effect are as many as the calls, less the one that may still be owed; and a
   pin has taken six steps, an unpin five, less those that are left.
   */
  lemma EveryCallActs(labels: seq<Label>, a: Address)
    requires Schedule(INITIAL, labels)
    ensures var run := Execute(INITIAL, NO_LISTS, labels);
            && (a !in run.state.running ==>
                  && (a in Pinned(run.lists) <==> LastCall(labels, a) == Some(BeginPin(a)))
                  && (a in Pinned(run.lists) <==> a in run.state.handles)
                  && multiset(run.actions)[Pin(a)] == multiset(labels)[BeginPin(a)]
                  && multiset(run.actions)[Unpin(a)] == multiset(labels)[BeginUnpin(a)]
                  && multiset(labels)[Advance(a)] ==
                     6 * multiset(labels)[BeginPin(a)] + 5 * multiset(labels)[BeginUnpin(a)])
            && multiset(run.actions)[Pin(a)] <= multiset(labels)[BeginPin(a)] <= multiset(run.actions)[Pin(a)] + 1
            && multiset(run.actions)[Unpin(a)] <= multiset(labels)[BeginUnpin(a)] <= multiset(run.actions)[Unpin(a)] + 1
  {
    hide ShardIndex, Inv, Pinned;
    EveryRunRefinesASet(labels);
    StartInv();
    var run := Execute(INITIAL, NO_LISTS, labels);
    CallsDecide(INITIAL, NO_LISTS, labels, a);
    CallsCount(INITIAL, NO_LISTS, labels, a);
    StepsCount(INITIAL, NO_LISTS, labels, a);
    if a !in run.state.running {
      RestingIsWanted(run.state, run.lists, a);
    }
  }

  lemma StartInv()
    ensures Inv(INITIAL, NO_LISTS)
  {
    hide ShardIndex;
  }

  /** With nothing running, the lists hold exactly Envoy's handles. */
  lemma AtRest(labels: seq<Label>)
    requires Schedule(INITIAL, labels) && Execute(INITIAL, NO_LISTS, labels).state.running == map[]
    ensures var run := Execute(INITIAL, NO_LISTS, labels);
            Pinned(run.lists) == run.state.handles
  {
    hide ShardIndex, Inv, Pinned;
    var run := Execute(INITIAL, NO_LISTS, labels);
    forall a ensures a in Pinned(run.lists) <==> a in run.state.handles {
      EveryCallActs(labels, a);
    }
  }

  // ---------------------------------------------------------------------------
  // Calls can be made, and can be completed
  // ---------------------------------------------------------------------------

  predicate NoLocks(s: State) {
    forall i :: 0 <= i < |s.locks| ==> s.locks[i].None?
  }

  predicate OnlyAdvances(labels: seq<Label>) {
    forall i :: 0 <= i < |labels| ==> labels[i].Advance?
  }

  /** An operation that holds its mutex, or that finds all mutexes free, goes on. */
  lemma GoesOn(s: State, lists: Lists, a: Address)
    requires Inv(s, lists) && a in s.running && (s.running[a].Holding() || NoLocks(s))
    ensures Enabled(s, Advance(a))
    ensures var s' := Next(s, Advance(a));
            && s'.running - {a} == s.running - {a}
            && (a in s'.running ==>
                  && (s'.running[a].Holding() || NoLocks(s'))
                  && StepsLeft(s'.running[a]) < StepsLeft(s.running[a]))
  {
    hide ShardIndex, Inv, Write;
    InvAt(s, lists, a);
    var pc := s.running[a];
    AdvanceMoves(s, lists, a);
    hide Advanced;
    if pc.PinAllocated? || pc.UnpinCalled? {
      AfterIndex(s, a);
    } else if pc.PinIndexed? || pc.UnpinIndexed? {
      AfterLock(s, a);
    } else if pc.PinHeadSet? || pc.UnpinPrevSet? {
      AfterUnlock(s, a);
    } else {
      AfterWrite(s, a);
    }
  }

  lemma {:induction false} ExecuteBoth(s: State, lists: Lists, labels: seq<Label>, more: seq<Label>)
    requires Schedule(s, labels)
    requires Schedule(Execute(s, lists, labels).state, more)
    ensures Schedule(s, labels + more)
    ensures var mid, end := Execute(s, lists, labels), Execute(s, lists, labels + more);
            && end.state == Execute(mid.state, mid.lists, more).state
            && end.lists == Execute(mid.state, mid.lists, more).lists
    decreases |labels|
  {
    hide Next, NextLists, ActionOf;
    if labels == [] {
      assert labels + more == more;
    } else {
      assert (labels + more)[0] == labels[0] && (labels + more)[1..] == labels[1..] + more;
      ExecuteBoth(Next(s, labels[0]), NextLists(s, lists, labels[0]), labels[1..], more);
    }
  }

  lemma {:induction false} RunOne(s: State, lists: Lists, a: Address) returns (labels: seq<Label>)
    requires Inv(s, lists) && a in s.running && (s.running[a].Holding() || NoLocks(s))
    ensures OnlyAdvances(labels) && Schedule(s, labels)
    ensures var end := Execute(s, lists, labels);
            end.state.running == s.running - {a} && Inv(end.state, end.lists)
    decreases StepsLeft(s.running[a])
  {
    hide Inv, Next, Enabled, NextLists, ActionOf;
    InvAt(s, lists, a);
    GoesOn(s, lists, a);
    Keep(s, lists, Advance(a));
    var s', lists' := Next(s, Advance(a)), NextLists(s, lists, Advance(a));
    var rest: seq<Label> := [];
    InvAt(s', lists', a);
    if a in s'.running {
      rest := RunOne(s', lists', a);
    }
    labels := [Advance(a)] + rest;
    assert labels[1..] == rest;
    assert s'.running - {a} == if a in s'.running then Execute(s', lists', rest).state.running else s'.running;
  }

  lemma SomeoneGoesOn(s: State, lists: Lists) returns (a: Address)
    requires Inv(s, lists) && s.running != map[]
    ensures a in s.running && (s.running[a].Holding() || NoLocks(s))
  {
    hide ShardIndex, Shape, ListOk;
    a :| a in s.running;
    if !NoLocks(s) {
      var i :| 0 <= i < |s.locks| && s.locks[i].Some?;
      assert LockOk(s, i);
      a := s.locks[i].value;
    }
  }

  /** From every reachable state, the running operations can be completed by their own steps. */
  lemma {:induction false} AllCanComplete(s: State, lists: Lists) returns (labels: seq<Label>)
    requires Inv(s, lists)
    ensures OnlyAdvances(labels) && Schedule(s, labels)
    ensures var end := Execute(s, lists, labels);
            end.state.running == map[] && Inv(end.state, end.lists)
    decreases |s.running|
  {
    hide Inv, Next, Enabled, NextLists, ActionOf;
    InvAt(s, lists, NIL);
    labels := [];
    if s.running != map[] {
      var a := SomeoneGoesOn(s, lists);
      var first := RunOne(s, lists, a);
      var mid := Execute(s, lists, first);
      assert s.running == (s.running - {a})[a := s.running[a]];
      var more := AllCanComplete(mid.state, mid.lists);
      ExecuteBoth(s, lists, first, more);
      labels := first + more;
    }
  }

  lemma {:induction false} AdvancesDecide(labels: seq<Label>, a: Address)
    requires OnlyAdvances(labels)
    ensures LastCall(labels, a) == None
    decreases |labels|
  {
    if labels != [] {
      AdvancesDecide(labels[1..], a);
    }
  }

  /** One more call, and then everything that runs is completed. */
  lemma CallAndComplete(labels: seq<Label>, call: Label) returns (more: seq<Label>)
    requires Schedule(INITIAL, labels) && !call.Advance?
    requires var s := Execute(INITIAL, NO_LISTS, labels).state; Sized(s) && Enabled(s, call)
    ensures OnlyAdvances(more) && Schedule(INITIAL, labels + ([call] + more))
    ensures var end := Execute(INITIAL, NO_LISTS, labels + ([call] + more));
            && end.state.running == map[]
            && (call.addr in Pinned(end.lists) <==> call == BeginPin(call.addr))
            && Pinned(end.lists) == end.state.handles
  {
    hide ShardIndex, Inv, Next, Enabled, NextLists, ActionOf, Pinned;
    EveryRunRefinesASet(labels);
    var run := Execute(INITIAL, NO_LISTS, labels);
    InvAt(run.state, run.lists, NIL);
    Keep(run.state, run.lists, call);
    var s', lists' := Next(run.state, call), NextLists(run.state, run.lists, call);
    more := AllCanComplete(s', lists');
    assert ([call] + more)[1..] == more;
    ExecuteBoth(INITIAL, NO_LISTS, labels, [call] + more);
    var end := Execute(INITIAL, NO_LISTS, labels + ([call] + more));
    AtRest(labels + ([call] + more));
    EveryRunRefinesASet(labels + ([call] + more));
    StepWants(run.state, run.lists, call, call.addr);
    CallsDecide(s', lists', more, call.addr);
    AdvancesDecide(more, call.addr);
    RestingIsWanted(end.state, end.lists, call.addr);
  }

  /**
   In every reachable state, whatever else is running: every handle can be given back, every address that is not in use
   can be pinned, and either call can be completed with everything else, after which the table is as it asks.
   */
  lemma CallsArePossible(labels: seq<Label>, a: Address) returns (more: seq<Label>)
    requires Schedule(INITIAL, labels)
    ensures var s := Execute(INITIAL, NO_LISTS, labels).state;
            var call := if a in s.handles then BeginUnpin(a) else BeginPin(a);
            a in s.handles || (a != NIL && a !in s.running) ==>
              && Schedule(INITIAL, labels + ([call] + more))
              && var end := Execute(INITIAL, NO_LISTS, labels + ([call] + more));
                 && end.state.running == map[]
                 && (a in Pinned(end.lists) <==> a !in s.handles)
                 && Pinned(end.lists) == end.state.handles
  {
    hide ShardIndex, Inv, Next, NextLists, ActionOf, Pinned, Schedule;
    var s := Execute(INITIAL, NO_LISTS, labels).state;
    EveryRunRefinesASet(labels);
    InvAt(s, Execute(INITIAL, NO_LISTS, labels).lists, a);
    more := [];
    if a in s.handles || (a != NIL && a !in s.running) {
      more := CallAndComplete(labels, if a in s.handles then BeginUnpin(a) else BeginPin(a));
    }
  }
}
