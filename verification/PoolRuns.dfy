/**
 Runs of the worker pool, read off their schedules: which senders exist, which messages were sent, when every sender is
 gone; and that every run can be brought to its end.
 */
module PoolRuns {
  import opened Common
  import opened WorkerPool

  // ---------------------------------------------------------------------------
  // Schedules, from their last step
  // ---------------------------------------------------------------------------

  lemma {:induction false} Last(s: Pool, labels: seq<Label>)
    requires labels != [] && Schedule(s, labels)
    ensures var n := |labels| - 1;
            && Schedule(s, labels[..n]) && Enabled(Execute(s, labels[..n]), labels[n])
            && Execute(s, labels) == Next(Execute(s, labels[..n]), labels[n])
    decreases |labels|
  {
    hide Enabled, Next;
    var n := |labels| - 1;
    if n > 0 {
      assert labels[..n][0] == labels[0] && labels[..n][1..] == labels[1..][..n - 1];
      Last(Next(s, labels[0]), labels[1..]);
    }
  }

  lemma {:induction false} Both(s: Pool, labels: seq<Label>, more: seq<Label>)
    requires Schedule(s, labels) && Schedule(Execute(s, labels), more)
    ensures Schedule(s, labels + more) && Execute(s, labels + more) == Execute(Execute(s, labels), more)
    decreases |labels|
  {
    hide Enabled, Next;
    if labels == [] {
      assert labels + more == more;
    } else {
      assert (labels + more)[0] == labels[0] && (labels + more)[1..] == labels[1..] + more;
      Both(Next(s, labels[0]), labels[1..], more);
    }
  }

  // ---------------------------------------------------------------------------
  // Senders and messages, read off the schedule
  // ---------------------------------------------------------------------------

  /** Filter `f` was made and its sender not dropped since. */
  predicate MadeAndKept(labels: seq<Label>, f: nat) {
    exists i :: 0 <= i < |labels| && MadeAt(labels, f, i)
  }

  predicate MadeAt(labels: seq<Label>, f: nat, i: nat)
    requires i < |labels|
  {
    labels[i] == NewFilter(f) && forall j :: i < j < |labels| ==> labels[j] != DropSender(f)
  }

  /** The messages that a schedule sends, in order. */
  function SentMessages(labels: seq<Label>): seq<Message> {
    if labels == [] then []
    else
      var n := |labels| - 1;
      SentMessages(labels[..n]) + if labels[n].Send? then [labels[n].msg] else []
  }

  lemma MadeLast(labels: seq<Label>, l: Label, f: nat)
    ensures MadeAndKept(labels + [l], f) <==>
            l == NewFilter(f) || (l != DropSender(f) && MadeAndKept(labels, f))
  {
    var all := labels + [l];
    if MadeAndKept(all, f) {
      var i :| 0 <= i < |all| && MadeAt(all, f, i);
      assert all[|labels|] == l;
      if i < |labels| {
        assert labels[i] == all[i] && forall j :: i < j < |labels| ==> labels[j] == all[j];
        assert MadeAt(labels, f, i);
      }
    }
    if l == NewFilter(f) {
      assert MadeAt(all, f, |labels|);
    } else if l != DropSender(f) && MadeAndKept(labels, f) {
      var i :| 0 <= i < |labels| && MadeAt(labels, f, i);
      assert MadeAt(all, f, i);
    }
  }

  lemma SenderStep(s: Pool, l: Label, f: nat)
    requires Inv(s) && Enabled(s, l)
    ensures f in Next(s, l).filters <==> l == NewFilter(f) || (l != DropSender(f) && f in s.filters)
    ensures Next(s, l).config <==> s.config && l != DropConfig && l != FileError
    ensures Next(s, l).phase.Spawning? <==> s.phase.Spawning? && l != FileError && l != Finish
    ensures Next(s, l).phase.Ready? <==> s.phase.Ready? || l == Finish
    ensures Next(s, l).phase.GaveUp? <==> s.phase.GaveUp? || l == FileError
    ensures l == Finish ==> s.phase.Spawning?
    ensures l == FileError ==> s.phase.Spawning?
  {}

  /** In every run, exactly the senders that the schedule has made and not dropped exist. */
  lemma {:induction false} SendersAsScheduled(target: nat, labels: seq<Label>, f: nat)
    requires Schedule(Initial(target), labels)
    ensures var s := Execute(Initial(target), labels);
            && (f in s.filters <==> MadeAndKept(labels, f))
            && (s.config <==> DropConfig !in labels && FileError !in labels)
            && (s.phase.Spawning? <==> Finish !in labels && FileError !in labels)
            && (s.phase.Ready? <==> Finish in labels)
            && (s.phase.GaveUp? <==> FileError in labels)
    decreases |labels|
  {
    if labels != [] {
      hide Inv, Enabled, Next, Schedule, Execute, MadeAndKept;
      var n := |labels| - 1;
      Last(Initial(target), labels);
      SendersAsScheduled(target, labels[..n], f);
      ReachableInv(target, labels[..n]);
      SenderStep(Execute(Initial(target), labels[..n]), labels[n], f);
      assert labels == labels[..n] + [labels[n]];
      MadeLast(labels[..n], labels[n], f);
    }
  }

  lemma ReachableInv(target: nat, labels: seq<Label>)
    requires Schedule(Initial(target), labels)
    ensures Inv(Execute(Initial(target), labels))
  {
    assert Inv(Initial(target));
    hide Inv;
    ExecuteKeeps(Initial(target), labels);
  }

  /**
   A run has no sender left for good exactly if the constructor gave up on a file, or it finished, the configuration
   was dropped, and the sender of every filter that was made has been dropped after it.
   */
  lemma QuietAsScheduled(target: nat, labels: seq<Label>)
    requires Schedule(Initial(target), labels)
    ensures Quiet(Execute(Initial(target), labels)) <==>
            || FileError in labels
            || (Finish in labels && DropConfig in labels &&
                forall i :: 0 <= i < |labels| && labels[i].NewFilter? ==> DropSender(labels[i].f) in labels[i..])
  {
    hide Schedule, Execute, Inv;
    var s := Execute(Initial(target), labels);
    ReachableInv(target, labels);
    forall f: nat
      ensures f in s.filters <==> MadeAndKept(labels, f)
    {
      SendersAsScheduled(target, labels, f);
    }
    SendersAsScheduled(target, labels, 0);
    KeptIff(labels);
    assert s.filters == map[] <==> forall f: nat :: f !in s.filters;
    GaveUpIsQuiet(s);
  }

  lemma GaveUpIsQuiet(s: Pool)
    requires Inv(s)
    ensures s.phase.GaveUp? ==> Quiet(s)
  {}

  lemma KeptIff(labels: seq<Label>)
    ensures (forall f: nat :: !MadeAndKept(labels, f)) <==>
            forall i :: 0 <= i < |labels| && labels[i].NewFilter? ==> DropSender(labels[i].f) in labels[i..]
  {
    forall i | 0 <= i < |labels| && labels[i].NewFilter?
      ensures MadeAt(labels, labels[i].f, i) <==> DropSender(labels[i].f) !in labels[i..]
    {
      assert forall j :: i < j < |labels| ==> labels[j] == labels[i..][j - i];
    }
    if i :| 0 <= i < |labels| && labels[i].NewFilter? && DropSender(labels[i].f) !in labels[i..] {
      assert MadeAndKept(labels, labels[i].f);
    }
    if f: nat :| MadeAndKept(labels, f) {
      var i :| 0 <= i < |labels| && MadeAt(labels, f, i);
      assert labels[i] == NewFilter(f);
    }
  }

  /** The accepted messages are exactly the ones sent, in order, if the pool has workers; else none is. */
  lemma {:induction false} AcceptedAsScheduled(target: nat, labels: seq<Label>)
    requires Schedule(Initial(target), labels)
    ensures Execute(Initial(target), labels).accepted == if target > 0 then SentMessages(labels) else []
    decreases |labels|
  {
    if labels != [] {
      hide Schedule, Execute;
      var n := |labels| - 1;
      Last(Initial(target), labels);
      AcceptedAsScheduled(target, labels[..n]);
      var s, l := Execute(Initial(target), labels[..n]), labels[n];
      SendAlive(target, labels[..n], l);
    }
  }

  lemma SendAlive(target: nat, labels: seq<Label>, l: Label)
    requires Schedule(Initial(target), labels) && Enabled(Execute(Initial(target), labels), l)
    ensures l.Send? ==> (ReceiverAlive(Execute(Initial(target), labels)) <==> target > 0)
    ensures !l.Send? ==> Next(Execute(Initial(target), labels), l).accepted == Execute(Initial(target), labels).accepted
  {
    var s := Execute(Initial(target), labels);
    ReachableInv(target, labels);
    TargetKept(Initial(target), labels);
    if l.Send? && target > 0 {
      assert WorkerOk(s, 0);
    }
  }

  function Made(labels: seq<Label>, f: nat): nat {
    multiset(labels)[NewFilter(f)]
  }

  function SentBy(labels: seq<Label>, f: nat): nat {
    if labels == [] then 0
    else
      var n := |labels| - 1;
      SentBy(labels[..n], f) + if labels[n].Send? && labels[n].f == f then 1 else 0
  }

  /** A filter sends one message in its life: not before it is dropped, and not twice. */
  lemma {:induction false} FiltersSendOnce(target: nat, labels: seq<Label>, f: nat)
    requires Schedule(Initial(target), labels)
    ensures var s := Execute(Initial(target), labels);
            Made(labels, f) == SentBy(labels, f) + if HasYetToSend(s, f) then 1 else 0
    decreases |labels|
  {
    if labels != [] {
      hide Schedule, Execute, Enabled, Next;
      var n := |labels| - 1;
      Last(Initial(target), labels);
      FiltersSendOnce(target, labels[..n], f);
      assert labels == labels[..n] + [labels[n]];
      LiveStep(Execute(Initial(target), labels[..n]), labels[n], f);
    }
  }

  predicate HasYetToSend(s: Pool, f: nat) {
    f in s.filters && s.filters[f].Live?
  }

  lemma LiveStep(s: Pool, l: Label, f: nat)
    requires Enabled(s, l)
    ensures HasYetToSend(Next(s, l), f) <==> l == NewFilter(f) || (HasYetToSend(s, f) && !(l.Send? && l.f == f))
    ensures l == NewFilter(f) ==> !HasYetToSend(s, f)
    ensures l.Send? && l.f == f ==> HasYetToSend(s, f)
  {}

  // ---------------------------------------------------------------------------
  // Every run can be brought to its end
  // ---------------------------------------------------------------------------

  predicate AtEnd(s: Pool) {
    AllExited(s) && s.queue == [] && !Connected(s) && s.accepted == Messages(s.taken)
  }

  lemma Extend(s: Pool, l: Label, more: seq<Label>) returns (labels: seq<Label>)
    requires Enabled(s, l) && Schedule(Next(s, l), more)
    ensures labels == [l] + more && Schedule(s, labels) && Execute(s, labels) == Execute(Next(s, l), more)
  {
    hide Enabled, Next;
    labels := [l] + more;
    assert labels[1..] == more;
  }

  /** A constructor that is still running can create the remaining files. */
  lemma {:induction false} CanFinish(s: Pool) returns (labels: seq<Label>)
    requires Inv(s)
    ensures Schedule(s, labels) && FileError !in labels
    ensures Inv(Execute(s, labels)) && !Execute(s, labels).phase.Spawning?
    decreases s.target - |s.workers|, s.phase.Spawning?
  {
    labels := [];
    if s.phase.Spawning? {
      var l := if |s.workers| < s.target then Spawn else Finish;
      Keep(s, l);
      var more := CanFinish(Next(s, l));
      labels := Extend(s, l, more);
    }
  }

  /** Every filter can be dropped. */
  lemma {:induction false} CanDropFilters(s: Pool) returns (labels: seq<Label>)
    requires Inv(s) && !s.phase.Spawning?
    ensures Schedule(s, labels)
    ensures var end := Execute(s, labels); Inv(end) && end.filters == map[] && !end.phase.Spawning?
    decreases |s.filters|
  {
    labels := [];
    if s.filters != map[] {
      hide Inv, Schedule, Execute;
      var f :| f in s.filters;
      var s' := s;
      if s.filters[f].Live? {
        Keep(s, Send(f, ""));
        s' := Next(s, Send(f, ""));
      }
      Keep(s', DropSender(f));
      assert s'.filters - {f} == s.filters - {f};
      assert s.filters == (s.filters - {f})[f := s.filters[f]];
      var more := CanDropFilters(Next(s', DropSender(f)));
      labels := Extend(s', DropSender(f), more);
      if s.filters[f].Live? {
        labels := Extend(s, Send(f, ""), labels);
      }
    }
  }

  lemma {:induction false} CanDrain(s: Pool) returns (labels: seq<Label>)
    requires Inv(s) && Quiet(s)
    ensures Schedule(s, labels) && AtEnd(Execute(s, labels))
    decreases Rank(s)
  {
    hide Inv, Quiet, Enabled, Next, Rank, AtEnd;
    if AllExited(s) {
      ExitedIsEnd(s);
      labels := [];
    } else {
      QuietCanStep(s);
      var l :| Enabled(s, l);
      Keep(s, l);
      QuietStepsRank(s, l);
      var more := CanDrain(Next(s, l));
      labels := Extend(s, l, more);
    }
  }

  lemma ExitedIsEnd(s: Pool)
    requires Inv(s) && Quiet(s) && AllExited(s)
    ensures AtEnd(s)
  {
    if s.workers != [] {
      assert WorkerOk(s, 0);
    }
  }

  lemma CanDropConfig(s: Pool) returns (labels: seq<Label>)
    requires Inv(s) && !s.phase.Spawning? && s.filters == map[]
    ensures Schedule(s, labels) && Inv(Execute(s, labels)) && Quiet(Execute(s, labels))
  {
    labels := [];
    if s.config {
      Keep(s, DropConfig);
      labels := Extend(s, DropConfig, []);
    }
  }

  /**
   Every run can be continued to an end at which all workers have left, the queue is empty and every accepted message
   has been received: the constructor finishes, filters and configuration are dropped, the workers drain the queue.
   */
  lemma EveryRunCanEnd(target: nat, labels: seq<Label>) returns (more: seq<Label>)
    requires Schedule(Initial(target), labels)
    ensures Schedule(Initial(target), labels + more) && AtEnd(Execute(Initial(target), labels + more))
  {
    hide Inv, Quiet, Enabled, Next, Schedule, Execute, AtEnd;
    ReachableInv(target, labels);
    var s := Execute(Initial(target), labels);
    var a := CanFinish(s);
    var b := CanDropFilters(Execute(s, a));
    var c := CanDropConfig(Execute(Execute(s, a), b));
    var d := CanDrain(Execute(Execute(Execute(s, a), b), c));
    Both(Execute(Execute(s, a), b), c, d);
    Both(Execute(s, a), b, c + d);
    Both(s, a, b + (c + d));
    more := a + (b + (c + d));
    Both(Initial(target), labels, more);
  }

  // ---------------------------------------------------------------------------
  // Three runs, written out
  // ---------------------------------------------------------------------------

  lemma OneStep(s: Pool, labels: seq<Label>, s': Pool)
    requires labels != [] && Enabled(s, labels[0]) && s' == Next(s, labels[0])
    ensures Schedule(s, labels) <==> Schedule(s', labels[1..])
    ensures Schedule(s, labels) ==> Execute(s, labels) == Execute(s', labels[1..])
  {
    hide Enabled, Next;
  }

  const SENDING := [Spawn, Finish, NewFilter(3), Send(3, "ab"), Lock(0), Recv(0), Unlock(0)]

  const SENDING_STATES := [
    Initial(1),
    Pool(Spawning, 1, true, map[], [], None, [Worker(Idle, "", [])], [], []),
    Pool(Ready, 1, true, map[], [], None, [Worker(Idle, "", [])], [], []),
    Pool(Ready, 1, true, map[3 := Live], [], None, [Worker(Idle, "", [])], [], []),
    Pool(Ready, 1, true, map[3 := FilterPC.Sent], ["ab"], None, [Worker(Idle, "", [])], ["ab"], []),
    Pool(Ready, 1, true, map[3 := FilterPC.Sent], ["ab"], Some(0), [Worker(Waiting, "", [])], ["ab"], []),
    Pool(Ready, 1, true, map[3 := FilterPC.Sent], [], Some(0), [Worker(Received("ab"), "", [])], ["ab"], [(0, "ab")]),
    Pool(Ready, 1, true, map[3 := FilterPC.Sent], [], None, [Worker(Writing("ab"), "", [])], ["ab"], [(0, "ab")])
  ]

  const GIVING_UP := [Spawn, FileError, Lock(0), Recv(0), Unlock(0)]

  const GIVING_UP_STATES := [
    Initial(2),
    Pool(Spawning, 2, true, map[], [], None, [Worker(Idle, "", [])], [], []),
    Pool(GaveUp, 2, false, map[], [], None, [Worker(Idle, "", [])], [], []),
    Pool(GaveUp, 2, false, map[], [], Some(0), [Worker(Waiting, "", [])], [], []),
    Pool(GaveUp, 2, false, map[], [], Some(0), [Worker(Closing, "", [])], [], []),
    Pool(GaveUp, 2, false, map[], [], None, [Worker(Exited, "", [])], [], [])
  ]

  lemma SendingStep(i: nat)
    requires i < |SENDING|
    ensures Enabled(SENDING_STATES[i], SENDING[i]) && Next(SENDING_STATES[i], SENDING[i]) == SENDING_STATES[i + 1]
  {
    if i == 3 {
      assert SENDING_STATES[3].workers[0].pc.Idle?;
    }
  }

  lemma GivingUpStep(i: nat)
    requires i < |GIVING_UP|
    ensures Enabled(GIVING_UP_STATES[i], GIVING_UP[i])
    ensures Next(GIVING_UP_STATES[i], GIVING_UP[i]) == GIVING_UP_STATES[i + 1]
  {}

  lemma {:induction false} SendingFrom(i: nat)
    requires i <= |SENDING|
    ensures Schedule(SENDING_STATES[i], SENDING[i..])
    ensures Execute(SENDING_STATES[i], SENDING[i..]) == SENDING_STATES[7]
    decreases |SENDING| - i
  {
    if i < |SENDING| {
      hide Enabled, Next;
      SendingStep(i);
      SendingFrom(i + 1);
      OneStep(SENDING_STATES[i], SENDING[i..], SENDING_STATES[i + 1]);
    }
  }

  lemma {:induction false} GivingUpFrom(i: nat)
    requires i <= |GIVING_UP|
    ensures Schedule(GIVING_UP_STATES[i], GIVING_UP[i..])
    ensures Execute(GIVING_UP_STATES[i], GIVING_UP[i..]) == GIVING_UP_STATES[5]
    decreases |GIVING_UP| - i
  {
    if i < |GIVING_UP| {
      hide Enabled, Next;
      GivingUpStep(i);
      GivingUpFrom(i + 1);
      OneStep(GIVING_UP_STATES[i], GIVING_UP[i..], GIVING_UP_STATES[i + 1]);
    }
  }

  lemma LastWrite(l: Label, file: string, entry: Entry)
    requires (l == Write(0) && file == "ab\n" && entry == Written("ab")) ||
             (l == WriteError(0, 1) && file == "a" && entry == Failed("ab", 1))
    ensures Enabled(SENDING_STATES[7], l)
    ensures Next(SENDING_STATES[7], l).workers == [Worker(Idle, file, [entry])]
  {
    var none: seq<Entry>, line := [], "ab" + "\n";
    assert none + [entry] == [entry];
    assert line == "ab\n" && line[..1] == "a";
    assert "" + file == file;
  }

  /**
   The one filter's message is taken, and then written with a newline, or its write fails after one character; and a
   constructor gives up on its second file, and its first worker leaves.
   */
  lemma ThreeRuns()
    ensures var labels := [Spawn, Finish, NewFilter(3), Send(3, "ab"), Lock(0), Recv(0), Unlock(0)];
            && Schedule(Initial(1), labels)
            && var s := Execute(Initial(1), labels);
               && Enabled(s, Write(0)) && Next(s, Write(0)).workers == [Worker(Idle, "ab\n", [Written("ab")])]
               && Enabled(s, WriteError(0, 1))
               && Next(s, WriteError(0, 1)).workers == [Worker(Idle, "a", [Failed("ab", 1)])]
    ensures var labels := [Spawn, FileError, Lock(0), Recv(0), Unlock(0)];
            Schedule(Initial(2), labels) && Execute(Initial(2), labels).workers == [Worker(Exited, "", [])]
  {
    hide Enabled, Next, Schedule, Execute;
    SendingFrom(0);
    assert SENDING[0..] == SENDING;
    LastWrite(Write(0), "ab\n", Written("ab"));
    LastWrite(WriteError(0, 1), "a", Failed("ab", 1));
    GivingUpFrom(0);
    assert GIVING_UP[0..] == GIVING_UP;
  }
}
