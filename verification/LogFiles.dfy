/**
 What a reader of the log files finds after shutdown: splitting every file into lines gives back exactly the messages
 that the filters sent, each once.
 */
module LogFiles {
  import opened Common
  import opened PoolRuns
  import opened WorkerPool

  /** The length of the first line of a text, its newline excluded. */
  function LineEnd(text: string): (n: nat)
    ensures n <= |text|
    ensures '\n' !in text[..n]
    ensures n < |text| ==> text[n] == '\n'
  {
    if text == "" || text[0] == '\n' then 0 else 1 + LineEnd(text[1..])
  }

  /** The lines of a text; characters after the last newline form a line of their own. */
  function Lines(text: string): seq<string>
    decreases |text|
  {
    var n := LineEnd(text);
    if n < |text| then [text[..n]] + Lines(text[n + 1..])
    else if text == "" then []
    else [text]
  }

  predicate OneLine(msg: Message) {
    '\n' !in msg
  }

  predicate AllWritten(log: seq<Entry>) {
    forall i :: 0 <= i < |log| ==> log[i].Written?
  }

  predicate AllOneLine(msgs: seq<Message>) {
    forall i :: 0 <= i < |msgs| ==> OneLine(msgs[i])
  }

  lemma {:induction false} FirstLineEnd(msg: Message, rest: string)
    requires OneLine(msg)
    ensures LineEnd(Line(msg) + rest) == |msg|
  {
    if msg != "" {
      assert (Line(msg) + rest)[1..] == Line(msg[1..]) + rest;
      FirstLineEnd(msg[1..], rest);
    }
  }

  lemma FirstLine(msg: Message, rest: string)
    requires OneLine(msg)
    ensures Lines(Line(msg) + rest) == [msg] + Lines(rest)
  {
    var text := Line(msg) + rest;
    FirstLineEnd(msg, rest);
    assert text[..|msg|] == msg;
    assert text[|msg| + 1..] == rest;
  }

  lemma {:induction false} RenderFirst(e: Entry, log: seq<Entry>)
    ensures Render([e] + log) == Text(e) + Render(log)
    decreases |log|
  {
    hide Text;
    if log == [] {
      assert [e] + log == [] + [e];
      RenderLast([], e);
    } else {
      hide Render;
      var n := |log| - 1;
      var init, last := log[..n], log[n];
      assert log == init + [last];
      assert [e] + log == ([e] + init) + [last];
      RenderFirst(e, init);
      RenderLast([e] + init, last);
      RenderLast(init, last);
      Reassociate(Text(e), Render(init), Text(last));
    }
  }

  /** Splitting a file into lines undoes writing it. */
  lemma {:induction false} SplittingUndoesWriting(log: seq<Entry>)
    requires AllWritten(log) && AllOneLine(Handled(log))
    ensures Lines(Render(log)) == Handled(log)
    decreases |log|
  {
    if log != [] {
      hide Lines, Render, Line;
      var tail := log[1..];
      assert log == [log[0]] + tail;
      assert Handled(log) == [log[0].msg] + Handled(tail);
      assert AllOneLine(Handled(tail)) by {
        forall i | 0 <= i < |Handled(tail)| ensures OneLine(Handled(tail)[i]) {
          assert Handled(tail)[i] == Handled(log)[i + 1];
        }
      }
      assert OneLine(Handled(log)[0]);
      RenderFirst(log[0], tail);
      FirstLine(log[0].msg, Render(tail));
      SplittingUndoesWriting(tail);
    }
  }

  // ---------------------------------------------------------------------------
  // Adding up the workers
  // ---------------------------------------------------------------------------

  /** The messages that the first `n` workers received, all together. */
  function Shares(taken: seq<(nat, Message)>, n: nat): multiset<Message> {
    if n == 0 then multiset{} else Shares(taken, n - 1) + multiset(TakenBy(taken, n - 1))
  }

  lemma {:induction false} SharesOfNothing(n: nat)
    ensures Shares([], n) == multiset{}
  {
    if n > 0 {
      SharesOfNothing(n - 1);
    }
  }

  lemma {:induction false} SharesLast(taken: seq<(nat, Message)>, t: (nat, Message), n: nat)
    ensures Shares(taken + [t], n) == Shares(taken, n) + if t.0 < n then multiset{t.1} else multiset{}
  {
    hide TakenBy;
    if n > 0 {
      SharesLast(taken, t, n - 1);
      TakenByLast(taken, t, n - 1);
      if t.0 == n - 1 {
        assert multiset(TakenBy(taken, n - 1) + [t.1]) == multiset(TakenBy(taken, n - 1)) + multiset{t.1};
      } else {
        assert TakenBy(taken, n - 1) + [] == TakenBy(taken, n - 1);
      }
    }
  }

  /** The workers' receipts add up to all receipts: no message has two receivers, and none has no receiver. */
  lemma {:induction false} SharesAddUp(taken: seq<(nat, Message)>, n: nat)
    requires forall i :: 0 <= i < |taken| ==> taken[i].0 < n
    ensures Shares(taken, n) == multiset(Messages(taken))
    decreases |taken|
  {
    if taken == [] {
      SharesOfNothing(n);
    } else {
      var m := |taken| - 1;
      assert taken == taken[..m] + [taken[m]];
      SharesLast(taken[..m], taken[m], n);
      SharesAddUp(taken[..m], n);
      assert Messages(taken) == Messages(taken[..m]) + [taken[m].1];
    }
  }

  /** All lines of all files. */
  function AllLines(workers: seq<Worker>): seq<string> {
    if workers == [] then [] else AllLines(workers[..|workers| - 1]) + Lines(workers[|workers| - 1].file)
  }

  predicate NoWriteFailed(workers: seq<Worker>) {
    forall w :: 0 <= w < |workers| ==> AllWritten(workers[w].log)
  }

  predicate HandledAll(workers: seq<Worker>, taken: seq<(nat, Message)>) {
    forall w :: 0 <= w < |workers| ==>
      Handled(workers[w].log) == TakenBy(taken, w) && workers[w].file == Render(workers[w].log)
  }

  lemma {:induction false} TakenByIsTaken(taken: seq<(nat, Message)>, w: nat)
    requires AllOneLine(Messages(taken))
    ensures AllOneLine(TakenBy(taken, w))
    decreases |taken|
  {
    if taken != [] {
      var m := |taken| - 1;
      forall i | 0 <= i < m ensures OneLine(Messages(taken[..m])[i]) {
        assert Messages(taken[..m])[i] == Messages(taken)[i];
      }
      TakenByIsTaken(taken[..m], w);
      assert OneLine(Messages(taken)[m]);
    }
  }

  lemma {:induction false} LinesAreShares(workers: seq<Worker>, taken: seq<(nat, Message)>)
    requires HandledAll(workers, taken) && NoWriteFailed(workers) && AllOneLine(Messages(taken))
    ensures multiset(AllLines(workers)) == Shares(taken, |workers|)
    decreases |workers|
  {
    hide Lines, Render, Handled, TakenBy, AllWritten, AllOneLine, Messages;
    if workers != [] {
      var n := |workers| - 1;
      LinesAreShares(workers[..n], taken);
      TakenByIsTaken(taken, n);
      SplittingUndoesWriting(workers[n].log);
      assert Lines(workers[n].file) == TakenBy(taken, n);
    }
  }

  // ---------------------------------------------------------------------------
  // Main results
  // ---------------------------------------------------------------------------

  /**
   A send is accepted if and only if the pool has workers: the receiver then outlives every sender, so the error
   branch of the send is dead code unless the pool was configured with no worker at all.
   */
  lemma SendsAreAccepted(target: nat, labels: seq<Label>, f: nat, msg: Message)
    requires Schedule(Initial(target), labels)
    requires Enabled(Execute(Initial(target), labels), Send(f, msg))
    ensures var s := Execute(Initial(target), labels);
            Next(s, Send(f, msg)).accepted == if target > 0 then s.accepted + [msg] else s.accepted
  {
    var s := Execute(Initial(target), labels);
    ExecuteKeeps(Initial(target), labels);
    TargetKept(Initial(target), labels);
    if target > 0 {
      assert WorkerOk(s, 0);
    }
  }

  lemma FilesAtEnd(end: Pool)
    requires Inv(end) && Quiet(end) && forall l :: !Enabled(end, l)
    ensures HandledAll(end.workers, end.taken)
    ensures Shares(end.taken, |end.workers|) == multiset(end.accepted)
    ensures NoWriteFailed(end.workers) && AllOneLine(end.accepted) ==>
              multiset(AllLines(end.workers)) == multiset(end.accepted)
  {
    hide Shares, AllLines, NoWriteFailed, AllOneLine, Handled, Render, TakenBy, Enabled;
    DrainedAtEnd(end);
    SharesAddUp(end.taken, |end.workers|);
    forall w | 0 <= w < |end.workers| ensures end.workers[w].file == Render(end.workers[w].log) {
      assert WorkerOk(end, w);
    }
    if NoWriteFailed(end.workers) && AllOneLine(end.accepted) {
      LinesAreShares(end.workers, end.taken);
    }
  }

  /**
   At the end of a shutdown every accepted message has been handled by exactly one worker exactly once; and if no
   write failed and no message holds a newline (JSON text never does, section 7 of RFC 8259), the lines of all files
   are exactly the accepted messages.
   */
  lemma FilesHoldTheMessages(target: nat, before: seq<Label>, after: seq<Label>)
    requires Schedule(Initial(target), before) && Quiet(Execute(Initial(target), before))
    requires Schedule(Execute(Initial(target), before), after)
    requires forall l :: !Enabled(Execute(Execute(Initial(target), before), after), l)
    ensures var end := Execute(Execute(Initial(target), before), after);
            && HandledAll(end.workers, end.taken)
            && Shares(end.taken, |end.workers|) == multiset(end.accepted)
            && (NoWriteFailed(end.workers) && AllOneLine(end.accepted) ==>
                  multiset(AllLines(end.workers)) == multiset(end.accepted))
  {
    hide Inv, Quiet, Enabled, Next, HandledAll, Shares, AllLines, NoWriteFailed, AllOneLine;
    var s := Execute(Initial(target), before);
    var end := Execute(s, after);
    StartInv(target);
    ExecuteKeeps(Initial(target), before);
    ExecuteKeeps(s, after);
    QuietSchedulesEnd(s, after);
    FilesAtEnd(end);
  }

  /**
   Read off the schedule: once the constructor has finished, the configuration and every filter have been dropped, and
   nothing more can happen, the lines of all files are exactly the messages that the filters sent.
   */
  lemma FilesAfterShutdown(target: nat, labels: seq<Label>)
    requires Schedule(Initial(target), labels) && target > 0
    requires Finish in labels && DropConfig in labels
    requires forall i :: 0 <= i < |labels| && labels[i].NewFilter? ==> DropSender(labels[i].f) in labels[i..]
    requires forall l :: !Enabled(Execute(Initial(target), labels), l)
    ensures var end := Execute(Initial(target), labels);
            && AllExited(end)
            && (NoWriteFailed(end.workers) && AllOneLine(SentMessages(labels)) ==>
                  multiset(AllLines(end.workers)) == multiset(SentMessages(labels)))
  {
    hide Inv, Quiet, Enabled, Next, HandledAll, Shares, AllLines, NoWriteFailed, AllOneLine;
    var end := Execute(Initial(target), labels);
    ReachableInv(target, labels);
    QuietAsScheduled(target, labels);
    AcceptedAsScheduled(target, labels);
    DrainedAtEnd(end);
    FilesAtEnd(end);
  }

  lemma StartInv(target: nat)
    ensures Inv(Initial(target))
  {}
}
