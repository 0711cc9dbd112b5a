/**
 The access logger: filters send one message each when they are dropped; worker threads share the single receiver
 behind a mutex, take a message under the lock and write it to their own file outside it.

 The step system below has any number of workers, filters and schedules. History variables (`accepted`, `taken`,
 `log`) record what was sent, received and written; no step reads them.
 */
module WorkerPool {

  import opened Common

  type Message = string

  /** What became of a message a worker took: `Failed` wrote only the first `partial` characters of its line. */
  datatype Entry = Written(msg: Message) | Failed(msg: Message, partial: nat)

  datatype WorkerPC =
    | Idle
    | Waiting                 // holds the mutex, in recv
    | Received(msg: Message)  // recv returned a message; holds the mutex
    | Writing(msg: Message)
    | Closing                 // recv returned an error; holds the mutex
    | Exited

  datatype Worker = Worker(pc: WorkerPC, file: string, log: seq<Entry>)

  datatype FilterPC = Live | Sent

  /** The constructor is running, has returned the configuration, or has given up on a file it could not create. */
  datatype Phase = Spawning | Ready | GaveUp

  datatype Pool = Pool(
    phase: Phase,
    target: nat,                   // the number of workers to spawn
    config: bool,                  // the configuration's sender exists
    filters: map<nat, FilterPC>,   // the filters whose sender exists
    queue: seq<Message>,
    lock: Option<nat>,
    workers: seq<Worker>,
    accepted: seq<Message>,        // history: successful sends, in order
    taken: seq<(nat, Message)>)    // history: receipts, in order

  datatype Label =
    | Spawn
    | FileError
    | Finish
    | NewFilter(f: nat)
    | Send(f: nat, msg: Message)
    | DropSender(f: nat)
    | DropConfig
    | Lock(w: nat)
    | Recv(w: nat)
    | Unlock(w: nat)
    | Write(w: nat)                 // the line is written
    | WriteError(w: nat, partial: nat)

  function Line(msg: Message): string {
    msg + "\n"
  }

  predicate Connected(s: Pool) {
    s.config || s.filters != map[]
  }

  /** The receiver exists while the constructor or a worker that has not exited owns it. */
  predicate ReceiverAlive(s: Pool) {
    s.phase.Spawning? || exists w :: 0 <= w < |s.workers| && !s.workers[w].pc.Exited?
  }

  predicate Enabled(s: Pool, l: Label) {
    match l
    case Spawn => s.phase.Spawning? && |s.workers| < s.target
    case FileError => s.phase.Spawning? && |s.workers| < s.target
    case Finish => s.phase.Spawning? && |s.workers| == s.target
    case NewFilter(f) => s.phase.Ready? && s.config && f !in s.filters
    case Send(f, _) => f in s.filters && s.filters[f].Live?
    case DropSender(f) => f in s.filters && s.filters[f].Sent?
    case DropConfig => s.phase.Ready? && s.config
    case Lock(w) => w < |s.workers| && s.workers[w].pc.Idle? && s.lock.None?
    case Recv(w) => w < |s.workers| && s.workers[w].pc.Waiting? && (s.queue != [] || !Connected(s))
    case Unlock(w) => w < |s.workers| && (s.workers[w].pc.Received? || s.workers[w].pc.Closing?)
    case Write(w) => w < |s.workers| && s.workers[w].pc.Writing?
    case WriteError(w, k) => w < |s.workers| && s.workers[w].pc.Writing? && k < |Line(s.workers[w].pc.msg)|
  }

  function SetPC(s: Pool, w: nat, pc: WorkerPC): Pool
    requires w < |s.workers|
  {
    s.(workers := s.workers[w := s.workers[w].(pc := pc)])
  }

  function Append(s: Pool, w: nat, text: string, entry: Entry): Pool
    requires w < |s.workers|
  {
    var worker := s.workers[w];
    s.(workers := s.workers[w := Worker(Idle, worker.file + text, worker.log + [entry])])
  }

  function Next(s: Pool, l: Label): Pool
    requires Enabled(s, l)
  {
    match l
    case Spawn => s.(workers := s.workers + [Worker(Idle, "", [])])
    case FileError => s.(phase := GaveUp, config := false)
    case Finish => s.(phase := Ready)
    case NewFilter(f) => s.(filters := s.filters[f := Live])
    case Send(f, msg) =>
      var s := s.(filters := s.filters[f := FilterPC.Sent]);
      if ReceiverAlive(s) then s.(queue := s.queue + [msg], accepted := s.accepted + [msg]) else s
    case DropSender(f) => s.(filters := s.filters - {f})
    case DropConfig => s.(config := false)
    case Lock(w) => SetPC(s, w, Waiting).(lock := Some(w))
    case Recv(w) =>
      if s.queue != [] then
        SetPC(s, w, Received(s.queue[0])).(queue := s.queue[1..], taken := s.taken + [(w, s.queue[0])])
      else SetPC(s, w, Closing)
    case Unlock(w) =>
      SetPC(s, w, if s.workers[w].pc.Received? then Writing(s.workers[w].pc.msg) else Exited).(lock := None)
    case Write(w) => var m := s.workers[w].pc.msg; Append(s, w, Line(m), Written(m))
    case WriteError(w, k) => var m := s.workers[w].pc.msg; Append(s, w, Line(m)[..k], Failed(m, k))
  }

  function Initial(target: nat): Pool {
    Pool(Spawning, target, true, map[], [], None, [], [], [])
  }

  // ---------------------------------------------------------------------------
  // The invariant
  // ---------------------------------------------------------------------------

  function Messages(taken: seq<(nat, Message)>): seq<Message> {
    seq(|taken|, i requires 0 <= i < |taken| => taken[i].1)
  }

  /** The messages that worker `w` received, in order. */
  function TakenBy(taken: seq<(nat, Message)>, w: nat): seq<Message> {
    if taken == [] then []
    else
      var last := taken[|taken| - 1];
      TakenBy(taken[..|taken| - 1], w) + if last.0 == w then [last.1] else []
  }

  /** The messages of a log, written or not. */
  function Handled(log: seq<Entry>): seq<Message> {
    seq(|log|, i requires 0 <= i < |log| => log[i].msg)
  }

  function InHand(pc: WorkerPC): seq<Message> {
    if pc.Received? || pc.Writing? then [pc.msg] else []
  }

  function Text(e: Entry): string {
    match e
    case Written(m) => Line(m)
    case Failed(m, k) => if k <= |Line(m)| then Line(m)[..k] else Line(m)
  }

  /** The content of a file after the writes of a log. */
  function Render(log: seq<Entry>): string {
    if log == [] then "" else Render(log[..|log| - 1]) + Text(log[|log| - 1])
  }

  predicate Holding(pc: WorkerPC) {
    pc.Waiting? || pc.Received? || pc.Closing?
  }

  predicate Leaving(pc: WorkerPC) {
    pc.Closing? || pc.Exited?
  }

  predicate WorkerOk(s: Pool, w: nat)
    requires w < |s.workers|
  {
    var worker := s.workers[w];
    && Handled(worker.log) + InHand(worker.pc) == TakenBy(s.taken, w)
    && worker.file == Render(worker.log)
    && (Holding(worker.pc) <==> s.lock == Some(w))
    && (Leaving(worker.pc) ==> !Connected(s) && s.queue == [])
  }

  predicate PhaseOk(s: Pool) {
    match s.phase
    case Spawning => s.config && s.filters == map[] && s.accepted == [] && |s.workers| <= s.target
    case Ready => |s.workers| == s.target
    case GaveUp => !Connected(s) && s.accepted == [] && |s.workers| < s.target
  }

  predicate Inv(s: Pool) {
    && s.accepted == Messages(s.taken) + s.queue
    && (forall w :: 0 <= w < |s.workers| ==> WorkerOk(s, w))
    && (s.lock.Some? ==> s.lock.value < |s.workers|)
    && (forall i :: 0 <= i < |s.taken| ==> s.taken[i].0 < |s.workers|)
    && (s.workers == [] ==> s.accepted == [])
    && PhaseOk(s)
  }

  lemma {:induction false} TakenByNobody(taken: seq<(nat, Message)>, w: nat)
    requires forall i :: 0 <= i < |taken| ==> taken[i].0 != w
    ensures TakenBy(taken, w) == []
  {
    if taken != [] {
      TakenByNobody(taken[..|taken| - 1], w);
    }
  }

  lemma TakenByLast(taken: seq<(nat, Message)>, t: (nat, Message), w: nat)
    ensures TakenBy(taken + [t], w) == TakenBy(taken, w) + if t.0 == w then [t.1] else []
  {
    assert (taken + [t])[..|taken|] == taken;
  }

  lemma RenderLast(log: seq<Entry>, e: Entry)
    ensures Render(log + [e]) == Render(log) + Text(e)
    ensures Handled(log + [e]) == Handled(log) + [e.msg]
  {
    assert (log + [e])[..|log|] == log;
  }

  lemma KeepMain(s: Pool, l: Label)
    requires Inv(s) && Enabled(s, l)
    requires l.Spawn? || l.FileError? || l.Finish? || l.NewFilter? || l.Send? || l.DropSender? || l.DropConfig?
    ensures Inv(Next(s, l))
  {
    var s' := Next(s, l);
    if l.Spawn? {
      TakenByNobody(s.taken, |s.workers|);
    }
    forall w | 0 <= w < |s'.workers| ensures WorkerOk(s', w) {
      if w < |s.workers| {
        assert WorkerOk(s, w);
      }
    }
  }

  /** A step that moves only worker `v` between program points that agree on what it has in hand. */
  lemma OthersKept(s: Pool, s': Pool, v: nat)
    requires v < |s.workers| == |s'.workers|
    requires forall w :: 0 <= w < |s.workers| ==> WorkerOk(s, w)
    requires forall w :: 0 <= w < |s.workers| && w != v ==> s'.workers[w] == s.workers[w]
    requires s'.taken == s.taken && s'.queue == s.queue && Connected(s') == Connected(s)
    requires s.lock in {None, Some(v)} && s'.lock in {None, Some(v)}
    requires WorkerOk(s', v)
    ensures forall w :: 0 <= w < |s'.workers| ==> WorkerOk(s', w)
  {
    hide Render, TakenBy, Handled, InHand, Connected, Leaving;
    forall w | 0 <= w < |s'.workers| ensures WorkerOk(s', w) {
      assert WorkerOk(s, w);
    }
  }

  lemma KeepLock(s: Pool, v: nat)
    requires Inv(s) && Enabled(s, Lock(v))
    ensures Inv(Next(s, Lock(v)))
  {
    hide Render, TakenBy, Handled;
    var s' := Next(s, Lock(v));
    assert WorkerOk(s, v);
    assert WorkerOk(s', v);
    OthersKept(s, s', v);
  }

  lemma KeepUnlock(s: Pool, v: nat)
    requires Inv(s) && Enabled(s, Unlock(v))
    ensures Inv(Next(s, Unlock(v)))
  {
    hide Render, TakenBy, Handled;
    var s' := Next(s, Unlock(v));
    assert WorkerOk(s, v);
    assert WorkerOk(s', v);
    OthersKept(s, s', v);
  }

  /** What a receipt by worker `v` means for worker `w`. */
  lemma WorkerAfterRecv(s: Pool, v: nat, w: nat)
    requires Inv(s) && Enabled(s, Recv(v)) && w < |s.workers|
    ensures WorkerOk(Next(s, Recv(v)), w)
  {
    hide Render, TakenBy, Handled;
    assert WorkerOk(s, v) && WorkerOk(s, w);
    if s.queue != [] {
      TakenByLast(s.taken, (v, s.queue[0]), w);
    }
  }

  lemma KeepRecv(s: Pool, v: nat)
    requires Inv(s) && Enabled(s, Recv(v))
    ensures Inv(Next(s, Recv(v)))
  {
    hide WorkerOk;
    var s' := Next(s, Recv(v));
    if s.queue != [] {
      assert Messages(s'.taken) == Messages(s.taken) + [s.queue[0]];
    }
    forall w | 0 <= w < |s'.workers| ensures WorkerOk(s', w) {
      WorkerAfterRecv(s, v, w);
    }
  }

  lemma KeepWrite(s: Pool, l: Label)
    requires Inv(s) && Enabled(s, l) && (l.Write? || l.WriteError?)
    ensures Inv(Next(s, l))
  {
    hide Render, TakenBy, Handled, Line;
    var s' := Next(s, l);
    var v := l.w;
    var e := if l.Write? then Written(s.workers[v].pc.msg) else Failed(s.workers[v].pc.msg, l.partial);
    assert WorkerOk(s, v);
    RenderLast(s.workers[v].log, e);
    assert s'.workers[v] == Worker(Idle, s.workers[v].file + Text(e), s.workers[v].log + [e]);
    assert WorkerOk(s', v);
    forall w | 0 <= w < |s'.workers| ensures WorkerOk(s', w) {
      assert WorkerOk(s, w);
    }
  }

  lemma Keep(s: Pool, l: Label)
    requires Inv(s) && Enabled(s, l)
    ensures Inv(Next(s, l))
  {
    hide Inv, Next, Enabled;
    match l
    case Lock(w) => KeepLock(s, w);
    case Recv(w) => KeepRecv(s, w);
    case Unlock(w) => KeepUnlock(s, w);
    case Write(_) => KeepWrite(s, l);
    case WriteError(_, _) => KeepWrite(s, l);
    case _ => KeepMain(s, l);
  }

  // ---------------------------------------------------------------------------
  // Every run: conservation and order
  // ---------------------------------------------------------------------------

  predicate Schedule(s: Pool, labels: seq<Label>)
    decreases |labels|
  {
    labels != [] ==> Enabled(s, labels[0]) && Schedule(Next(s, labels[0]), labels[1..])
  }

  function Execute(s: Pool, labels: seq<Label>): Pool
    requires Schedule(s, labels)
    decreases |labels|
  {
    if labels == [] then s else Execute(Next(s, labels[0]), labels[1..])
  }

  lemma {:induction false} ExecuteKeeps(s: Pool, labels: seq<Label>)
    requires Inv(s) && Schedule(s, labels)
    ensures Inv(Execute(s, labels))
    decreases |labels|
  {
    hide Inv, Next, Enabled;
    if labels != [] {
      Keep(s, labels[0]);
      ExecuteKeeps(Next(s, labels[0]), labels[1..]);
    }
  }

  lemma {:induction false} TargetKept(s: Pool, labels: seq<Label>)
    requires Schedule(s, labels)
    ensures Execute(s, labels).target == s.target
    decreases |labels|
  {
    if labels != [] {
      TargetKept(Next(s, labels[0]), labels[1..]);
    }
  }

  /** Who received each message. */
  function Owners(taken: seq<(nat, Message)>): seq<nat> {
    seq(|taken|, i requires 0 <= i < |taken| => taken[i].0)
  }

  /** What a worker received is the subsequence of all receipts at its own positions. */
  lemma TakenAtPositions(taken: seq<(nat, Message)>, w: nat)
    ensures var p := Positions(Owners(taken), w);
            && Increasing(p)
            && |p| == |TakenBy(taken, w)|
            && (forall k :: 0 <= k < |p| ==> p[k] < |taken| && taken[p[k]] == (w, TakenBy(taken, w)[k]))
            && (forall i :: 0 <= i < |taken| && taken[i].0 == w ==> i in p)
  {
    PositionsHold(Owners(taken), w);
    TakenInOrder(taken, w);
    forall i | 0 <= i < |taken| && taken[i].0 == w ensures i in Positions(Owners(taken), w) {
      PositionsComplete(Owners(taken), w, i);
    }
  }

  lemma {:induction false} TakenInOrder(taken: seq<(nat, Message)>, w: nat)
    ensures var p := Positions(Owners(taken), w);
            && |p| == |TakenBy(taken, w)|
            && (forall k :: 0 <= k < |p| ==> p[k] < |taken| && taken[p[k]] == (w, TakenBy(taken, w)[k]))
    decreases |taken|
  {
    if taken != [] {
      var n := |taken| - 1;
      assert Owners(taken[..n]) == Owners(taken)[..n];
      TakenInOrder(taken[..n], w);
    }
  }

  /**
   In every reachable state: the accepted messages are the received ones followed by the queue; the messages that
   worker `w` received are, in order, exactly the ones it wrote or failed to write plus at most one in hand; they sit
   at increasing positions of the accepted sequence, and no position belongs to two workers; its file is its log.
   */
  lemma EveryRunConserves(target: nat, labels: seq<Label>, w: nat)
    requires Schedule(Initial(target), labels)
    requires w < |Execute(Initial(target), labels).workers|
    ensures var s := Execute(Initial(target), labels);
            var worker, p := s.workers[w], Positions(Owners(s.taken), w);
            && s.accepted == Messages(s.taken) + s.queue
            && Handled(worker.log) + InHand(worker.pc) == TakenBy(s.taken, w)
            && Increasing(p) && |p| == |TakenBy(s.taken, w)|
            && (forall k :: 0 <= k < |p| ==>
                  && p[k] < |s.taken| <= |s.accepted|
                  && s.taken[p[k]].0 == w && s.accepted[p[k]] == TakenBy(s.taken, w)[k])
            && (forall i :: 0 <= i < |s.taken| ==> s.taken[i].0 < |s.workers|)
            && worker.file == Render(worker.log)
  {
    var s := Execute(Initial(target), labels);
    ExecuteKeeps(Initial(target), labels);
    assert WorkerOk(s, w);
    TakenAtPositions(s.taken, w);
  }

  // ---------------------------------------------------------------------------
  // Shutdown
  // ---------------------------------------------------------------------------

  /** No worker leaves its loop while a sender is alive or a message is queued. */
  lemma NobodyLeavesEarly(target: nat, labels: seq<Label>, w: nat)
    requires Schedule(Initial(target), labels)
    requires w < |Execute(Initial(target), labels).workers|
    ensures var s := Execute(Initial(target), labels);
            Leaving(s.workers[w].pc) ==> !s.config && s.filters == map[] && s.queue == []
  {
    ExecuteKeeps(Initial(target), labels);
    assert WorkerOk(Execute(Initial(target), labels), w);
  }

  /** Every sender is gone for good: the constructor gave up, or Envoy has dropped configuration and filters. */
  predicate Quiet(s: Pool) {
    !s.phase.Spawning? && !Connected(s)
  }

  predicate AllExited(s: Pool) {
    forall w :: 0 <= w < |s.workers| ==> s.workers[w].pc.Exited?
  }

  function Weight(pc: WorkerPC): nat {
    match pc
    case Received(_) => 5
    case Writing(_) => 4
    case Idle => 3
    case Waiting => 2
    case Closing => 1
    case Exited => 0
  }

  function Weights(workers: seq<Worker>): nat {
    if workers == [] then 0 else Weight(workers[0].pc) + Weights(workers[1..])
  }

  /** An upper bound on the steps that a quiet pool still takes. */
  function Rank(s: Pool): nat {
    Weights(s.workers) + 4 * |s.queue|
  }

  lemma {:induction false} WeightsUpdate(workers: seq<Worker>, w: nat, worker: Worker)
    requires w < |workers|
    ensures Weights(workers[w := worker]) + Weight(workers[w].pc) == Weights(workers) + Weight(worker.pc)
  {
    if w == 0 {
      assert workers[0 := worker][1..] == workers[1..];
    } else {
      WeightsUpdate(workers[1..], w - 1, worker);
      assert workers[w := worker][1..] == workers[1..][w - 1 := worker];
    }
  }

  lemma QuietStepsRank(s: Pool, l: Label)
    requires Quiet(s) && Enabled(s, l)
    ensures Quiet(Next(s, l)) && Rank(Next(s, l)) < Rank(s)
  {
    var w := l.w;
    WeightsUpdate(s.workers, w, Next(s, l).workers[w]);
  }

  lemma QuietCanStep(s: Pool)
    requires Inv(s) && Quiet(s) && !AllExited(s)
    ensures exists l :: Enabled(s, l)
  {
    var w :| 0 <= w < |s.workers| && !s.workers[w].pc.Exited?;
    var holder := if s.lock.Some? then s.lock.value else w;
    assert WorkerOk(s, w) && WorkerOk(s, holder);
    match s.workers[holder].pc
    case Idle => assert Enabled(s, Lock(holder));
    case Waiting => assert Enabled(s, Recv(holder));
    case Received(_) => assert Enabled(s, Unlock(holder));
    case Closing => assert Enabled(s, Unlock(holder));
    case Writing(_) => assert Enabled(s, Write(holder));
  }

  /** From a quiet state no schedule is longer than the rank, so every schedule ends. */
  lemma {:induction false} QuietSchedulesEnd(s: Pool, labels: seq<Label>)
    requires Quiet(s) && Schedule(s, labels)
    ensures |labels| <= Rank(s) && Quiet(Execute(s, labels))
    decreases |labels|
  {
    hide Enabled, Next, Rank, Quiet;
    if labels != [] {
      QuietStepsRank(s, labels[0]);
      QuietSchedulesEnd(Next(s, labels[0]), labels[1..]);
    }
  }

  /**
   Once all senders are gone, every schedule ends within `Rank` steps, and one that cannot go on has drained the
   queue and ended all workers, each message having been handled exactly once. This covers a constructor that gave
   up on a later file after spawning some workers.
   */
  lemma ShutdownDrains(target: nat, before: seq<Label>, after: seq<Label>)
    requires Schedule(Initial(target), before) && Quiet(Execute(Initial(target), before))
    requires Schedule(Execute(Initial(target), before), after)
    ensures var s := Execute(Initial(target), before);
            var end := Execute(s, after);
            && |after| <= Rank(s)
            && ((forall l :: !Enabled(end, l)) ==>
                  AllExited(end) && end.queue == [] && end.accepted == Messages(end.taken) &&
                  forall w :: 0 <= w < |end.workers| ==> Handled(end.workers[w].log) == TakenBy(end.taken, w))
  {
    var s := Execute(Initial(target), before);
    var end := Execute(s, after);
    ExecuteKeeps(Initial(target), before);
    ExecuteKeeps(s, after);
    QuietSchedulesEnd(s, after);
    if forall l :: !Enabled(end, l) {
      DrainedAtEnd(end);
    }
  }

  lemma DrainedAtEnd(s: Pool)
    requires Inv(s) && Quiet(s) && forall l :: !Enabled(s, l)
    ensures AllExited(s) && s.queue == [] && s.accepted == Messages(s.taken)
    ensures forall w :: 0 <= w < |s.workers| ==> Handled(s.workers[w].log) == TakenBy(s.taken, w)
  {
    if !AllExited(s) {
      QuietCanStep(s);
    }
    forall w | 0 <= w < |s.workers| ensures Handled(s.workers[w].log) == TakenBy(s.taken, w) {
      assert WorkerOk(s, w);
    }
    if s.workers != [] {
      assert WorkerOk(s, 0);
    }
  }
}
