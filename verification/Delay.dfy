/**
 The delay filter: the request hook stops the stream and starts a goroutine that sleeps, commits one event and closes
 its scheduler; the event's delivery continues the stream. The goroutine and Envoy take turns in any order.
 */
module Delay {
  import opened Common

  /** Times and durations are counted in nanoseconds. */
  const DELAY: int := 2_000_000_000

  datatype Status = Continue | StopIteration

  // ---------------------------------------------------------------------------
  // The filter object
  // ---------------------------------------------------------------------------

  /** The two fields of the filter; a fresh filter has zeros. */
  datatype Fields = Fields(onRequestHeaders: int, delayLapsed: int)

  function OnRequest(f: Fields, delay: bool, now: int): Fields {
    if delay then f.(onRequestHeaders := now) else f
  }

  function OnScheduled(f: Fields, now: int): Fields {
    f.(delayLapsed := now - f.onRequestHeaders)
  }

  function LapsedHeader(f: Fields): Option<int> {
    if f.delayLapsed > 0 then Some(f.delayLapsed) else None
  }

  /** What the filter asks of Envoy: headers by name, and the request to go on. */
  class Envoy {
    var requestHeaders: map<string, string>
    var continued: nat
    var lapsed: Option<int>

    constructor (requestHeaders: map<string, string>)
      ensures this.requestHeaders == requestHeaders && continued == 0 && lapsed == None
    {
      this.requestHeaders, continued, lapsed := requestHeaders, 0, None;
    }
  }

  class Filter {
    var onRequestHeaders: int
    var delayLapsed: int

    constructor ()
      ensures State() == Fields(0, 0)
    {
      onRequestHeaders, delayLapsed := 0, 0;
    }

    function State(): Fields
      reads this
    {
      Fields(onRequestHeaders, delayLapsed)
    }

    /** `spawned` tells that a scheduler was made and a goroutine started with it. */
    method RequestHeaders(e: Envoy, now: int) returns (status: Status, spawned: bool)
      modifies this
      ensures State() == OnRequest(old(State()), "do-delay" in e.requestHeaders, now)
      ensures status == (if "do-delay" in e.requestHeaders then StopIteration else Continue)
      ensures spawned <==> status == StopIteration
    {
      if "do-delay" !in e.requestHeaders {
        return Continue, false;
      }
      onRequestHeaders := now;
      return StopIteration, true;
    }

    method Scheduled(e: Envoy, eventID: nat, now: int) returns (panicked: bool)
      modifies this, e`requestHeaders, e`continued
      ensures panicked <==> eventID != 0
      ensures !panicked ==> State() == OnScheduled(old(State()), now)
      ensures !panicked ==> e.requestHeaders == old(e.requestHeaders)["delay-filter-on-scheduled" := "yes"]
      ensures e.continued == old(e.continued) + if panicked then 0 else 1
      ensures panicked ==> State() == old(State()) && e.requestHeaders == old(e.requestHeaders)
    {
      if eventID != 0 {
        return true;
      }
      delayLapsed := now - onRequestHeaders;
      e.requestHeaders := e.requestHeaders["delay-filter-on-scheduled" := "yes"];
      e.continued := e.continued + 1;
      return false;
    }

    method ResponseHeaders(e: Envoy) returns (status: Status)
      modifies e`lapsed
      ensures status == Continue
      ensures e.lapsed == if LapsedHeader(State()).Some? then LapsedHeader(State()) else old(e.lapsed)
    {
      if delayLapsed > 0 {
        e.lapsed := Some(delayLapsed);
      }
      return Continue;
    }
  }

  // ---------------------------------------------------------------------------
  // The protocol
  // ---------------------------------------------------------------------------

  datatype Goroutine = NotSpawned | Spawned | Sleeping(until: int) | Committing | Closing | Done

  datatype Stream = NoRequest | InRequestHook(delay: bool) | Flowing | Stopped | Resumed

  /** What can be seen of a run, in order. */
  datatype Event =
    | RequestHook(delay: bool, at: int)
    | Returned(status: Status)
    | Committed(id: nat)
    | Closed
    | Continued(at: int)          // the event was delivered, and the hook continued the request
    | EventPanic
    | Response(lapsed: Option<int>)
    | Destroyed

  datatype State = State(
    clock: int,
    fields: Fields,
    stream: Stream,
    destroyed: bool,
    go: Goroutine,
    pending: seq<nat>,   // committed events that Envoy has not delivered
    log: seq<Event>)

  datatype Label =
    | Tick(elapsed: nat)
    | Request(delay: bool)  // the request hook up to its return
    | Return
    | Start                 // the goroutine begins to sleep
    | Wake
    | Commit
    | Close
    | Deliver               // to a destroyed stream, the event is dropped
    | Respond
    | Destroy

  /** The stream's thread is in no hook. */
  predicate Between(s: State) {
    !s.stream.NoRequest? && !s.stream.InRequestHook?
  }

  predicate Enabled(s: State, l: Label) {
    match l
    case Tick(elapsed) => true
    case Request(_) => s.stream.NoRequest? && !s.destroyed
    case Return => s.stream.InRequestHook?
    case Start => s.go.Spawned?
    case Wake => s.go.Sleeping? && s.clock >= s.go.until
    case Commit => s.go.Committing?
    case Close => s.go.Closing?
    case Deliver => s.pending != [] && Between(s)
    case Respond => Between(s) && !s.destroyed
    case Destroy => !s.stream.InRequestHook? && !s.destroyed
  }

  function Seen(s: State, e: Event): State {
    s.(log := s.log + [e])
  }

  function Next(s: State, l: Label): State
    requires Enabled(s, l)
  {
    match l
    case Tick(elapsed) => s.(clock := s.clock + elapsed)
    case Request(delay) =>
      Seen(s.(fields := OnRequest(s.fields, delay, s.clock), stream := InRequestHook(delay),
              go := if delay then Spawned else NotSpawned), RequestHook(delay, s.clock))
    case Return =>
      if s.stream.delay then Seen(s.(stream := Stopped), Returned(StopIteration))
      else Seen(s.(stream := Flowing), Returned(Continue))
    case Start => s.(go := Sleeping(s.clock + DELAY))
    case Wake => s.(go := Committing)
    case Commit => Seen(s.(go := Closing, pending := s.pending + [0]), Committed(0))
    case Close => Seen(s.(go := Done), Closed)
    case Deliver =>
      var s' := s.(pending := s.pending[1..]);
      if s.destroyed then s'
      else if s.pending[0] != 0 then Seen(s', EventPanic)
      else Seen(s'.(fields := OnScheduled(s.fields, s.clock), stream := Resumed), Continued(s.clock))
    case Respond => Seen(s, Response(LapsedHeader(s.fields)))
    case Destroy => Seen(s.(destroyed := true), Destroyed)
  }

  function Initial(clock: int): State {
    State(clock, Fields(0, 0), NoRequest, false, NotSpawned, [], [])
  }

  predicate Schedule(s: State, labels: seq<Label>)
    decreases |labels|
  {
    labels != [] ==> Enabled(s, labels[0]) && Schedule(Next(s, labels[0]), labels[1..])
  }

  function Execute(s: State, labels: seq<Label>): State
    requires Schedule(s, labels)
    decreases |labels|
  {
    if labels == [] then s else Execute(Next(s, labels[0]), labels[1..])
  }

  // ---------------------------------------------------------------------------
  // Reading the log
  // ---------------------------------------------------------------------------

  function Count(log: seq<Event>, p: Event -> bool): nat {
    if log == [] then 0 else Count(log[..|log| - 1], p) + if p(log[|log| - 1]) then 1 else 0
  }

  predicate IsContinued(e: Event) { e.Continued? }

  predicate IsCommitted(e: Event) { e.Committed? }

  predicate IsClosed(e: Event) { e.Closed? }

  /** When the delaying request hook ran. */
  function RequestTime(log: seq<Event>): Option<int> {
    if log == [] then None
    else
      var last := log[|log| - 1];
      if last.RequestHook? && last.delay then Some(last.at) else RequestTime(log[..|log| - 1])
  }

  /** The time between the request hook and the delivery, once there has been a delivery. */
  function Lapsed(log: seq<Event>): Option<int> {
    if log == [] then None
    else
      var last := log[|log| - 1];
      if last.Continued? && RequestTime(log).Some? then Some(last.at - RequestTime(log).value)
      else Lapsed(log[..|log| - 1])
  }

  /** Every event is allowed after the ones before it. */
  predicate Legal(log: seq<Event>, i: nat)
    requires i < |log|
  {
    var past := log[..i];
    match log[i]
    case Continued(_) =>
      && Returned(StopIteration) in past && Committed(0) in past
      && Destroyed !in past && Count(past, IsContinued) == 0
    case Committed(id) => id == 0 && Count(past, IsCommitted) == 0
    case Closed => Count(past, IsCommitted) == 1 && Count(past, IsClosed) == 0
    case Response(lapsed) =>
      && Destroyed !in past && lapsed == Lapsed(past)
      && (lapsed.Some? <==> Count(past, IsContinued) == 1)
      && (lapsed.Some? ==> lapsed.value >= DELAY)
    case EventPanic => false
    case _ => true
  }

  predicate AllLegal(log: seq<Event>) {
    forall i :: 0 <= i < |log| ==> Legal(log, i)
  }

  lemma LegalLast(log: seq<Event>, e: Event)
    requires AllLegal(log) && Legal(log + [e], |log|)
    ensures AllLegal(log + [e])
  {
    hide Legal;
    forall i | 0 <= i < |log| ensures Legal(log + [e], i) {
      LegalPrefix(log, e, i);
    }
  }

  lemma LegalPrefix(log: seq<Event>, e: Event, i: nat)
    requires i < |log|
    ensures Legal(log + [e], i) == Legal(log, i)
  {
    assert (log + [e])[..i] == log[..i];
  }

  lemma LogLast(log: seq<Event>, e: Event)
    ensures forall p :: Count(log + [e], p) == Count(log, p) + if p(e) then 1 else 0
    ensures RequestTime(log + [e]) == if e.RequestHook? && e.delay then Some(e.at) else RequestTime(log)
    ensures Lapsed(log + [e]) ==
            if e.Continued? && RequestTime(log).Some? then Some(e.at - RequestTime(log).value) else Lapsed(log)
  {
    assert (log + [e])[..|log|] == log;
  }

  // ---------------------------------------------------------------------------
  // The invariant
  // ---------------------------------------------------------------------------

  predicate HasCommitted(s: State) {
    s.go.Closing? || s.go.Done?
  }

  predicate Delaying(s: State) {
    s.stream == InRequestHook(true) || s.stream.Stopped? || s.stream.Resumed?
  }

  predicate CountInv(s: State) {
    && Count(s.log, IsContinued) == (if s.stream.Resumed? then 1 else 0)
    && Count(s.log, IsCommitted) == (if HasCommitted(s) then 1 else 0)
    && Count(s.log, IsClosed) == (if s.go.Done? then 1 else 0)
  }

  predicate SeenInv(s: State) {
    && (HasCommitted(s) ==> Committed(0) in s.log)
    && (Returned(StopIteration) in s.log <==> s.stream.Stopped? || s.stream.Resumed?)
    && (Destroyed in s.log <==> s.destroyed)
  }

  predicate LogInv(s: State) {
    AllLegal(s.log) && CountInv(s) && SeenInv(s)
  }

  predicate TimeInv(s: State) {
    && (Delaying(s) ==> RequestTime(s.log) == Some(s.fields.onRequestHeaders) && s.fields.onRequestHeaders <= s.clock)
    && (s.go.Sleeping? ==> s.go.until >= s.fields.onRequestHeaders + DELAY)
    && (s.go.Committing? || HasCommitted(s) ==> s.clock >= s.fields.onRequestHeaders + DELAY)
    && (if s.stream.Resumed? then Lapsed(s.log) == Some(s.fields.delayLapsed) && s.fields.delayLapsed >= DELAY
        else Lapsed(s.log) == None && s.fields.delayLapsed == 0)
  }

  predicate PendingInv(s: State) {
    && (s.go.NotSpawned? <==> !Delaying(s))
    && s.pending in {[], [0]}
    && (s.pending != [] || s.stream.Resumed? ==> HasCommitted(s))
    && (s.stream.Resumed? ==> s.pending == [])
    && (HasCommitted(s) && !s.destroyed ==> s.pending == [0] || s.stream.Resumed?)
  }

  predicate Inv(s: State) {
    LogInv(s) && TimeInv(s) && PendingInv(s)
  }

  /** Whatever a step adds to the log is allowed there. */
  lemma StepIsLegal(s: State, l: Label, e: Event)
    requires Inv(s) && Enabled(s, l) && Next(s, l).log == s.log + [e]
    ensures Legal(s.log + [e], |s.log|)
  {
    hide Count, Lapsed, RequestTime, AllLegal;
    assert (s.log + [e])[|s.log|] == e && Next(s, l).log[|s.log|] == e;
    assert (s.log + [e])[..|s.log|] == s.log;
  }

  lemma KeepCounts(s: State, l: Label)
    requires Inv(s) && Enabled(s, l)
    ensures CountInv(Next(s, l))
  {
    hide Count, Lapsed, RequestTime, AllLegal, TimeInv, SeenInv;
    var s' := Next(s, l);
    if s'.log != s.log {
      var e := s'.log[|s.log|];
      assert s'.log == s.log + [e];
      LogLast(s.log, e);
    }
  }

  lemma KeepSeen(s: State, l: Label)
    requires Inv(s) && Enabled(s, l)
    ensures SeenInv(Next(s, l))
  {
    hide AllLegal, TimeInv, CountInv;
  }

  lemma KeepLog(s: State, l: Label)
    requires Inv(s) && Enabled(s, l)
    ensures LogInv(Next(s, l))
  {
    hide Count, AllLegal, Legal, TimeInv, PendingInv, CountInv, SeenInv;
    KeepCounts(s, l);
    KeepSeen(s, l);
    var s' := Next(s, l);
    if s'.log != s.log {
      var e := s'.log[|s.log|];
      assert s'.log == s.log + [e];
      StepIsLegal(s, l, e);
      LegalLast(s.log, e);
    }
  }

  lemma KeepTime(s: State, l: Label)
    requires Inv(s) && Enabled(s, l)
    ensures TimeInv(Next(s, l))
  {
    hide Count, Lapsed, RequestTime, AllLegal;
    var s' := Next(s, l);
    if s'.log != s.log {
      var e := s'.log[|s.log|];
      assert s'.log == s.log + [e];
      LogLast(s.log, e);
    }
  }

  lemma KeepPending(s: State, l: Label)
    requires Inv(s) && Enabled(s, l)
    ensures PendingInv(Next(s, l))
  {
    hide LogInv, TimeInv;
    if l.Deliver? {
      assert s.pending[1..] == [];
    } else if l.Commit? {
      assert s.pending + [0] == [0];
    }
  }

  lemma StartInv(clock: int)
    ensures Inv(Initial(clock))
  {}

  lemma {:induction false} ExecuteKeeps(s: State, labels: seq<Label>)
    requires Inv(s) && Schedule(s, labels)
    ensures Inv(Execute(s, labels))
    decreases |labels|
  {
    hide LogInv, TimeInv, PendingInv, Next, Enabled;
    if labels != [] {
      KeepLog(s, labels[0]);
      KeepTime(s, labels[0]);
      KeepPending(s, labels[0]);
      ExecuteKeeps(Next(s, labels[0]), labels[1..]);
    }
  }

  lemma {:induction false} LegalCounts(log: seq<Event>)
    requires AllLegal(log)
    ensures Count(log, IsContinued) <= 1 && Count(log, IsClosed) <= Count(log, IsCommitted) <= 1
    ensures EventPanic !in log
    decreases |log|
  {
    if log != [] {
      var n := |log| - 1;
      assert log == log[..n] + [log[n]];
      forall i | 0 <= i < n ensures Legal(log[..n], i) {
        LegalPrefix(log[..n], log[n], i);
      }
      LegalCounts(log[..n]);
      assert Legal(log, n);
    }
  }

  /**
   Over every interleaving: the request is continued at most once, only after the stream was stopped and the event
   committed, and not on a destroyed stream; the event is committed at most once, with identifier 0, and then the
   scheduler is closed at most once; the panic on an unknown identifier is never reached; and a response carries the
   lapsed header exactly if a delivery came before it, with the time from request hook to delivery, which is at least
   two seconds.
   */
  lemma EveryRunIsLegal(clock: int, labels: seq<Label>)
    requires Schedule(Initial(clock), labels)
    ensures var log := Execute(Initial(clock), labels).log;
            && AllLegal(log)
            && Count(log, IsContinued) <= 1 && Count(log, IsClosed) <= Count(log, IsCommitted) <= 1
            && EventPanic !in log
  {
    StartInv(clock);
    ExecuteKeeps(Initial(clock), labels);
    LegalCounts(Execute(Initial(clock), labels).log);
  }

  lemma LegalTake(log: seq<Event>, i: nat)
    requires AllLegal(log) && i <= |log|
    ensures AllLegal(log[..i])
  {
    forall j | 0 <= j < i ensures Legal(log[..i], j) {
      assert Legal(log, j) && log[..i][..j] == log[..j];
    }
  }

  /**
   The order of events in every run, written out: a continuation comes after the stop and the commit, and not after the
   destruction; a close comes after the commit; a response carries the lapsed header if and only if a continuation came
   before it, and then reports at least two seconds.
   */
  lemma EventsInOrder(clock: int, labels: seq<Label>, i: nat)
    requires Schedule(Initial(clock), labels) && i < |Execute(Initial(clock), labels).log|
    ensures var log := Execute(Initial(clock), labels).log;
            && (log[i].Continued? ==>
                  Returned(StopIteration) in log[..i] && Committed(0) in log[..i] && Destroyed !in log[..i])
            && (log[i].Closed? ==> Committed(0) in log[..i])
            && (log[i].Response? ==>
                  && (log[i].lapsed.Some? <==> exists j :: 0 <= j < i && log[j].Continued?)
                  && (log[i].lapsed.Some? ==> log[i].lapsed.value >= 2_000_000_000))
  {
    hide AllLegal, Count, Lapsed, Execute, Schedule;
    EveryRunIsLegal(clock, labels);
    var log := Execute(Initial(clock), labels).log;
    var past := log[..i];
    LegalHere(log, i);
    LegalTake(log, i);
    LegalCounts(past);
    CountSome(past, IsContinued);
    assert forall j :: 0 <= j < i ==> past[j] == log[j];
    if log[i].Closed? {
      CountSome(past, IsCommitted);
      var j :| 0 <= j < i && IsCommitted(past[j]);
      LegalHere(log, j);
      assert past[j] == Committed(0);
    }
  }

  lemma LegalHere(log: seq<Event>, i: nat)
    requires AllLegal(log) && i < |log|
    ensures Legal(log, i)
  {}

  lemma {:induction false} CountSome(log: seq<Event>, p: Event -> bool)
    ensures Count(log, p) > 0 <==> exists j :: 0 <= j < |log| && p(log[j])
    decreases |log|
  {
    if log != [] {
      var n := |log| - 1;
      CountSome(log[..n], p);
      assert forall j :: 0 <= j < n ==> log[..n][j] == log[j];
    }
  }

  predicate IsResponse(e: Event) { e.Response? }

  /** A destroyed stream stays so, and is neither continued nor answered on. */
  lemma DestroyedStays(s: State, l: Label)
    requires Inv(s) && Enabled(s, l) && s.destroyed
    ensures Next(s, l).destroyed
    ensures Count(Next(s, l).log, IsContinued) == Count(s.log, IsContinued)
    ensures Count(Next(s, l).log, IsResponse) == Count(s.log, IsResponse)
  {
    hide Count, LogInv, TimeInv;
    var s' := Next(s, l);
    if s'.log != s.log {
      assert s'.log == s.log + [s'.log[|s.log|]];
      LogLast(s.log, s'.log[|s.log|]);
    }
  }

  lemma {:induction false} NothingOnceDestroyed(s: State, labels: seq<Label>)
    requires Inv(s) && Schedule(s, labels) && s.destroyed
    ensures Count(Execute(s, labels).log, IsContinued) == Count(s.log, IsContinued)
    ensures Count(Execute(s, labels).log, IsResponse) == Count(s.log, IsResponse)
    decreases |labels|
  {
    hide Inv, Next, Enabled, Count;
    if labels != [] {
      KeepAll(s, labels[0]);
      DestroyedStays(s, labels[0]);
      NothingOnceDestroyed(Next(s, labels[0]), labels[1..]);
    }
  }

  /** After the step that destroys the stream, the filter neither continues it nor answers a response on it. */
  lemma NothingAfterDestroy(clock: int, before: seq<Label>, after: seq<Label>)
    requires Schedule(Initial(clock), before) && Enabled(Execute(Initial(clock), before), Destroy)
    requires Schedule(Next(Execute(Initial(clock), before), Destroy), after)
    ensures var s := Execute(Initial(clock), before);
            var end := Execute(Next(s, Destroy), after);
            && Count(end.log, IsContinued) == Count(s.log, IsContinued)
            && Count(end.log, IsResponse) == Count(s.log, IsResponse)
  {
    StartInv(clock);
    ExecuteKeeps(Initial(clock), before);
    var s := Execute(Initial(clock), before);
    KeepAll(s, Destroy);
    LogLast(s.log, Destroyed);
    hide Inv, Count;
    NothingOnceDestroyed(Next(s, Destroy), after);
  }

  // ---------------------------------------------------------------------------
  // The filter object in the protocol
  // ---------------------------------------------------------------------------

  /** The lapsed header as the responses so far have set it. */
  function LapsedSet(log: seq<Event>): Option<int> {
    if log == [] then None
    else
      var last := log[|log| - 1];
      if last.Response? && last.lapsed.Some? then last.lapsed else LapsedSet(log[..|log| - 1])
  }

  ghost predicate InStep(s: State, filter: Filter, e: Envoy)
    reads filter, e
  {
    && filter.State() == s.fields
    && e.continued == Count(s.log, IsContinued)
    && e.lapsed == LapsedSet(s.log)
    && (e.continued > 0 <==> "delay-filter-on-scheduled" in e.requestHeaders)
  }

  /** The hooks of a filter object, called as the steps of the protocol call them, do what the protocol says. */
  method TakeStep(s: State, l: Label, filter: Filter, e: Envoy) returns (s': State)
    requires Inv(s) && Enabled(s, l) && InStep(s, filter, e)
    modifies filter, e
    ensures s' == Next(s, l) && InStep(s', filter, e)
  {
    hide Count, LapsedSet, LogInv, TimeInv;
    s' := Next(s, l);
    if s.stream.NoRequest? {
      NotContinued(s);
    }
    match l {
      case Request(delay) =>
        e.requestHeaders := if delay then map["do-delay" := ""] else map[];
        var status, spawned := filter.RequestHeaders(e, s.clock);
        assert spawned == s'.go.Spawned? && status == if delay then StopIteration else Continue;
      case Deliver =>
        if !s.destroyed {
          var panicked := filter.Scheduled(e, s.pending[0], s.clock);
          assert !panicked;
        }
      case Respond =>
        var status := filter.ResponseHeaders(e);
      case _ =>
    }
    StepInLog(s, l);
  }

  lemma NotContinued(s: State)
    requires Inv(s) && s.stream.NoRequest?
    ensures Count(s.log, IsContinued) == 0
  {}

  /** What each step adds to the two readings of the log. */
  lemma StepInLog(s: State, l: Label)
    requires Inv(s) && Enabled(s, l)
    ensures Count(Next(s, l).log, IsContinued) ==
            Count(s.log, IsContinued) + if l.Deliver? && !s.destroyed then 1 else 0
    ensures LapsedSet(Next(s, l).log) ==
            if l.Respond? && LapsedHeader(s.fields).Some? then LapsedHeader(s.fields) else LapsedSet(s.log)
  {
    hide Lapsed, RequestTime, AllLegal, Count, LapsedSet;
    var s' := Next(s, l);
    if s'.log != s.log {
      var e := s'.log[|s.log|];
      assert s'.log == s.log + [e];
      LogLast(s.log, e);
      LapsedSetLast(s.log, e);
    }
  }

  lemma LapsedSetLast(log: seq<Event>, e: Event)
    ensures LapsedSet(log + [e]) == if e.Response? && e.lapsed.Some? then e.lapsed else LapsedSet(log)
  {
    assert (log + [e])[..|log|] == log;
  }

  /** A whole schedule, played on a fresh filter object. */
  method Play(clock: int, labels: seq<Label>) returns (filter: Filter, e: Envoy)
    requires Schedule(Initial(clock), labels)
    ensures var s := Execute(Initial(clock), labels);
            && InStep(s, filter, e)
            && filter.State() == s.fields && e.continued == Count(s.log, IsContinued) && e.lapsed == LapsedSet(s.log)
            && (e.continued > 0 <==> "delay-filter-on-scheduled" in e.requestHeaders)
  {
    filter := new Filter();
    e := new Envoy(map[]);
    var s := Initial(clock);
    StartInv(clock);
    assert InStep(s, filter, e);
    hide Inv, Enabled, Next, InStep;
    for k := 0 to |labels|
      invariant fresh(filter) && fresh(e)
      invariant Inv(s) && InStep(s, filter, e)
      invariant Schedule(s, labels[k..]) && Execute(s, labels[k..]) == Execute(Initial(clock), labels)
    {
      assert labels[k..][0] == labels[k] && labels[k..][1..] == labels[k + 1..];
      KeepAll(s, labels[k]);
      s := TakeStep(s, labels[k], filter, e);
    }
    InStepMeans(s, filter, e);
  }

  lemma InStepMeans(s: State, filter: Filter, e: Envoy)
    requires InStep(s, filter, e)
    ensures filter.State() == s.fields && e.continued == Count(s.log, IsContinued) && e.lapsed == LapsedSet(s.log)
    ensures e.continued > 0 <==> "delay-filter-on-scheduled" in e.requestHeaders
  {}

  // ---------------------------------------------------------------------------
  // Progress
  // ---------------------------------------------------------------------------

  /** The steps that the goroutine and Envoy owe each other. */
  predicate Progress(l: Label) {
    l.Return? || l.Start? || l.Wake? || l.Commit? || l.Close? || l.Deliver?
  }

  function Remaining(go: Goroutine): nat {
    match go
    case NotSpawned => 0
    case Spawned => 5
    case Sleeping(_) => 4
    case Committing => 3
    case Closing => 1
    case Done => 0
  }

  /** The progress steps that are left. */
  function Rank(s: State): nat {
    Remaining(s.go) + |s.pending| + if s.stream.InRequestHook? then 1 else 0
  }

  /** Progress uses up one step each; nothing else but the arrival of the request changes what is left. */
  lemma StepsRank(s: State, l: Label)
    requires Inv(s) && Enabled(s, l)
    ensures Rank(Next(s, l)) ==
            if Progress(l) then Rank(s) - 1
            else if l.Request? then (if l.delay then 6 else 1)
            else Rank(s)
  {}

  /** Owed steps stay possible until they are taken, whatever else happens. */
  lemma ProgressPersists(s: State, l: Label, other: Label)
    requires Inv(s) && Progress(l) && Enabled(s, l) && Enabled(s, other) && other != l
    ensures Enabled(Next(s, other), l)
  {}

  /** As long as steps are owed, one of them is possible, at once or after two more seconds. */
  lemma NeverStuck(s: State)
    requires Inv(s) && Rank(s) > 0
    ensures exists l :: Progress(l) && (Enabled(s, l) || (s.go.Sleeping? && Enabled(s.(clock := s.go.until), l)))
  {
    if s.stream.InRequestHook? {
      assert Enabled(s, Return);
    } else {
      match s.go
      case Spawned => assert Enabled(s, Start);
      case Sleeping(until) => assert Enabled(s.(clock := until), Wake);
      case Committing => assert Enabled(s, Commit);
      case Closing => assert Enabled(s, Close);
      case Done => assert Enabled(s, Deliver);
      case NotSpawned =>
    }
  }

  function ProgressMade(labels: seq<Label>): nat {
    if labels == [] then 0 else (if Progress(labels[0]) then 1 else 0) + ProgressMade(labels[1..])
  }

  lemma {:induction false} ProgressAddsUp(s: State, labels: seq<Label>)
    requires Inv(s) && Schedule(s, labels) && !s.stream.NoRequest?
    ensures Rank(Execute(s, labels)) + ProgressMade(labels) == Rank(s)
    ensures Delaying(s) ==> Delaying(Execute(s, labels))
    decreases |labels|
  {
    hide LogInv, TimeInv;
    if labels != [] {
      KeepAll(s, labels[0]);
      StepsRank(s, labels[0]);
      ProgressAddsUp(Next(s, labels[0]), labels[1..]);
    }
  }

  lemma KeepAll(s: State, l: Label)
    requires Inv(s) && Enabled(s, l)
    ensures Inv(Next(s, l))
  {
    KeepLog(s, l);
    KeepTime(s, l);
    KeepPending(s, l);
  }

  /** A delaying stream owes nothing just if its scheduler is closed and no event is left to deliver. */
  lemma NothingOwed(s: State)
    requires Inv(s) && Delaying(s)
    ensures Rank(s) == 0 ==> Count(s.log, IsCommitted) == 1 && Count(s.log, IsClosed) == 1
    ensures Rank(s) == 0 && Destroyed !in s.log ==> Count(s.log, IsContinued) == 1
    ensures Count(s.log, IsContinued) == 1 && Count(s.log, IsClosed) == 1 ==> Rank(s) == 0
  {
    hide Count, AllLegal, TimeInv;
  }

  /**
   From the delaying request hook on, six steps are owed: no run takes more. When they have been taken the event was
   committed once and the scheduler closed once, destroyed stream or not; and a stream that was not destroyed has been
   continued exactly once.
   */
  lemma DelayedStreamsContinueOnce(clock: int, before: seq<Label>, after: seq<Label>)
    requires Schedule(Initial(clock), before) && Enabled(Execute(Initial(clock), before), Request(true))
    requires Schedule(Next(Execute(Initial(clock), before), Request(true)), after)
    ensures var end := Execute(Next(Execute(Initial(clock), before), Request(true)), after);
            && ProgressMade(after) <= 6
            && (ProgressMade(after) == 6 ==>
                  && Count(end.log, IsCommitted) == 1 && Count(end.log, IsClosed) == 1
                  && (Destroyed !in end.log ==> Count(end.log, IsContinued) == 1))
            && (Count(end.log, IsContinued) == 1 && Count(end.log, IsClosed) == 1 ==> ProgressMade(after) == 6)
  {
    assert Inv(Initial(clock));
    hide LogInv, TimeInv, PendingInv, Count, Rank;
    var s := Execute(Initial(clock), before);
    ExecuteKeeps(Initial(clock), before);
    KeepAll(s, Request(true));
    StepsRank(s, Request(true));
    var begun := Next(s, Request(true));
    ProgressAddsUp(begun, after);
    ExecuteKeeps(begun, after);
    NothingOwed(Execute(begun, after));
  }

  /** A stream without the header is never stopped, never continued by the filter, and needs no scheduler. */
  lemma UndelayedStreamsFlow(clock: int, before: seq<Label>, after: seq<Label>)
    requires Schedule(Initial(clock), before) && Enabled(Execute(Initial(clock), before), Request(false))
    requires Schedule(Next(Execute(Initial(clock), before), Request(false)), after)
    ensures var end := Execute(Next(Execute(Initial(clock), before), Request(false)), after);
            && Returned(StopIteration) !in end.log && Count(end.log, IsContinued) == 0
            && Count(end.log, IsCommitted) == 0 && LapsedHeader(end.fields) == None
  {
    var s := Execute(Initial(clock), before);
    ExecuteKeeps(Initial(clock), before);
    KeepAll(s, Request(false));
    ExecuteKeeps(Next(s, Request(false)), after);
    FlowingStays(Next(s, Request(false)), after);
  }

  lemma {:induction false} FlowingStays(s: State, labels: seq<Label>)
    requires Inv(s) && Schedule(s, labels) && !s.stream.NoRequest? && !Delaying(s)
    ensures !Delaying(Execute(s, labels))
    decreases |labels|
  {
    hide LogInv, TimeInv;
    if labels != [] {
      KeepAll(s, labels[0]);
      FlowingStays(Next(s, labels[0]), labels[1..]);
    }
  }

  // ---------------------------------------------------------------------------
  // Fair runs
  // ---------------------------------------------------------------------------

  /** An endless run: the state before each step, and the steps. */
  ghost predicate InfiniteRun(st: nat -> State, run: nat -> Label) {
    && st(0) == Initial(st(0).clock)
    && forall n: nat :: Enabled(st(n), run(n)) && st(n + 1) == Next(st(n), run(n))
  }

  ghost predicate EnabledFrom(st: nat -> State, l: Label, n: nat) {
    forall m: nat :: m >= n ==> Enabled(st(m), l)
  }

  ghost predicate TakenFrom(run: nat -> Label, l: Label, n: nat) {
    exists m: nat :: m >= n && run(m) == l
  }

  ghost predicate Passes(st: nat -> State, t: int) {
    exists n: nat :: st(n).clock >= t
  }

  /** An owed step that stays possible is taken at some time, and time passes every bound. */
  ghost predicate Fair(st: nat -> State, run: nat -> Label) {
    && (forall l, n: nat :: Progress(l) && EnabledFrom(st, l, n) ==> TakenFrom(run, l, n))
    && (forall t: int :: Passes(st, t))
  }

  lemma {:induction false} InvAt(st: nat -> State, run: nat -> Label, n: nat)
    requires InfiniteRun(st, run)
    ensures Inv(st(n))
  {
    hide LogInv, TimeInv, PendingInv, Next, Enabled;
    if n == 0 {
      StartInv(st(0).clock);
    } else {
      InvAt(st, run, n - 1);
      KeepAll(st(n - 1), run(n - 1));
    }
  }

  /** Time does not run backwards, owed steps do not grow in number, and only `Wake` ends a sleep. */
  lemma StepMonotone(s: State, l: Label)
    requires Inv(s) && Enabled(s, l)
    ensures Next(s, l).clock >= s.clock
    ensures Delaying(s) ==> Delaying(Next(s, l)) && Rank(Next(s, l)) <= Rank(s)
    ensures Delaying(s) && Progress(l) ==> Rank(Next(s, l)) < Rank(s)
    ensures s.go.Sleeping? && l != Wake ==> Next(s, l).go == s.go
  {
    hide LogInv, TimeInv;
    StepsRank(s, l);
  }

  lemma {:induction false} Monotone(st: nat -> State, run: nat -> Label, n: nat, m: nat)
    requires InfiniteRun(st, run) && n <= m
    ensures st(m).clock >= st(n).clock
    ensures Delaying(st(n)) ==> Delaying(st(m)) && Rank(st(m)) <= Rank(st(n))
    decreases m
  {
    hide Inv, Delaying, Rank, Next, Enabled;
    if m > n {
      Monotone(st, run, n, m - 1);
      InvAt(st, run, m - 1);
      StepMonotone(st(m - 1), run(m - 1));
    }
  }

  /** An owed step that is possible stays so until it is taken. */
  lemma {:induction false} StaysEnabled(st: nat -> State, run: nat -> Label, l: Label, n: nat, m: nat)
    requires InfiniteRun(st, run) && Progress(l) && Enabled(st(n), l) && n <= m
    requires forall k: nat :: n <= k < m ==> run(k) != l
    ensures Enabled(st(m), l)
    decreases m
  {
    hide Inv, Next, Enabled, Progress;
    if m > n {
      StaysEnabled(st, run, l, n, m - 1);
      InvAt(st, run, m - 1);
      ProgressPersists(st(m - 1), l, run(m - 1));
    }
  }

  lemma EnabledForever(st: nat -> State, run: nat -> Label, l: Label, n: nat)
    requires InfiniteRun(st, run) && Progress(l) && Enabled(st(n), l) && !TakenFrom(run, l, n)
    ensures EnabledFrom(st, l, n)
  {
    hide InfiniteRun, Enabled, Progress;
    forall k: nat | k >= n ensures Enabled(st(k), l) {
      StaysEnabled(st, run, l, n, k);
    }
  }

  /** In a fair run a possible owed step is taken, so that less is owed afterwards. */
  lemma OwedStepTaken(st: nat -> State, run: nat -> Label, l: Label, n: nat) returns (m: nat)
    requires InfiniteRun(st, run) && Fair(st, run)
    requires Delaying(st(n)) && Progress(l) && Enabled(st(n), l)
    ensures m > n && Rank(st(m)) < Rank(st(n)) && Delaying(st(m))
  {
    hide Inv, Delaying, Rank, Next, Enabled, Progress;
    if !TakenFrom(run, l, n) {
      EnabledForever(st, run, l, n);
    }
    var k: nat :| k >= n && run(k) == l;
    Monotone(st, run, n, k);
    InvAt(st, run, k);
    StepMonotone(st(k), run(k));
    m := k + 1;
  }

  /** A sleep ends in a fair run, if only because time passes its end. */
  lemma SleepEnds(st: nat -> State, run: nat -> Label, n: nat) returns (m: nat)
    requires InfiniteRun(st, run) && Fair(st, run)
    requires Delaying(st(n)) && st(n).go.Sleeping?
    ensures m >= n && Delaying(st(m)) && Rank(st(m)) <= Rank(st(n))
    ensures Rank(st(m)) < Rank(st(n)) || Enabled(st(m), Wake)
  {
    hide Inv, Delaying, Rank, Next, Fair;
    m := ClockReaches(st, run, n, st(n).go.until);
    Monotone(st, run, n, m);
    if Rank(st(m)) == Rank(st(n)) {
      StillAsleep(st, run, n, m);
    }
  }

  lemma ClockReaches(st: nat -> State, run: nat -> Label, n: nat, t: int) returns (m: nat)
    requires InfiniteRun(st, run) && Fair(st, run)
    ensures m >= n && st(m).clock >= t
  {
    hide Delaying, Rank, Next, Enabled;
    assert Passes(st, t);
    var k: nat :| st(k).clock >= t;
    m := if k >= n then k else n;
    Monotone(st, run, k, m);
  }

  lemma {:induction false} StillAsleep(st: nat -> State, run: nat -> Label, n: nat, m: nat)
    requires InfiniteRun(st, run) && n <= m
    requires Delaying(st(n)) && st(n).go.Sleeping? && Rank(st(m)) == Rank(st(n))
    ensures st(m).go == st(n).go
    decreases m
  {
    hide Inv, Delaying, Rank, Next, Enabled;
    if m > n {
      Monotone(st, run, n, m - 1);
      InvAt(st, run, m - 1);
      StepMonotone(st(m - 1), run(m - 1));
      StillAsleep(st, run, n, m - 1);
    }
  }

  /** As long as steps are owed, a fair run takes one of them. */
  lemma OwesLess(st: nat -> State, run: nat -> Label, n: nat) returns (m: nat)
    requires InfiniteRun(st, run) && Fair(st, run)
    requires Delaying(st(n)) && Rank(st(n)) > 0
    ensures m > n && Delaying(st(m)) && Rank(st(m)) < Rank(st(n))
  {
    hide Inv, Delaying, Rank, Next, Fair;
    InvAt(st, run, n);
    NeverStuck(st(n));
    var l :| Progress(l) && (Enabled(st(n), l) || (st(n).go.Sleeping? && Enabled(st(n).(clock := st(n).go.until), l)));
    if Enabled(st(n), l) {
      m := OwedStepTaken(st, run, l, n);
    } else {
      m := SleepEnds(st, run, n);
      if Rank(st(m)) == Rank(st(n)) {
        m := OwedStepTaken(st, run, Wake, m);
      }
    }
  }

  lemma {:induction false} NothingOwedAtLast(st: nat -> State, run: nat -> Label, n: nat) returns (m: nat)
    requires InfiniteRun(st, run) && Fair(st, run) && Delaying(st(n))
    ensures m >= n && Delaying(st(m)) && Rank(st(m)) == 0
    decreases Rank(st(n))
  {
    hide Inv, Delaying, Rank, Next, Enabled, Fair, InfiniteRun;
    m := n;
    if Rank(st(n)) > 0 {
      m := OwesLess(st, run, n);
      m := NothingOwedAtLast(st, run, m);
    }
  }

  /**
   Under fair scheduling every stream that the delaying hook has begun gets there: at some later time the event has
   been committed once and the scheduler closed once, and the request has been continued exactly once unless the
   stream was destroyed.
   */
  lemma FairRunsContinue(st: nat -> State, run: nat -> Label, n: nat)
    requires InfiniteRun(st, run) && Fair(st, run) && Delaying(st(n))
    ensures exists m: nat :: m >= n &&
              Count(st(m).log, IsCommitted) == 1 && Count(st(m).log, IsClosed) == 1 &&
              (Destroyed !in st(m).log ==> Count(st(m).log, IsContinued) == 1)
  {
    hide Inv, Delaying, Rank, InfiniteRun, Fair, Count;
    var m := NothingOwedAtLast(st, run, n);
    InvAt(st, run, m);
    NothingOwed(st(m));
  }

  // ---------------------------------------------------------------------------
  // A fair run
  // ---------------------------------------------------------------------------

  function FairStep(n: nat): Label {
    if n == 0 then Request(true)
    else if n == 1 then Return
    else if n == 2 then Start
    else if n == 3 then Tick(DELAY)
    else if n == 4 then Wake
    else if n == 5 then Commit
    else if n == 6 then Close
    else if n == 7 then Deliver
    else Tick(1)
  }

  function FairState(n: nat): State {
    if n == 0 then Initial(0)
    else
      var s := FairState(n - 1);
      if Enabled(s, FairStep(n - 1)) then Next(s, FairStep(n - 1)) else s
  }

  lemma FairNext(n: nat)
    requires Enabled(FairState(n), FairStep(n))
    ensures FairState(n + 1) == Next(FairState(n), FairStep(n))
  {
    hide Next, Enabled, FairStep;
  }

  lemma FairStart()
    ensures forall n :: 0 <= n < 8 ==> Enabled(FairState(n), FairStep(n))
    ensures Resting(FairState(8), DELAY) && Delaying(FairState(1))
  {
    hide FairState;
    assert FairState(0) == Initial(0) by {
      FairZero();
    }
    FairNext(0);
    FairNext(1);
    FairNext(2);
    FairNext(3);
    FairNext(4);
    FairNext(5);
    FairNext(6);
    FairNext(7);
  }

  lemma FairZero()
    ensures FairState(0) == Initial(0)
  {}

  /** Nothing is owed any more. */
  predicate Resting(s: State, clock: int) {
    && s.go == Done && s.pending == [] && s.stream == Resumed && s.clock == clock
    && s.fields.delayLapsed == DELAY && !s.destroyed
  }

  lemma {:induction false} FairRest(n: nat)
    requires n >= 8
    ensures Resting(FairState(n), DELAY + n - 8) && Enabled(FairState(n), FairStep(n))
  {
    hide FairState;
    if n == 8 {
      FairStart();
    } else {
      FairRest(n - 1);
      FairNext(n - 1);
    }
  }

  lemma FairIsRun()
    ensures InfiniteRun(FairState, FairStep)
  {
    hide FairState, FairStep, Enabled, Next;
    FairZero();
    forall n: nat ensures Enabled(FairState(n), FairStep(n)) && FairState(n + 1) == Next(FairState(n), FairStep(n)) {
      if n < 8 {
        FairStart();
      } else {
        FairRest(n);
      }
      FairNext(n);
    }
  }

  /** In that run, a response before the delivery carries no header, and one after it reports two seconds. */
  lemma ResponsesOfFairRun()
    ensures Enabled(FairState(2), Respond) && Enabled(FairState(8), Respond)
    ensures Next(FairState(2), Respond).log == FairState(2).log + [Response(None)]
    ensures Next(FairState(8), Respond).log == FairState(8).log + [Response(Some(2_000_000_000))]
  {
    hide FairState;
    FairStart();
    FairZero();
    FairNext(0);
    FairNext(1);
  }

  lemma NothingStaysEnabled(l: Label, n: nat)
    requires Progress(l)
    ensures !EnabledFrom(FairState, l, n)
  {
    hide FairState;
    FairRest(n + 8);
    assert !Enabled(FairState(n + 8), l);
  }

  lemma TimePasses(t: int)
    ensures Passes(FairState, t)
  {
    hide FairState;
    var m := 8 + if t >= 0 then t else 0;
    FairRest(m);
    assert FairState(m).clock >= t;
  }

  /** Fair runs with a delayed stream exist. */
  lemma FairRunExists()
    ensures InfiniteRun(FairState, FairStep) && Fair(FairState, FairStep) && Delaying(FairState(1))
  {
    hide InfiniteRun, FairState, FairStep, EnabledFrom, Passes, Enabled, Progress;
    FairIsRun();
    FairStart();
    forall l, n: nat | Progress(l) ensures !EnabledFrom(FairState, l, n) {
      NothingStaysEnabled(l, n);
    }
    forall t: int ensures Passes(FairState, t) {
      TimePasses(t);
    }
  }

  // ---------------------------------------------------------------------------
  // Two more runs, written out
  // ---------------------------------------------------------------------------

  lemma OneStep(s: State, labels: seq<Label>, s': State)
    requires labels != [] && Enabled(s, labels[0]) && s' == Next(s, labels[0])
    ensures Schedule(s, labels) <==> Schedule(s', labels[1..])
    ensures Schedule(s, labels) ==> Execute(s, labels) == Execute(s', labels[1..])
  {
    hide Enabled, Next;
  }

  /** A stream without the header flows and is answered without the lapsed header. */
  lemma UndelayedRun()
    ensures var labels := [Request(false), Return, Respond, Destroy];
            && Schedule(Initial(5), labels)
            && Execute(Initial(5), labels).log ==
               [RequestHook(false, 5), Returned(Continue), Response(None), Destroyed]
  {
    var labels := [Request(false), Return, Respond, Destroy];
    var s1 := Next(Initial(5), labels[0]);
    var s2 := Next(s1, labels[1]);
    var s3 := Next(s2, labels[2]);
    var s4 := Next(s3, labels[3]);
    assert s4.log == [RequestHook(false, 5), Returned(Continue), Response(None), Destroyed];
    hide Enabled, Next;
    OneStep(s3, labels[3..], s4);
    OneStep(s2, labels[2..], s3);
    OneStep(s1, labels[1..], s2);
    OneStep(Initial(5), labels, s1);
  }

  const DESTROYED_EARLY := [Request(true), Start, Return, Destroy, Tick(2_000_000_000), Wake, Commit, Deliver, Close]

  const DESTROYED_EARLY_LOG :=
    [RequestHook(true, 5), Returned(StopIteration), Destroyed, Committed(0), Closed]

  /** A delayed stream that is destroyed during the sleep: the event is committed and dropped, the scheduler closed. */
  lemma DestroyedEarly()
    ensures Schedule(Initial(5), DESTROYED_EARLY)
    ensures Execute(Initial(5), DESTROYED_EARLY).log == DESTROYED_EARLY_LOG
  {
    var labels := DESTROYED_EARLY;
    var s1 := Next(Initial(5), labels[0]);
    var s2 := Next(s1, labels[1]);
    var s3 := Next(s2, labels[2]);
    var s4 := Next(s3, labels[3]);
    var s5 := Next(s4, labels[4]);
    var s6 := Next(s5, labels[5]);
    var s7 := Next(s6, labels[6]);
    var s8 := Next(s7, labels[7]);
    var s9 := Next(s8, labels[8]);
    assert s9.log == DESTROYED_EARLY_LOG;
    hide Enabled, Next;
    OneStep(s8, labels[8..], s9);
    OneStep(s7, labels[7..], s8);
    OneStep(s6, labels[6..], s7);
    OneStep(s5, labels[5..], s6);
    OneStep(s4, labels[4..], s5);
    OneStep(s3, labels[3..], s4);
    OneStep(s2, labels[2..], s3);
    OneStep(s1, labels[1..], s2);
    OneStep(Initial(5), labels, s1);
  }
}
