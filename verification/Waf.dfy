/**
 The request body firewall. The regular expression is an arbitrary automaton folded over the bytes; the matcher pulls
 them through the scattered-chunk reader with buffers of arbitrary positive sizes, and may stop as soon as it is in a
 dead state.
 */
module Waf {
  import opened Chunks
  import opened RustBodyReader

  datatype Dfa<!Q> = Dfa(start: Q, step: (Q, Byte) -> Q, accept: Q -> bool, dead: Q -> bool)

  /** Nothing is accepted from a dead state on. */
  ghost predicate Sound<Q(!new)>(re: Dfa<Q>) {
    && (forall q :: re.dead(q) ==> !re.accept(q))
    && (forall q, b :: re.dead(q) ==> re.dead(re.step(q, b)))
  }

  function Run<Q>(re: Dfa<Q>, q: Q, s: seq<Byte>): Q {
    if s == [] then q else re.step(Run(re, q, s[..|s| - 1]), s[|s| - 1])
  }

  predicate Matches<Q>(re: Dfa<Q>, body: seq<Byte>) {
    re.accept(Run(re, re.start, body))
  }

  /** The states that the automaton goes through: from the start, one step for each byte in order, to acceptance. */
  ghost predicate AcceptingPath<Q>(re: Dfa<Q>, body: seq<Byte>, states: seq<Q>) {
    && |states| == |body| + 1 && states[0] == re.start
    && (forall i :: 0 <= i < |body| ==> states[i + 1] == re.step(states[i], body[i]))
    && re.accept(states[|body|])
  }

  ghost function States<Q>(re: Dfa<Q>, body: seq<Byte>): seq<Q> {
    seq(|body| + 1, i requires 0 <= i <= |body| => Run(re, re.start, body[..i]))
  }

  lemma {:induction false} PathIsRun<Q>(re: Dfa<Q>, body: seq<Byte>, states: seq<Q>, i: nat)
    requires AcceptingPath(re, body, states) && i <= |body|
    ensures states[i] == Run(re, re.start, body[..i])
    decreases i
  {
    if i > 0 {
      PathIsRun(re, body, states, i - 1);
      assert body[..i] == body[..i - 1] + [body[i - 1]];
      RunStep(re, re.start, body[..i - 1], body[i - 1]);
      assert states[i - 1 + 1] == re.step(states[i - 1], body[i - 1]);
    }
  }

  /** A body matches if and only if the automaton has an accepting path over its bytes. */
  lemma MatchesIffPath<Q(!new)>(re: Dfa<Q>, body: seq<Byte>)
    ensures Matches(re, body) <==> exists states :: AcceptingPath(re, body, states)
  {
    var states := States(re, body);
    forall i | 0 <= i < |body| ensures states[i + 1] == re.step(states[i], body[i]) {
      assert body[..i + 1] == body[..i] + [body[i]];
      RunStep(re, re.start, body[..i], body[i]);
    }
    assert body[..|body|] == body;
    if Matches(re, body) {
      assert AcceptingPath(re, body, states);
    }
    if path :| AcceptingPath(re, body, path) {
      PathIsRun(re, body, path, |body|);
    }
  }

  lemma RunStep<Q>(re: Dfa<Q>, q: Q, s: seq<Byte>, b: Byte)
    ensures Run(re, q, s + [b]) == re.step(Run(re, q, s), b)
  {
    assert (s + [b])[..|s|] == s;
  }

  lemma {:induction false} DeadAll<Q(!new)>(re: Dfa<Q>, q: Q, s: seq<Byte>, t: seq<Byte>)
    requires Sound(re) && re.dead(Run(re, q, s))
    ensures re.dead(Run(re, q, s + t))
    decreases |t|
  {
    if t == [] {
      assert s + t == s;
    } else {
      var n := |t| - 1;
      assert s + t == (s + t[..n]) + [t[n]];
      DeadAll(re, q, s, t[..n]);
      RunStep(re, q, s + t[..n], t[n]);
    }
  }

  lemma DeadStays<Q(!new)>(re: Dfa<Q>, q: Q, s: seq<Byte>, t: seq<Byte>)
    requires Sound(re) && re.dead(Run(re, q, s))
    ensures !re.accept(Run(re, q, s + t))
  {
    DeadAll(re, q, s, t);
  }

  lemma {:induction false} RunConcat<Q>(re: Dfa<Q>, q: Q, s: seq<Byte>, t: seq<Byte>)
    ensures Run(re, q, s + t) == Run(re, Run(re, q, s), t)
    decreases |t|
  {
    if t == [] {
      assert s + t == s;
    } else {
      var n := |t| - 1;
      assert s + t == (s + t[..n]) + [t[n]];
      RunConcat(re, q, s, t[..n]);
      RunStep(re, q, s + t[..n], t[n]);
    }
  }

  /** Feeds bytes to the automaton; stops early in a dead state. */
  method Advance<Q(!new)>(re: Dfa<Q>, start: Q, bytes: seq<Byte>) returns (q: Q, gaveUp: bool)
    requires Sound(re)
    ensures !gaveUp ==> q == Run(re, start, bytes)
    ensures gaveUp ==> re.dead(Run(re, start, bytes))
  {
    q := start;
    for i := 0 to |bytes|
      invariant q == Run(re, start, bytes[..i])
    {
      RunStep(re, start, bytes[..i], bytes[i]);
      assert bytes[..i + 1] == bytes[..i] + [bytes[i]];
      q := re.step(q, bytes[i]);
      if re.dead(q) {
        assert bytes == bytes[..i + 1] + bytes[i + 1..];
        DeadAll(re, start, bytes[..i + 1], bytes[i + 1..]);
        return q, true;
      }
    }
    assert bytes[..|bytes|] == bytes;
    gaveUp := false;
  }

  /** The verdict on what a reader has left is the verdict on the flat bytes, whatever the chunks and buffer sizes. */
  method ReadMatches<Q(!new)>(re: Dfa<Q>, r: BodyReader, size: nat -> nat) returns (matched: bool)
    requires Sound(re)
    requires r.Valid() && forall i :: size(i) > 0
    modifies r
    ensures matched == Matches(re, old(r.Rest()))
  {
    hide Suffix, Run, Sound;
    var q, gaveUp := re.start, false;
    ghost var seen: seq<Byte> := [];
    RunNothing(re, re.start);
    var calls, n := 0, 1;
    while n != 0
      invariant r.Valid()
      invariant old(r.Rest()) == seen + r.Rest()
      invariant q == Run(re, re.start, seen)
      invariant n == 0 ==> r.Rest() == []
      decreases n != 0, |r.Rest()|
    {
      var buf := new Byte[size(calls)];
      ghost var rest := r.Rest();
      n := r.Read(buf);
      SplitAt(rest, n);
      Delivered(old(r.Rest()), seen, rest, buf[..n], r.Rest());
      RunConcat(re, re.start, seen, buf[..n]);
      seen := seen + buf[..n];
      q, gaveUp := Advance(re, q, buf[..n]);
      if gaveUp {
        DeadStays(re, re.start, seen, r.Rest());
        return false;
      }
      calls := calls + 1;
    }
    assert old(r.Rest()) == seen;
    return re.accept(q);
  }

  lemma RunNothing<Q>(re: Dfa<Q>, q: Q)
    ensures Run(re, q, []) == q
  {}

  // ---------------------------------------------------------------------------
  // The filter in a stream
  // ---------------------------------------------------------------------------

  datatype Status = Continue | StopIterationAndBuffer | StopIterationNoBuffer

  datatype Outcome = Returned(status: Status) | Panicked

  datatype Reply = Reply(status: nat, body: string)

  const FORBIDDEN := Reply(403, "Access forbidden")

  /** One arrival of body data. `found` is what Envoy answers when asked for the body: there is one, or none. */
  datatype BodyEvent = BodyEvent(data: seq<seq<Byte>>, endOfStream: bool, found: bool)

  /** Envoy's side of one request: the body held back, the bytes sent on, the local replies. */
  class Stream {
    var buffered: seq<seq<Byte>>
    var forwarded: seq<Byte>
    var replies: seq<Reply>

    constructor ()
      ensures buffered == [] && forwarded == [] && replies == []
    {
      buffered, forwarded, replies := [], [], [];
    }

    method SendResponse(reply: Reply)
      modifies this`replies
      ensures replies == old(replies) + [reply]
    {
      replies := replies + [reply];
    }
  }

  class Filter<Q(!new)> {
    const re: Dfa<Q>

    constructor (re: Dfa<Q>)
      ensures this.re == re
    {
      this.re := re;
    }

    method OnRequestBody(envoy: Stream, endOfStream: bool, found: bool, size: nat -> nat) returns (r: Outcome)
      requires Sound(re) && forall i :: size(i) > 0
      modifies envoy`replies
      ensures !endOfStream ==> r == Returned(StopIterationAndBuffer) && envoy.replies == old(envoy.replies)
      ensures endOfStream && !found ==> r == Panicked && envoy.replies == old(envoy.replies)
      ensures endOfStream && found && Matches(re, Flat(envoy.buffered)) ==>
                && r == Returned(StopIterationNoBuffer)
                && envoy.replies == old(envoy.replies) + [Reply(403, "Access forbidden")]
      ensures endOfStream && found && !Matches(re, Flat(envoy.buffered)) ==>
                r == Returned(Continue) && envoy.replies == old(envoy.replies)
    {
      if !endOfStream {
        return Returned(StopIterationAndBuffer);
      }
      if !found {
        return Panicked;
      }
      var bodyReader := new BodyReader(envoy.buffered);
      var matched := ReadMatches(re, bodyReader, size);
      if matched {
        envoy.SendResponse(FORBIDDEN);
        return Returned(StopIterationNoBuffer);
      }
      return Returned(Continue);
    }
  }

  /** What Envoy does on one arrival: hold the data back, run the hook, and obey its status. */
  method Deliver<Q(!new)>(envoy: Stream, filter: Filter<Q>, ev: BodyEvent, size: nat -> nat) returns (r: Outcome)
    requires Sound(filter.re) && forall i :: size(i) > 0
    modifies envoy
    ensures var body := Flat(old(envoy.buffered) + ev.data);
            && (r == Panicked <==> ev.endOfStream && !ev.found)
            && envoy.forwarded ==
                 old(envoy.forwarded) + (if r == Returned(Continue) then body else [])
            && envoy.replies ==
                 old(envoy.replies) +
                 (if r == Returned(StopIterationNoBuffer) then [Reply(403, "Access forbidden")] else [])
            && (r == Returned(Continue) <==> ev.endOfStream && ev.found && !Matches(filter.re, body))
            && (r == Returned(StopIterationNoBuffer) <==> ev.endOfStream && ev.found && Matches(filter.re, body))
            && (r == Returned(StopIterationAndBuffer) <==> !ev.endOfStream)
            && (!ev.endOfStream ==> envoy.buffered == old(envoy.buffered) + ev.data)
  {
    envoy.buffered := envoy.buffered + ev.data;
    r := filter.OnRequestBody(envoy, ev.endOfStream, ev.found, size);
    match r
    case Returned(Continue) =>
      envoy.forwarded := envoy.forwarded + Flat(envoy.buffered);
      envoy.buffered := [];
    case Returned(StopIterationNoBuffer) =>
      envoy.buffered := [];
    case Returned(StopIterationAndBuffer) =>
    case Panicked =>
  }

  /** The chunks of a whole stream. */
  function Arrived(events: seq<BodyEvent>): seq<seq<Byte>> {
    if events == [] then [] else Arrived(events[..|events| - 1]) + events[|events| - 1].data
  }

  /** Only the last arrival may carry the end of the stream. */
  predicate OneEnd(events: seq<BodyEvent>) {
    forall i :: 0 <= i < |events| - 1 ==> !events[i].endOfStream
  }

  predicate Ended(events: seq<BodyEvent>) {
    events != [] && events[|events| - 1].endOfStream
  }

  /**
   A whole request: before the end of the stream nothing is forwarded and nothing is sent back. At the end either the
   whole body is forwarded unchanged, or exactly one 403 is sent and nothing is forwarded, and which of the two
   depends on the flat body only.
   */
  method Serve<Q(!new)>(filter: Filter<Q>, events: seq<BodyEvent>, size: nat -> nat)
    returns (forwarded: seq<Byte>, replies: seq<Reply>, panicked: bool)
    requires Sound(filter.re) && forall i :: size(i) > 0
    requires OneEnd(events)
    ensures var body := Flat(Arrived(events));
            && (panicked <==> Ended(events) && !events[|events| - 1].found)
            && (!Ended(events) || panicked ==> forwarded == [] && replies == [])
            && (Ended(events) && !panicked && Matches(filter.re, body) ==>
                  forwarded == [] && replies == [Reply(403, "Access forbidden")])
            && (Ended(events) && !panicked && !Matches(filter.re, body) ==> forwarded == body && replies == [])
  {
    var envoy := new Stream();
    panicked := false;
    for k := 0 to |events|
      invariant fresh(envoy)
      invariant !Ended(events[..k]) ==>
                  !panicked && envoy.forwarded == [] && envoy.replies == [] && envoy.buffered == Arrived(events[..k])
      invariant k == |events| && Ended(events) ==>
                  && panicked == !events[k - 1].found
                  && var body := Flat(Arrived(events));
                     envoy.forwarded == (if panicked || Matches(filter.re, body) then [] else body)
                     && envoy.replies == if !panicked && Matches(filter.re, body) then [FORBIDDEN] else []
    {
      assert !Ended(events[..k]);
      assert events[..k + 1][..k] == events[..k];
      if k + 1 == |events| {
        assert events[..k + 1] == events;
      }
      assert Arrived(events[..k + 1]) == Arrived(events[..k]) + events[k].data;
      var r := Deliver(envoy, filter, events[k], size);
      panicked := r == Panicked;
    }
    assert events[..|events|] == events;
    forwarded, replies := envoy.forwarded, envoy.replies;
  }
}
