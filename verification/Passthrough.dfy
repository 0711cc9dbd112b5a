/**
 The passthrough filter rewrites a body to "hello world", reads that back, and writes the original back. Envoy's body
 is known by its contract only: `Drain` drops a prefix, `Append` adds a suffix, each invalidates the readers made
 before it, and the bytes may sit in any chunks whenever they are asked for.
 */
module Passthrough {
  import opened Chunks
  import opened Common
  import Go = GoBodyReader

  datatype Change = Drained(n: nat) | Appended(data: seq<Byte>)

  class EnvoyBody {
    var bytes: seq<Byte>
    /** What has been done to the body; a reader is usable while nothing has been done since it was made. */
    var changes: seq<Change>
    /** Envoy's answer when asked for the body: no body, or some chunks. */
    const answer: (seq<Byte>, nat) -> Option<seq<seq<Byte>>>

    function Version(): nat
      reads this`changes
    {
      |changes|
    }

    /** The chunks hold the body, and a body that has bytes is found. */
    ghost predicate Lawful() {
      forall s, v ::
        match answer(s, v)
        case None => s == []
        case Some(chunks) => Flat(chunks) == s
    }

    constructor (answer: (seq<Byte>, nat) -> Option<seq<seq<Byte>>>)
      ensures bytes == [] && changes == [] && this.answer == answer
    {
      this.answer := answer;
      bytes, changes := [], [];
    }

    method Drain(n: nat)
      modifies this
      ensures bytes == if n <= |old(bytes)| then old(bytes)[n..] else []
      ensures changes == old(changes) + [Drained(n)]
    {
      bytes, changes := if n <= |bytes| then bytes[n..] else [], changes + [Drained(n)];
    }

    method Append(data: seq<Byte>)
      modifies this
      ensures bytes == old(bytes) + data
      ensures changes == old(changes) + [Appended(data)]
    {
      bytes, changes := bytes + data, changes + [Appended(data)];
    }

    /** The answer at some version, with the pointer to the first chunk taken before it is used. */
    ghost function Fetch(s: seq<Byte>, v: nat): FetchStatus {
      match answer(s, v)
      case None => NotFound
      case Some(chunks) => if chunks == [] then OutOfRange else Found
    }

    lemma NonEmptyIsFound(s: seq<Byte>, v: nat)
      requires Lawful() && s != []
      ensures Fetch(s, v) == Found
    {
      assert match answer(s, v)
             case None => s == []
             case Some(chunks) => Flat(chunks) == s;
    }

    method GetBody() returns (r: Fetched)
      requires Lawful()
      ensures match r
              case NoReader(status) => status == Fetch(bytes, Version()) && !status.Found?
              case Reader(body) =>
                && Fetch(bytes, Version()) == Found
                && fresh(body.reader) && body.reader.Valid()
                && body.source == this && body.made == Version()
                && body.reader.Rest() == bytes
    {
      match answer(bytes, Version())
      case None => return NoReader(NotFound);
      case Some(chunks) =>
        if chunks == [] {
          return NoReader(OutOfRange);
        }
        var reader := new Go.BodyReader(chunks);
        return Reader(View(reader, this, Version()));
    }
  }

  datatype FetchStatus = NotFound | OutOfRange | Found

  /** A reader, the body it reads from, and the version it was made at. */
  datatype View = View(reader: Go.BodyReader, source: EnvoyBody, made: nat)

  datatype Fetched = NoReader(status: FetchStatus) | Reader(body: View) {
    function Status(): FetchStatus {
      if Reader? then Found else status
    }
  }

  /** Reads a body to its end. The body must not have changed since the reader was made. */
  method ReadAll(v: View, size: nat -> nat) returns (all: seq<Byte>)
    requires v.made == v.source.Version()
    requires v.reader.Valid() && forall i :: size(i) > 0
    modifies v.reader
    ensures all == old(v.reader.Rest())
  {
    var calls;
    all, calls := Go.ReadAll(v.reader, size);
  }

  const HELLO_WORLD: seq<Byte> := [0x68, 0x65, 0x6c, 0x6c, 0x6f, 0x20, 0x77, 0x6f, 0x72, 0x6c, 0x64]

  datatype Status = Continue | StopIterationAndBuffer

  datatype Panic = BodyNotSet | IndexOutOfRange | NotModified

  datatype Outcome = Returned(status: Status) | Panicked(why: Panic)

  function PanicOf(status: FetchStatus): Panic {
    if status.NotFound? then BodyNotSet else IndexOutOfRange
  }

  /** The outcome for an empty body, from Envoy's first and last answers. */
  function OnEmptyBody(first: FetchStatus, last: FetchStatus): Outcome {
    if !first.Found? then Panicked(PanicOf(first))
    else if !last.Found? then Panicked(PanicOf(last))
    else Returned(Continue)
  }

  /** One rewrite, as the hook does it twice: drain all, append, fetch again and read back. */
  method Rewrite(e: EnvoyBody, from: seq<Byte>, to: seq<Byte>, size: nat -> nat)
    returns (status: FetchStatus, readBack: seq<Byte>)
    requires e.Lawful() && e.bytes == from && forall i :: size(i) > 0
    modifies e
    ensures e.bytes == to && e.changes == old(e.changes) + [Drained(|from|), Appended(to)]
    ensures status == e.Fetch(to, old(e.Version()) + 2)
    ensures status.Found? ==> readBack == to
  {
    hide Flat, Suffix, EnvoyBody.Lawful, EnvoyBody.Fetch;
    e.Drain(|from|);
    e.Append(to);
    assert e.bytes == to;
    var fetched := e.GetBody();
    status, readBack := fetched.Status(), [];
    if fetched.Reader? {
      readBack := ReadAll(fetched.body, size);
    }
  }

  /**
   The body hook (the request's and the response's are the same code). At the end of the stream the bytes are what
   they were, whatever happens; a body that has bytes is never met with a panic; and the hook panics exactly if the
   body is empty and Envoy answers the first or the last of the three fetches with no body or no chunk.
   */
  method OnBody(e: EnvoyBody, endOfStream: bool, size: nat -> nat) returns (r: Outcome)
    requires e.Lawful() && forall i :: size(i) > 0
    modifies e
    ensures e.bytes == old(e.bytes)
    ensures !endOfStream ==> r == Returned(StopIterationAndBuffer) && e.changes == old(e.changes)
    ensures endOfStream && e.bytes != [] ==> r == Returned(Continue)
    ensures endOfStream && (e.bytes != [] || r == Returned(Continue)) ==>
              e.changes == old(e.changes) +
                           [Drained(|old(e.bytes)|), Appended(HELLO_WORLD), Drained(11), Appended(old(e.bytes))]
    ensures endOfStream && e.bytes == [] ==>
              r == OnEmptyBody(e.Fetch([], old(e.Version())), e.Fetch([], old(e.Version()) + 4))
  {
    if !endOfStream {
      return Returned(StopIterationAndBuffer);
    }
    hide Flat, Suffix, EnvoyBody.Lawful, EnvoyBody.Fetch;
    if e.bytes != [] {
      e.NonEmptyIsFound(e.bytes, e.Version());
      e.NonEmptyIsFound(e.bytes, e.Version() + 4);
    }
    e.NonEmptyIsFound(HELLO_WORLD, e.Version() + 2);
    var fetched := e.GetBody();
    if fetched.NoReader? {
      return Panicked(PanicOf(fetched.status));
    }
    var original := ReadAll(fetched.body, size);
    var status, modified := Rewrite(e, original, HELLO_WORLD, size);
    if !status.Found? {
      return Panicked(PanicOf(status));
    }
    if modified != HELLO_WORLD {
      return Panicked(NotModified);
    }
    status, modified := Rewrite(e, modified, original, size);
    if !status.Found? {
      return Panicked(PanicOf(status));
    }
    if modified != original {
      return Panicked(NotModified);
    }
    return Returned(Continue);
  }

  /**
   A whole stream, its last arrival carrying the end: everything is held back until the end, and a stream that has
   bytes is then forwarded unchanged, without a panic.
   */
  method Serve(e: EnvoyBody, events: seq<seq<Byte>>, size: nat -> nat) returns (forwarded: seq<Byte>, r: Outcome)
    requires e.Lawful() && e.bytes == [] && forall i :: size(i) > 0
    requires events != []
    modifies e
    ensures Flat(events) != [] ==> r == Returned(Continue)
    ensures forwarded == if r == Returned(Continue) then Flat(events) else []
  {
    forwarded, r := [], Returned(StopIterationAndBuffer);
    for k := 0 to |events|
      invariant e.bytes == Flat(events[..k])
      invariant k < |events| ==> forwarded == [] && r == Returned(StopIterationAndBuffer)
      invariant k == |events| ==> forwarded == if r == Returned(Continue) then e.bytes else []
      invariant k == |events| && e.bytes != [] ==> r == Returned(Continue)
    {
      FlatConcat(events[..k], [events[k]]);
      assert events[..k + 1] == events[..k] + [events[k]];
      assert Flat([events[k]]) == events[k] + Flat([]);
      e.Append(events[k]);
      r := OnBody(e, k + 1 == |events|, size);
      if r == Returned(Continue) {
        forwarded := forwarded + e.bytes;
      }
    }
    assert events[..|events|] == events;
  }

  /** With chunks that vanish together with the bytes, an empty body makes the hook panic on its first fetch. */
  method EmptyBodyPanics(size: nat -> nat) returns (r: Outcome)
    requires forall i :: size(i) > 0
    ensures r == Panicked(IndexOutOfRange)
  {
    var e := new EnvoyBody((s: seq<Byte>, _: nat) => Some(if s == [] then [] else [s]));
    forall s: seq<Byte> ensures Flat([s]) == s {
      assert Flat([s]) == s + Flat([]);
    }
    r := OnBody(e, true, size);
  }

  /** With a body that is not found when it has no bytes, the hook panics for that reason. */
  method MissingBodyPanics(size: nat -> nat) returns (r: Outcome)
    requires forall i :: size(i) > 0
    ensures r == Panicked(BodyNotSet)
  {
    var e := new EnvoyBody((s: seq<Byte>, _: nat) => if s == [] then None else Some([s]));
    forall s: seq<Byte> ensures Flat([s]) == s {
      assert Flat([s]) == s + Flat([]);
    }
    r := OnBody(e, true, size);
  }

  lemma HelloWorldSpelled()
    ensures |HELLO_WORLD| == |"hello world"| == 11
    ensures forall i :: 0 <= i < 11 ==> HELLO_WORLD[i] as int == "hello world"[i] as int
  {}
}
