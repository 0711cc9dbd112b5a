/** A body as Envoy hands it out: bytes scattered over chunks, some of which may be empty. */
module Chunks {
  import opened Common

  type Byte = bv8

  /** The bytes of a body, in order. */
  function Flat(chunks: seq<seq<Byte>>): seq<Byte> {
    if chunks == [] then [] else chunks[0] + Flat(chunks[1..])
  }

  function EmptyChunks(chunks: seq<seq<Byte>>): nat {
    if chunks == [] then 0 else (if chunks[0] == [] then 1 else 0) + EmptyChunks(chunks[1..])
  }

  /** The bytes from byte `offset` of chunk `index` on. */
  function Suffix(chunks: seq<seq<Byte>>, index: nat, offset: nat): seq<Byte>
    requires index < |chunks| ==> offset <= |chunks[index]|
  {
    if index < |chunks| then chunks[index][offset..] + Flat(chunks[index + 1..]) else []
  }

  lemma SuffixAtEnd(chunks: seq<seq<Byte>>, index: nat, offset: nat)
    requires index >= |chunks|
    ensures Suffix(chunks, index, offset) == []
  {}

  /** A position after the last byte of a chunk and the one before the first byte of the next chunk agree. */
  lemma SuffixAtBoundary(chunks: seq<seq<Byte>>, index: nat)
    requires index < |chunks|
    ensures Suffix(chunks, index, |chunks[index]|) == Suffix(chunks, index + 1, 0)
  {
    var tail := chunks[index + 1..];
    if tail != [] {
      assert tail[0] == chunks[index + 1] && tail[1..] == chunks[index + 2..];
    }
  }

  lemma SuffixAdvance(chunks: seq<seq<Byte>>, index: nat, offset: nat, n: nat)
    requires index < |chunks| && offset + n <= |chunks[index]|
    ensures Suffix(chunks, index, offset) == chunks[index][offset..offset + n] + Suffix(chunks, index, offset + n)
  {
    hide Flat;
    var moved, kept := chunks[index][offset..offset + n], chunks[index][offset + n..];
    assert chunks[index][offset..] == moved + kept;
    Reassociate(moved, kept, Flat(chunks[index + 1..]));
  }

  lemma EmptyChunksAfter(chunks: seq<seq<Byte>>, index: nat)
    requires index < |chunks|
    ensures EmptyChunks(chunks[index..]) ==
            (if chunks[index] == [] then 1 else 0) + EmptyChunks(chunks[index + 1..])
  {
    assert chunks[index..][1..] == chunks[index + 1..];
  }

  lemma {:induction false} FlatConcat(a: seq<seq<Byte>>, b: seq<seq<Byte>>)
    ensures Flat(a + b) == Flat(a) + Flat(b)
  {
    if a == [] {
      assert a + b == b;
    } else {
      FlatConcat(a[1..], b);
      assert (a + b)[1..] == a[1..] + b;
      Reassociate(a[0], Flat(a[1..]), Flat(b));
    }
  }

  /** Both languages' slice copy: `src` goes to `buf` from position `at` on. */
  method CopyInto(buf: array<Byte>, at: nat, src: seq<Byte>)
    requires at + |src| <= buf.Length
    modifies buf
    ensures buf[..at + |src|] == old(buf[..at]) + src
    ensures forall i :: at + |src| <= i < buf.Length ==> buf[i] == old(buf[i])
  {
    forall i | 0 <= i < |src| {
      buf[at + i] := src[i];
    }
  }

  lemma SplitAt(s: seq<Byte>, n: nat)
    requires n <= |s|
    ensures s == s[..n] + s[n..]
  {}

  lemma Delivered(whole: seq<Byte>, done: seq<Byte>, rest: seq<Byte>, moved: seq<Byte>, left: seq<Byte>)
    requires whole == done + rest && rest == moved + left
    ensures whole == done + moved + left
  {}
}

/** The Go SDK's `bodyReader`: each call copies from at most one chunk and may return no byte before the end. */
module GoBodyReader {
  import opened Chunks

  class BodyReader {
    const chunks: seq<seq<Byte>>
    var index: nat
    var offset: nat

    ghost predicate Valid()
      reads this
    {
      if index < |chunks| then offset <= |chunks[index]| else index == |chunks| && offset == 0
    }

    /** The bytes that have not been delivered yet. */
    ghost function Rest(): seq<Byte>
      requires Valid()
      reads this
    {
      Suffix(chunks, index, offset)
    }

    /** No chunk is left to move to, and the current one has been delivered. */
    ghost predicate Exhausted()
      requires Valid()
      reads this
    {
      index == |chunks| || (index == |chunks| - 1 && offset == |chunks[index]|)
    }

    /** The most calls with a non-empty buffer that do not report the end; one-byte buffers need all of them. */
    ghost function Fuel(): nat
      requires Valid()
      reads this
    {
      |Rest()| + if index < |chunks| then EmptyChunks(chunks[index + 1..]) else 0
    }

    constructor (chunks: seq<seq<Byte>>)
      ensures Valid() && this.chunks == chunks
      ensures Rest() == Flat(chunks)
      ensures Fuel() == |Flat(chunks)| + EmptyChunks(chunks) - if chunks != [] && chunks[0] == [] then 1 else 0
    {
      this.chunks := chunks;
      index, offset := 0, 0;
    }

    method Read(p: array<Byte>) returns (n: nat, eof: bool)
      requires Valid()
      modifies this, p
      ensures Valid()
      ensures n <= p.Length
      ensures old(Rest()) == p[..n] + Rest()
      ensures forall i :: n <= i < p.Length ==> p[i] == old(p[i])
      ensures eof <==> old(Exhausted())
      ensures eof ==> n == 0 && old(Rest()) == [] && Exhausted()
      ensures !eof && p.Length > 0 ==> Fuel() < old(Fuel())
      ensures !eof && p.Length == 1 ==> Fuel() == old(Fuel()) - 1
    {
      hide Suffix, Flat, EmptyChunks;
      if index >= |chunks| {
        SuffixAtEnd(chunks, index, offset);
        return 0, true;
      }
      var chunk := chunks[index];
      if offset >= |chunk| {
        SuffixAtBoundary(chunks, index);
        index := index + 1;
        offset := 0;
        if index >= |chunks| {
          SuffixAtEnd(chunks, index, offset);
          return 0, true;
        }
        EmptyChunksAfter(chunks, index);
        chunk := chunks[index];
      }
      n := if p.Length < |chunk| - offset then p.Length else |chunk| - offset;
      CopyInto(p, 0, chunk[offset..offset + n]);
      SuffixAdvance(chunks, index, offset, n);
      offset := offset + n;
      eof := false;
    }
  }

  /** What `io.ReadAll` does: read into buffers of some positive sizes until the end is reported. */
  method ReadAll(r: BodyReader, size: nat -> nat) returns (all: seq<Byte>, calls: nat)
    requires r.Valid() && forall i :: size(i) > 0
    modifies r
    ensures r.Valid() && r.Exhausted()
    ensures all == old(r.Rest())
    ensures calls <= old(r.Fuel()) + 1
    ensures (forall i :: size(i) == 1) ==> calls == old(r.Fuel()) + 1
  {
    all, calls := [], 0;
    var eof := false;
    while !eof
      invariant r.Valid()
      invariant all + r.Rest() == old(r.Rest())
      invariant eof ==> r.Rest() == [] && r.Exhausted()
      invariant calls + r.Fuel() <= old(r.Fuel()) + if eof then 1 else 0
      invariant (forall i :: size(i) == 1) ==> calls + r.Fuel() == old(r.Fuel()) + if eof then 1 else 0
      decreases !eof, r.Fuel()
    {
      var p := new Byte[size(calls)];
      var n;
      ghost var rest := r.Rest();
      n, eof := r.Read(p);
      Delivered(old(r.Rest()), all, rest, p[..n], r.Rest());
      all := all + p[..n];
      calls := calls + 1;
    }
  }
}

/** The WAF's `BodyReader`: each call fills the buffer unless the body ends. */
module RustBodyReader {
  import opened Chunks

  function Min(a: nat, b: nat): nat {
    if a < b then a else b
  }

  class BodyReader {
    const data: seq<seq<Byte>>
    var vecIdx: nat
    var bufIdx: nat

    /** In particular `bufIdx` never exceeds the length of its chunk, so the subtraction in `Read` cannot underflow. */
    ghost predicate Valid()
      reads this
    {
      if vecIdx < |data| then bufIdx <= |data[vecIdx]| else vecIdx == |data| && bufIdx == 0
    }

    ghost function Rest(): seq<Byte>
      requires Valid()
      reads this
    {
      Suffix(data, vecIdx, bufIdx)
    }

    constructor (data: seq<seq<Byte>>)
      ensures Valid() && this.data == data
      ensures Rest() == Flat(data)
    {
      this.data := data;
      vecIdx, bufIdx := 0, 0;
    }

    method Read(buf: array<Byte>) returns (n: nat)
      requires Valid()
      modifies this, buf
      ensures Valid()
      ensures n == if buf.Length <= |old(Rest())| then buf.Length else |old(Rest())|
      ensures buf[..n] == old(Rest())[..n]
      ensures Rest() == old(Rest())[n..]
      ensures forall i :: n <= i < buf.Length ==> buf[i] == old(buf[i])
    {
      hide Suffix, Flat;
      n := 0;
      if vecIdx >= |data| {
        SuffixAtEnd(data, vecIdx, bufIdx);
        return;
      }
      while n < buf.Length && vecIdx < |data|
        invariant Valid() && n <= buf.Length
        invariant old(Rest()) == buf[..n] + Rest()
        invariant forall i :: n <= i < buf.Length ==> buf[i] == old(buf[i])
        decreases |Rest()| + |data| - vecIdx
      {
        var slice := data[vecIdx];
        var remaining := |slice| - bufIdx;
        var toCopy := Min(remaining, buf.Length - n);
        ghost var done, rest := buf[..n], Rest();
        CopyInto(buf, n, slice[bufIdx..bufIdx + toCopy]);
        SuffixAdvance(data, vecIdx, bufIdx, toCopy);
        Delivered(old(Rest()), done, rest, slice[bufIdx..bufIdx + toCopy], Suffix(data, vecIdx, bufIdx + toCopy));
        n := n + toCopy;
        bufIdx := bufIdx + toCopy;
        if bufIdx >= |slice| {
          SuffixAtBoundary(data, vecIdx);
          vecIdx := vecIdx + 1;
          bufIdx := 0;
        }
      }
      if n < buf.Length {
        SuffixAtEnd(data, vecIdx, bufIdx);
      }
    }
  }

  /** Reading into buffers of some positive sizes until a read returns nothing. */
  method ReadToEnd(r: BodyReader, size: nat -> nat) returns (all: seq<Byte>, calls: nat)
    requires r.Valid() && forall i :: size(i) > 0
    modifies r
    ensures r.Valid() && r.Rest() == []
    ensures all == old(r.Rest())
    ensures calls <= |old(r.Rest())| + 1
  {
    hide Suffix;
    all, calls := [], 0;
    var n := 1;
    while n != 0
      invariant r.Valid()
      invariant all + r.Rest() == old(r.Rest())
      invariant n == 0 ==> r.Rest() == []
      invariant calls + |r.Rest()| <= |old(r.Rest())| + if n == 0 then 1 else 0
      decreases n != 0, |r.Rest()|
    {
      var buf := new Byte[size(calls)];
      ghost var rest := r.Rest();
      n := r.Read(buf);
      SplitAt(rest, n);
      Delivered(old(r.Rest()), all, rest, buf[..n], r.Rest());
      all := all + buf[..n];
      calls := calls + 1;
    }
  }
}

/** The two readers, side by side. */
module SameStream {
  import opened Chunks
  import Go = GoBodyReader
  import Rust = RustBodyReader

  /** For every chunking and every two schedules of buffer sizes both readers deliver the same bytes. */
  method ReadBoth(chunks: seq<seq<Byte>>, goSize: nat -> nat, rustSize: nat -> nat)
    returns (go: seq<Byte>, goCalls: nat, rust: seq<Byte>, rustCalls: nat)
    requires forall i :: goSize(i) > 0 && rustSize(i) > 0
    ensures go == rust == Flat(chunks)
    ensures goCalls <= |Flat(chunks)| + EmptyChunks(chunks) + 1
    ensures rustCalls <= |Flat(chunks)| + 1
  {
    var g := new Go.BodyReader(chunks);
    go, goCalls := Go.ReadAll(g, goSize);
    var r := new Rust.BodyReader(chunks);
    rust, rustCalls := Rust.ReadToEnd(r, rustSize);
  }
}
