/**
 Envoy's store of headers: names compare without regard to case (section 5.1 of RFC 9110) and are kept in lower case.
 */
module HeaderStore {
  import opened Common
  import opened Headers

  function LowerChar(c: char): char {
    if 'A' <= c <= 'Z' then (c as int + 32) as char else c
  }

  function Lower(s: string): string {
    seq(|s|, i requires 0 <= i < |s| => LowerChar(s[i]))
  }

  predicate SameName(a: string, b: string) {
    Lower(a) == Lower(b)
  }

  predicate IsLower(s: string) {
    Lower(s) == s
  }

  predicate Normal(store: seq<Header>) {
    forall i :: 0 <= i < |store| ==> IsLower(store[i].name)
  }

  lemma LowerIsLower(s: string)
    ensures IsLower(Lower(s))
  {
    forall i | 0 <= i < |s| ensures LowerChar(LowerChar(s[i])) == LowerChar(s[i]) {}
  }

  /** The letters, written out; other characters stay. */
  lemma LowerLetters()
    ensures Lower("ABCDEFGHIJKLM") == "abcdefghijklm" && Lower("NOPQRSTUVWXYZ") == "nopqrstuvwxyz"
    ensures Lower("abcxyz019-_:@[`{") == "abcxyz019-_:@[`{"
  {}

  /** The value of the first header of a name, in any spelling. */
  function Get(store: seq<Header>, name: string): Option<string> {
    Lookup(store, Lower(name))
  }

  function Without(store: seq<Header>, lower: string): seq<Header> {
    if store == [] then []
    else
      var n := |store| - 1;
      Without(store[..n], lower) + if store[n].name == lower then [] else [store[n]]
  }

  /** A set replaces all values of the name. */
  function Set(store: seq<Header>, name: string, value: string): seq<Header> {
    Without(store, Lower(name)) + [Header(Lower(name), value)]
  }

  function Remove(store: seq<Header>, name: string): seq<Header> {
    Without(store, Lower(name))
  }

  lemma {:induction false} ValuesOfWithout(store: seq<Header>, lower: string, name: string)
    ensures ValuesOf(Without(store, lower), name) == if name == lower then [] else ValuesOf(store, name)
    decreases |store|
  {
    if store != [] {
      var n := |store| - 1;
      ValuesOfWithout(store[..n], lower, name);
      if store[n].name == lower {
        assert Without(store, lower) == Without(store[..n], lower);
      } else {
        ValuesOfLast(Without(store[..n], lower), store[n], name);
      }
    }
  }

  lemma ValuesOfSet(store: seq<Header>, name: string, value: string, other: string)
    ensures ValuesOf(Set(store, name, value), other) == if other == Lower(name) then [value] else ValuesOf(store, other)
  {
    ValuesOfWithout(store, Lower(name), other);
    ValuesOfLast(Without(store, Lower(name)), Header(Lower(name), value), other);
  }

  lemma LookupSet(store: seq<Header>, name: string, value: string, other: string)
    ensures Lookup(Set(store, name, value), other) == if other == Lower(name) then Some(value) else Lookup(store, other)
  {
    ValuesOfSet(store, name, value, other);
    FirstOfGroup(Set(store, name, value), other);
    FirstOfGroup(store, other);
  }

  /** A normal store has no header whose name is not in lower case. */
  lemma NotInStore(store: seq<Header>, name: string)
    requires Normal(store) && !IsLower(name)
    ensures !Has(store, name) && ValuesOf(store, name) == []
  {
    GroupNotEmpty(store, name);
  }
}
