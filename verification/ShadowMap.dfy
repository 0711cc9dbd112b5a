/**
 The script filter's map beside Envoy's store. The map starts as the first value of each header; a set through the
 filter goes to both. The map keeps every spelling of a name apart, the store does not.
 */
module ShadowMap {
  import opened Common
  import opened Headers
  import opened HeaderStore

  /** The map's value, or the empty string for a missing key. */
  function Read(shadow: map<string, string>, key: string): string {
    if key in shadow then shadow[key] else ""
  }

  /** What a get should return: Envoy's first value, or the empty string. */
  function Current(store: seq<Header>, key: string): string {
    match Get(store, key)
    case Some(v) => v
    case None => ""
  }

  /** A set of a header: the name in the script's spelling, and the value. */
  type Pair = (string, string)

  /** The store after some sets, as Envoy's contract has it. */
  function StoreAfter(store: seq<Header>, sets: seq<Pair>): seq<Header> {
    if sets == [] then store
    else
      var n := |sets| - 1;
      Set(StoreAfter(store, sets[..n]), sets[n].0, sets[n].1)
  }

  /** The filter's map after the same sets: it keeps every spelling apart. */
  function ShadowAfter(shadow: map<string, string>, sets: seq<Pair>): map<string, string> {
    if sets == [] then shadow
    else
      var n := |sets| - 1;
      ShadowAfter(shadow, sets[..n])[sets[n].0 := sets[n].1]
  }

  /** The spelling used by the last set of a name. */
  function LastSpelling(sets: seq<Pair>, key: string): Option<string> {
    if sets == [] then None
    else
      var n := |sets| - 1;
      if SameName(sets[n].0, key) then Some(sets[n].0) else LastSpelling(sets[..n], key)
  }

  /** The spelling is the one of the last set of the name, or the lower case if there was no set. */
  predicate Spelled(sets: seq<Pair>, key: string) {
    match LastSpelling(sets, key)
    case Some(spelling) => spelling == key
    case None => IsLower(key)
  }

  /** In the right spelling a get returns Envoy's value after any sets. */
  lemma {:induction false} SpelledIsRight(store: seq<Header>, first: map<string, string>, sets: seq<Pair>, key: string)
    requires FirstValues(store, first) && Spelled(sets, key)
    ensures Read(ShadowAfter(first, sets), key) == Current(StoreAfter(store, sets), key)
    decreases |sets|
  {
    hide Set, Lower;
    if sets == [] {
      FirstOfGroup(store, key);
      GroupNotEmpty(store, key);
    } else {
      var n := |sets| - 1;
      LookupSet(StoreAfter(store, sets[..n]), sets[n].0, sets[n].1, Lower(key));
      if !SameName(sets[n].0, key) {
        SpelledIsRight(store, first, sets[..n], key);
      }
    }
  }

  predicate SameNames(sets: seq<Pair>, sets': seq<Pair>) {
    |sets| == |sets'| && forall i :: 0 <= i < |sets| ==> sets[i].0 == sets'[i].0
  }

  /** After sets of these names a get is right, whatever the values and whatever the initial headers. */
  ghost predicate AlwaysRight(sets: seq<Pair>, key: string) {
    forall store, first, sets' ::
      Normal(store) && FirstValues(store, first) && SameNames(sets, sets') ==>
        Read(ShadowAfter(first, sets'), key) == Current(StoreAfter(store, sets'), key)
  }

  lemma {:induction false} SameNamesSameSpelling(sets: seq<Pair>, sets': seq<Pair>, key: string)
    requires SameNames(sets, sets')
    ensures LastSpelling(sets, key) == LastSpelling(sets', key)
    decreases |sets|
  {
    if sets != [] {
      var n := |sets| - 1;
      assert sets[n].0 == sets'[n].0;
      SameNamesSameSpelling(sets[..n], sets'[..n], key);
    }
  }

  /** Without a set of the name in any spelling, neither side has changed its view of it. */
  lemma {:induction false} NeverSet(store: seq<Header>, first: map<string, string>, sets: seq<Pair>, key: string)
    requires LastSpelling(sets, key).None?
    ensures Read(ShadowAfter(first, sets), key) == Read(first, key)
    ensures Current(StoreAfter(store, sets), key) == Current(store, key)
    decreases |sets|
  {
    hide Set, Lower;
    if sets != [] {
      var n := |sets| - 1;
      NeverSet(store, first, sets[..n], key);
      LookupSet(StoreAfter(store, sets[..n]), sets[n].0, sets[n].1, Lower(key));
    }
  }

  /** One header of a name, and the map filled from it. */
  lemma OneHeader(name: string, value: string)
    requires IsLower(name)
    ensures Normal([Header(name, value)]) && FirstValues([Header(name, value)], map[name := value])
    ensures Lookup([Header(name, value)], name) == Some(value)
  {
    var store := [Header(name, value)];
    assert store[0].name == name;
    forall other ensures Has(store, other) <==> other == name {}
  }

  /** If the name was never set and is not in lower case, the script is told that a header Envoy has is missing. */
  lemma MissedUnlessLower(sets: seq<Pair>, key: string)
    requires LastSpelling(sets, key).None? && !IsLower(key)
    ensures !AlwaysRight(sets, key)
  {
    LowerIsLower(key);
    OneHeader(Lower(key), "x");
    var store, first := [Header(Lower(key), "x")], map[Lower(key) := "x"];
    NeverSet(store, first, sets, key);
    assert SameNames(sets, sets);
  }

  /** If the name was last set in another spelling, some values make the script read a stale one. */
  lemma {:induction false} StaleUnlessSpelled(store: seq<Header>, first: map<string, string>, sets: seq<Pair>,
                                              key: string)
    returns (sets': seq<Pair>)
    requires LastSpelling(sets, key).Some? && LastSpelling(sets, key) != Some(key)
    ensures SameNames(sets, sets')
    ensures Read(ShadowAfter(first, sets'), key) != Current(StoreAfter(store, sets'), key)
    decreases |sets|
  {
    hide Set, Lower;
    var n := |sets| - 1;
    var prefix := sets[..n];
    if SameName(sets[n].0, key) {
      sets' := prefix + [(sets[n].0, Read(ShadowAfter(first, prefix), key) + "x")];
    } else {
      prefix := StaleUnlessSpelled(store, first, prefix, key);
      sets' := prefix + [sets[n]];
    }
    assert sets'[..n] == prefix;
    LookupSet(StoreAfter(store, sets'[..n]), sets'[n].0, sets'[n].1, Lower(key));
  }

  /**
   After sets of given names, a get is right for all values and all initial headers if and only if it uses the spelling
   of the last set of the name, or the lower case if there was none.
   */
  lemma SpellingDecides(sets: seq<Pair>, key: string)
    ensures AlwaysRight(sets, key) <==> Spelled(sets, key)
  {
    if Spelled(sets, key) {
      forall store, first, sets' | Normal(store) && FirstValues(store, first) && SameNames(sets, sets')
        ensures Read(ShadowAfter(first, sets'), key) == Current(StoreAfter(store, sets'), key)
      {
        SameNamesSameSpelling(sets, sets', key);
        SpelledIsRight(store, first, sets', key);
      }
    } else if LastSpelling(sets, key).None? {
      MissedUnlessLower(sets, key);
    } else {
      LowerIsLower(key);
      OneHeader(Lower(key), "x");
      var store, first := [Header(Lower(key), "x")], map[Lower(key) := "x"];
      var sets' := StaleUnlessSpelled(store, first, sets, key);
      assert Normal(store) && FirstValues(store, first) && SameNames(sets, sets');
    }
  }

  /** A script that keeps to lower case always spells right. */
  lemma {:induction false} LowerCaseIsSpelled(sets: seq<Pair>, key: string)
    requires IsLower(key) && forall i :: 0 <= i < |sets| ==> IsLower(sets[i].0)
    ensures Spelled(sets, key)
    decreases |sets|
  {
    if sets != [] {
      LowerCaseIsSpelled(sets[..|sets| - 1], key);
    }
  }

  /**
   On a fresh snapshot a get in any spelling returns Envoy's value if and only if the spelling is in lower case, or
   Envoy has no value or an empty one for the name.
   */
  lemma FreshGetRightIff(store: seq<Header>, shadow: map<string, string>, key: string)
    requires Normal(store) && FirstValues(store, shadow)
    ensures Read(shadow, key) == Current(store, key) <==> IsLower(key) || Current(store, key) == ""
  {
    if IsLower(key) {
      SpelledIsRight(store, shadow, [], key);
    } else {
      NotInStore(store, key);
      assert key !in shadow;
    }
  }

  /** With a name in upper case a get misses a header, and a set leaves a stale value under the lower-case name. */
  lemma UpperCaseGoesWrong()
    ensures var store, first := [Header("a", "1")], map["a" := "1"];
            && Normal(store) && FirstValues(store, first)
            && Read(first, "A") == "" && Current(store, "A") == "1"
            && Read(ShadowAfter(first, [("A", "2")]), "a") == "1"
            && Current(StoreAfter(store, [("A", "2")]), "a") == "2"
  {
    var store, first, set_ := [Header("a", "1")], map["a" := "1"], ("A", "2");
    assert Lower("a") == "a" && Lower("A") == "a" by {
      assert |Lower("a")| == |Lower("A")| == 1;
    }
    OneHeader("a", "1");
    LookupSet(store, "A", "2", "a");
    assert [set_][..0] == [];
    assert StoreAfter(store, [set_]) == Set(store, "A", "2");
  }

  // ---------------------------------------------------------------------------
  // Sets one after the other
  // ---------------------------------------------------------------------------

  lemma AfterLast(store: seq<Header>, first: map<string, string>, sets: seq<Pair>, pair: Pair)
    ensures StoreAfter(store, sets + [pair]) == Set(StoreAfter(store, sets), pair.0, pair.1)
    ensures ShadowAfter(first, sets + [pair]) == ShadowAfter(first, sets)[pair.0 := pair.1]
  {
    assert (sets + [pair])[..|sets|] == sets;
  }

  lemma AfterBothStep(store: seq<Header>, first: map<string, string>, sets: seq<Pair>, init: seq<Pair>, last: Pair)
    requires StoreAfter(store, sets + init) == StoreAfter(StoreAfter(store, sets), init)
    requires ShadowAfter(first, sets + init) == ShadowAfter(ShadowAfter(first, sets), init)
    ensures StoreAfter(store, sets + (init + [last])) == StoreAfter(StoreAfter(store, sets), init + [last])
    ensures ShadowAfter(first, sets + (init + [last])) == ShadowAfter(ShadowAfter(first, sets), init + [last])
  {
    hide StoreAfter, ShadowAfter, Set;
    Reassociate(sets, init, [last]);
    AfterLast(store, first, sets + init, last);
    AfterLast(StoreAfter(store, sets), ShadowAfter(first, sets), init, last);
  }

  lemma {:induction false} AfterBoth(store: seq<Header>, first: map<string, string>, sets: seq<Pair>, more: seq<Pair>)
    ensures StoreAfter(store, sets + more) == StoreAfter(StoreAfter(store, sets), more)
    ensures ShadowAfter(first, sets + more) == ShadowAfter(ShadowAfter(first, sets), more)
    decreases |more|
  {
    if more == [] {
      assert sets + more == sets;
    } else {
      hide StoreAfter, ShadowAfter, Set;
      var init, last := more[..|more| - 1], more[|more| - 1];
      assert more == init + [last];
      AfterBoth(store, first, sets, init);
      AfterBothStep(store, first, sets, init, last);
    }
  }

  /** Sets of these names leave the map and Envoy's values as they were, whatever the values and the headers are. */
  ghost predicate AlwaysUnchanged(sets: seq<Pair>) {
    forall store, shadow, sets' :: SameNames(sets, sets') ==> Unchanged(store, shadow, sets')
  }

  ghost predicate Unchanged(store: seq<Header>, shadow: map<string, string>, sets: seq<Pair>) {
    && ShadowAfter(shadow, sets) == shadow
    && forall key :: Current(StoreAfter(store, sets), key) == Current(store, key)
  }

  /** On any map and any store, some values of at least one set change both sides. */
  lemma SetsChangeBoth(store: seq<Header>, shadow: map<string, string>, sets: seq<Pair>) returns (sets': seq<Pair>)
    requires sets != []
    ensures SameNames(sets, sets')
    ensures ShadowAfter(shadow, sets') != shadow
    ensures exists key :: Current(StoreAfter(store, sets'), key) != Current(store, key)
  {
    hide Set, StoreAfter, ShadowAfter, Lower;
    var n := |sets| - 1;
    var name := sets[n].0;
    var value := Read(shadow, name) + Current(store, name) + "x";
    sets' := sets[..n] + [(name, value)];
    AfterLast(store, shadow, sets[..n], (name, value));
    LookupSet(StoreAfter(store, sets[..n]), name, value, Lower(name));
    assert Read(ShadowAfter(shadow, sets'), name) == value != Read(shadow, name);
    assert Current(StoreAfter(store, sets'), name) == value != Current(store, name);
  }

  lemma NoSetsNoChange(store: seq<Header>, shadow: map<string, string>)
    ensures Unchanged(store, shadow, [])
  {}

  /** Map and store are unchanged for all values if and only if nothing is set. */
  lemma UnchangedIffNoSet(sets: seq<Pair>)
    ensures AlwaysUnchanged(sets) <==> sets == []
  {
    hide Unchanged;
    if sets == [] {
      forall store, shadow, sets' | SameNames(sets, sets') ensures Unchanged(store, shadow, sets') {
        assert sets' == [];
        NoSetsNoChange(store, shadow);
      }
    } else {
      var sets' := SetsChangeBoth([], map[], sets);
      assert !Unchanged([], map[], sets') by {
        ChangedShadow([], map[], sets');
      }
    }
  }

  lemma ChangedShadow(store: seq<Header>, shadow: map<string, string>, sets: seq<Pair>)
    requires ShadowAfter(shadow, sets) != shadow
    ensures !Unchanged(store, shadow, sets)
  {}
}
