/**
 Header lists as Envoy hands them out, and the Go SDK's view of them: the values grouped by name.
 */
module Headers {
  import opened Common

  datatype Header = Header(name: string, value: string)

  /** The values of one name, in list order. */
  function ValuesOf(raw: seq<Header>, name: string): seq<string> {
    if raw == [] then []
    else
      var n := |raw| - 1;
      ValuesOf(raw[..n], name) + if raw[n].name == name then [raw[n].value] else []
  }

  predicate Has(raw: seq<Header>, name: string) {
    exists i :: 0 <= i < |raw| && raw[i].name == name
  }

  /** The lookup of a name at index 0, as Envoy answers it: the value of its first header. */
  function Lookup(raw: seq<Header>, name: string): Option<string> {
    if raw == [] then None
    else if raw[0].name == name then Some(raw[0].value)
    else Lookup(raw[1..], name)
  }

  function Names(raw: seq<Header>): seq<string> {
    seq(|raw|, i requires 0 <= i < |raw| => raw[i].name)
  }

  /** A group is stable: its values are those at increasing positions of its name. */
  lemma GroupIsStable(raw: seq<Header>, name: string)
    ensures var p, vs := Positions(Names(raw), name), ValuesOf(raw, name);
            && Increasing(p) && |p| == |vs|
            && (forall k :: 0 <= k < |p| ==> p[k] < |raw| && raw[p[k]] == Header(name, vs[k]))
  {
    PositionsHold(Names(raw), name);
    ValuesInOrder(raw, name);
  }

  lemma {:induction false} ValuesInOrder(raw: seq<Header>, name: string)
    ensures var p, vs := Positions(Names(raw), name), ValuesOf(raw, name);
            && |p| == |vs|
            && (forall k :: 0 <= k < |p| ==> p[k] < |raw| && raw[p[k]] == Header(name, vs[k]))
    decreases |raw|
  {
    if raw != [] {
      var n := |raw| - 1;
      assert Names(raw[..n]) == Names(raw)[..n];
      ValuesInOrder(raw[..n], name);
    }
  }

  /** A group is complete: no position of its name is left out. */
  lemma GroupIsComplete(raw: seq<Header>, name: string, i: nat)
    requires i < |raw| && raw[i].name == name
    ensures i in Positions(Names(raw), name)
  {
    PositionsComplete(Names(raw), name, i);
  }

  lemma {:induction false} GroupNotEmpty(raw: seq<Header>, name: string)
    ensures ValuesOf(raw, name) != [] <==> Has(raw, name)
    decreases |raw|
  {
    if raw != [] {
      var n := |raw| - 1;
      GroupNotEmpty(raw[..n], name);
      assert raw == raw[..n] + [raw[n]];
      HasLast(raw[..n], raw[n], name);
    }
  }

  lemma HasLast(raw: seq<Header>, h: Header, name: string)
    ensures Has(raw + [h], name) <==> Has(raw, name) || h.name == name
  {
    if Has(raw, name) {
      var i :| 0 <= i < |raw| && raw[i].name == name;
      assert (raw + [h])[i].name == name;
    }
    if h.name == name {
      assert (raw + [h])[|raw|].name == name;
    }
  }

  lemma {:induction false} LookupLast(raw: seq<Header>, h: Header, name: string)
    ensures Lookup(raw + [h], name) ==
            if Lookup(raw, name).Some? then Lookup(raw, name)
            else if h.name == name then Some(h.value)
            else None
    decreases |raw|
  {
    if raw != [] {
      assert (raw + [h])[1..] == raw[1..] + [h];
      LookupLast(raw[1..], h, name);
    }
  }

  /** The first value of a group is what the lookup answers; the lookup finds nothing just if the group is empty. */
  lemma {:induction false} FirstOfGroup(raw: seq<Header>, name: string)
    ensures Lookup(raw, name) == if ValuesOf(raw, name) != [] then Some(ValuesOf(raw, name)[0]) else None
    decreases |raw|
  {
    if raw != [] {
      var n := |raw| - 1;
      FirstOfGroup(raw[..n], name);
      assert raw == raw[..n] + [raw[n]];
      LookupLast(raw[..n], raw[n], name);
    }
  }

  // ---------------------------------------------------------------------------
  // The groups together are the list
  // ---------------------------------------------------------------------------

  /** An order in which the names of a list can be visited: each once, none left out. */
  ghost predicate Order(raw: seq<Header>, names: seq<string>) {
    Distinct(names) && forall name :: name in names <==> Has(raw, name)
  }

  function Named(name: string, values: seq<string>): (r: seq<Header>)
    ensures |r| == |values|
  {
    seq(|values|, i requires 0 <= i < |values| => Header(name, values[i]))
  }

  /** All groups, one after the other. */
  function Regrouped(raw: seq<Header>, names: seq<string>): seq<Header> {
    if names == [] then []
    else
      var n := |names| - 1;
      Regrouped(raw, names[..n]) + Named(names[n], ValuesOf(raw, names[n]))
  }

  function Sizes(raw: seq<Header>, names: seq<string>): nat {
    if names == [] then 0
    else
      var n := |names| - 1;
      Sizes(raw, names[..n]) + |ValuesOf(raw, names[n])|
  }

  lemma {:induction false} RegroupedOfNothing(names: seq<string>)
    ensures Regrouped([], names) == []
    decreases |names|
  {
    if names != [] {
      RegroupedOfNothing(names[..|names| - 1]);
    }
  }

  lemma ValuesOfLast(raw: seq<Header>, h: Header, name: string)
    ensures ValuesOf(raw + [h], name) == ValuesOf(raw, name) + if h.name == name then [h.value] else []
  {
    assert (raw + [h])[..|raw|] == raw;
  }

  lemma NamedLast(name: string, values: seq<string>, v: string)
    ensures multiset(Named(name, values + [v])) == multiset(Named(name, values)) + multiset{Header(name, v)}
  {
    assert Named(name, values + [v]) == Named(name, values) + [Header(name, v)];
  }

  lemma {:induction false} RegroupedLast(raw: seq<Header>, h: Header, names: seq<string>)
    requires Distinct(names)
    ensures multiset(Regrouped(raw + [h], names)) ==
            multiset(Regrouped(raw, names)) + if h.name in names then multiset{h} else multiset{}
    decreases |names|
  {
    hide ValuesOf, Named;
    if names != [] {
      var n := |names| - 1;
      RegroupedLast(raw, h, names[..n]);
      ValuesOfLast(raw, h, names[n]);
      assert names == names[..n] + [names[n]];
      if h.name == names[n] {
        NamedLast(names[n], ValuesOf(raw, names[n]), h.value);
      } else {
        assert ValuesOf(raw, names[n]) + [] == ValuesOf(raw, names[n]);
      }
    }
  }

  /** In whatever order the names are visited, the groups together are a permutation of the list. */
  lemma {:induction false} GroupsPartition(raw: seq<Header>, names: seq<string>)
    requires Distinct(names) && forall i :: 0 <= i < |raw| ==> raw[i].name in names
    ensures multiset(Regrouped(raw, names)) == multiset(raw)
    decreases |raw|
  {
    hide Regrouped;
    if raw == [] {
      RegroupedOfNothing(names);
    } else {
      var n := |raw| - 1;
      assert raw == raw[..n] + [raw[n]];
      GroupsPartition(raw[..n], names);
      RegroupedLast(raw[..n], raw[n], names);
    }
  }

  lemma {:induction false} SizesOfRegrouped(raw: seq<Header>, names: seq<string>)
    ensures Sizes(raw, names) == |Regrouped(raw, names)|
    decreases |names|
  {
    if names != [] {
      SizesOfRegrouped(raw, names[..|names| - 1]);
    }
  }

  lemma SizesSumToCount(raw: seq<Header>, names: seq<string>)
    requires Order(raw, names)
    ensures Sizes(raw, names) == |raw|
  {
    forall i | 0 <= i < |raw| ensures raw[i].name in names {
      assert Has(raw, raw[i].name);
    }
    GroupsPartition(raw, names);
    SizesOfRegrouped(raw, names);
    assert |multiset(Regrouped(raw, names))| == |multiset(raw)|;
  }

  // ---------------------------------------------------------------------------
  // The SDK's loop, and the snapshot taken from its result
  // ---------------------------------------------------------------------------

  /** The groups of a list, as a map. */
  ghost predicate Groups(raw: seq<Header>, headers: map<string, seq<string>>) {
    forall name: string ::
      && (name in headers <==> Has(raw, name))
      && (name in headers ==> headers[name] == ValuesOf(raw, name))
  }

  lemma GroupsLast(raw: seq<Header>, h: Header, headers: map<string, seq<string>>)
    requires Groups(raw, headers)
    ensures Groups(raw + [h], headers[h.name := (if h.name in headers then headers[h.name] else []) + [h.value]])
  {
    hide ValuesOf, Has;
    GroupNotEmpty(raw, h.name);
    forall name: string
      ensures Has(raw + [h], name) <==> Has(raw, name) || h.name == name
      ensures ValuesOf(raw + [h], name) == ValuesOf(raw, name) + if h.name == name then [h.value] else []
    {
      HasLast(raw, h, name);
      ValuesOfLast(raw, h, name);
    }
  }

  datatype Fetched = IndexOutOfRange | Headers(headers: map<string, seq<string>>)

  /** `filled` is Envoy's answer to the request to fill the array; an empty list has no first slot to point at. */
  method GetHeaders(raw: seq<Header>, filled: bool) returns (r: Fetched)
    ensures raw == [] ==> r == IndexOutOfRange
    ensures raw != [] && !filled ==> r == Headers(map[])
    ensures raw != [] && filled ==> r.Headers? && Groups(raw, r.headers)
  {
    if |raw| == 0 {
      return IndexOutOfRange;
    }
    if !filled {
      return Headers(map[]);
    }
    var headers: map<string, seq<string>> := map[];
    for i := 0 to |raw|
      invariant Groups(raw[..i], headers)
    {
      var key, value := raw[i].name, raw[i].value;
      assert raw[..i + 1] == raw[..i] + [raw[i]];
      GroupsLast(raw[..i], raw[i], headers);
      headers := headers[key := (if key in headers then headers[key] else []) + [value]];
    }
    assert raw[..|raw|] == raw;
    return Headers(headers);
  }

  /** The first value of each name of a list. */
  ghost predicate FirstValues(raw: seq<Header>, m: map<string, string>) {
    forall name: string ::
      && (name in m <==> Has(raw, name))
      && (name in m ==> Lookup(raw, name) == Some(m[name]))
  }

  /** At most one map holds the first values, so how it was filled cannot matter. */
  lemma FirstValuesUnique(raw: seq<Header>, m: map<string, string>, m': map<string, string>)
    requires FirstValues(raw, m) && FirstValues(raw, m')
    ensures m == m'
  {
    forall name: string ensures name in m <==> name in m' {
      assert name in m <==> Has(raw, name);
    }
    forall name | name in m ensures m[name] == m'[name] {
      assert Some(m[name]) == Lookup(raw, name);
    }
  }

  /** Copies the first value of each group into an empty map, in any iteration order over the groups. */
  method TakeFirstValues(raw: seq<Header>, headers: map<string, seq<string>>, order: seq<string>)
    returns (m: map<string, string>)
    requires Groups(raw, headers) && Order(raw, order)
    ensures FirstValues(raw, m)
  {
    m := map[];
    for i := 0 to |order|
      invariant forall name :: name in m <==> name in order[..i]
      invariant forall name :: name in m ==> Lookup(raw, name) == Some(m[name])
    {
      var k := order[i];
      GroupNotEmpty(raw, k);
      FirstOfGroup(raw, k);
      var vs := headers[k];
      m := m[k := vs[0]];
      assert order[..i + 1] == order[..i] + [k];
    }
    assert order[..|order|] == order;
  }
}
