/** The header mutation filter: sets, then removals, each in configuration order, on Envoy's store. */
module HeaderMutation {
  import opened Common
  import opened Headers
  import opened HeaderStore

  /** Envoy's side: the two stores, and the attributes it knows. */
  class Envoy {
    var request: seq<Header>
    var response: seq<Header>
    const source: Option<string>
    const upstream: Option<string>
    const code: Option<int>

    constructor (request: seq<Header>, response: seq<Header>, source: Option<string>, upstream: Option<string>,
                 code: Option<int>)
      ensures this.request == request && this.response == response
      ensures this.source == source && this.upstream == upstream && this.code == code
    {
      this.request, this.response := request, response;
      this.source, this.upstream, this.code := source, upstream, code;
    }
  }

  function Digits(n: nat): string {
    (if n < 10 then "" else Digits(n / 10)) + [(n % 10 + 48) as char]
  }

  function Decimal(n: int): string {
    if n < 0 then "-" + Digits(-n) else Digits(n)
  }

  function ParseDigits(s: string): int {
    if s == "" then 0 else 10 * ParseDigits(s[..|s| - 1]) + (s[|s| - 1] as int - 48)
  }

  /** The decimal numeral of a natural number: digits only, no extra zero in front, and the number as its value. */
  predicate Numeral(text: string, n: nat) {
    && text != ""
    && (forall i :: 0 <= i < |text| ==> '0' <= text[i] <= '9')
    && (text[0] == '0' ==> text == "0")
    && ParseDigits(text) == n
  }

  /** The numeral of an integer has a minus sign in front if it is negative. */
  predicate IsDecimal(text: string, n: int) {
    if n >= 0 then Numeral(text, n) else |text| > 0 && text[0] == '-' && Numeral(text[1..], -n)
  }

  lemma LastDigit(n: nat, p: nat, c: char)
    requires '0' <= c <= '9' && n == 10 * p + (c as int - 48)
    ensures n / 10 == p && (n % 10 + 48) as char == c
  {}

  lemma DigitsLast(n: nat)
    ensures Digits(n) == (if n < 10 then "" else Digits(n / 10)) + [(n % 10 + 48) as char]
  {}

  lemma ParseLast(text: string)
    requires text != ""
    ensures ParseDigits(text) == 10 * ParseDigits(text[..|text| - 1]) + (text[|text| - 1] as int - 48)
  {}

  lemma ParseNothing()
    ensures ParseDigits("") == 0
  {}

  lemma {:induction false} DigitsAreNumeral(n: nat)
    ensures Numeral(Digits(n), n) && (n > 0 ==> Digits(n)[0] != '0')
  {
    hide Digits, ParseDigits;
    DigitsLast(n);
    var init, last := if n < 10 then "" else Digits(n / 10), (n % 10 + 48) as char;
    assert Digits(n)[..|Digits(n)| - 1] == init && Digits(n)[|Digits(n)| - 1] == last;
    ParseLast(Digits(n));
    if n >= 10 {
      DigitsAreNumeral(n / 10);
      assert Digits(n)[0] == init[0];
    } else {
      ParseNothing();
    }
  }

  /** A number has one numeral only. */
  lemma {:induction false} NumeralIsDigits(text: string, n: nat)
    requires Numeral(text, n)
    ensures text == Digits(n)
    decreases |text|
  {
    hide Digits, ParseDigits;
    var k := |text| - 1;
    var init, last := text[..k], text[k];
    assert text == init + [last];
    ParseLast(text);
    ParsePositive(init);
    LastDigit(n, ParseDigits(init), last);
    DigitsLast(n);
    if k == 0 {
      ParseNothing();
      assert init == "";
    } else {
      assert init[0] == text[0] && |init| > 0;
      assert n >= 10;
      NumeralIsDigits(init, ParseDigits(init));
    }
  }

  lemma {:induction false} ParsePositive(text: string)
    requires forall i :: 0 <= i < |text| ==> '0' <= text[i] <= '9'
    ensures ParseDigits(text) >= 0
    ensures text != "" && text[0] != '0' ==> ParseDigits(text) > 0
    decreases |text|
  {
    if text != "" {
      ParsePositive(text[..|text| - 1]);
    }
  }

  lemma DecimalIsDecimal(n: int)
    ensures IsDecimal(Decimal(n), n)
    ensures forall text :: IsDecimal(text, n) ==> text == Decimal(n)
  {
    var m: nat := if n >= 0 then n else -n;
    DigitsAreNumeral(m);
    assert n < 0 ==> Decimal(n)[1..] == Digits(m);
    forall text | IsDecimal(text, n) ensures text == Decimal(n) {
      if n >= 0 {
        NumeralIsDigits(text, n);
      } else {
        NumeralIsDigits(text[1..], -n);
        assert text == ['-'] + text[1..];
      }
    }
  }

  /** Numbers written out. */
  lemma SomeNumerals()
    ensures ParseDigits("120") == 120 && ParseDigits("9") == 9
    ensures Decimal(404) == "404" && Decimal(200) == "200" && Decimal(0) == "0" && Decimal(-7) == "-7"
  {
    assert "120"[..2] == "12" && "12"[..1] == "1" && "1"[..0] == "" && "9"[..0] == "";
    assert Digits(4) == "4" && Digits(40) == "40" && Digits(404) == "404";
    assert Digits(2) == "2" && Digits(20) == "20" && Digits(200) == "200";
    assert Digits(0) == "0" && Digits(7) == "7";
  }

  // ---------------------------------------------------------------------------
  // The closed form
  // ---------------------------------------------------------------------------

  /** The values of a name, in any spelling. */
  function Values(store: seq<Header>, name: string): seq<string> {
    ValuesOf(store, Lower(name))
  }

  /** The value of the last configured set of a name. */
  function LastSet(sets: seq<(string, string)>, name: string): Option<string> {
    if sets == [] then None
    else
      var last := sets[|sets| - 1];
      if SameName(last.0, name) then Some(last.1) else LastSet(sets[..|sets| - 1], name)
  }

  predicate Removed(removes: seq<string>, name: string) {
    exists i :: 0 <= i < |removes| && SameName(removes[i], name)
  }

  /** What the values of a name become: none if removed, else the last set value, else what they were. */
  function Mutated(sets: seq<(string, string)>, removes: seq<string>, original: seq<string>, name: string)
    : seq<string>
  {
    if Removed(removes, name) then []
    else
      match LastSet(sets, name)
      case Some(v) => [v]
      case None => original
  }

  ghost predicate IsMutated(sets: seq<(string, string)>, removes: seq<string>, was: seq<Header>, now: seq<Header>) {
    forall name :: Values(now, name) == Mutated(sets, removes, Values(was, name), name)
  }

  lemma SetAfterSets(sets: seq<(string, string)>, set_: (string, string), was: seq<Header>, now: seq<Header>)
    requires IsMutated(sets, [], was, now)
    ensures IsMutated(sets + [set_], [], was, Set(now, set_.0, set_.1))
  {
    hide Lower, Set;
    var sets' := sets + [set_];
    assert sets'[..|sets|] == sets;
    forall name
      ensures Values(Set(now, set_.0, set_.1), name) == Mutated(sets', [], Values(was, name), name)
    {
      assert Values(now, name) == Mutated(sets, [], Values(was, name), name);
      ValuesOfSet(now, set_.0, set_.1, Lower(name));
    }
  }

  lemma RemoveAfterRemoves(sets: seq<(string, string)>, removes: seq<string>, key: string,
                           was: seq<Header>, now: seq<Header>)
    requires IsMutated(sets, removes, was, now)
    ensures IsMutated(sets, removes + [key], was, Remove(now, key))
  {
    hide Lower, LastSet;
    var removes' := removes + [key];
    forall name
      ensures Values(Remove(now, key), name) == Mutated(sets, removes', Values(was, name), name)
    {
      assert Values(now, name) == Mutated(sets, removes, Values(was, name), name);
      ValuesOfWithout(now, Lower(key), Lower(name));
      if SameName(key, name) {
        assert SameName(removes'[|removes|], name);
      } else if Removed(removes, name) {
        var i :| 0 <= i < |removes| && SameName(removes[i], name);
        assert SameName(removes'[i], name);
      }
    }
  }

  lemma NothingMutated(store: seq<Header>)
    ensures IsMutated([], [], store, store)
  {}

  /** Mutating again changes no value of any name. */
  lemma MutatingAgain(sets: seq<(string, string)>, removes: seq<string>, was: seq<Header>, once: seq<Header>,
                      twice: seq<Header>, name: string)
    requires IsMutated(sets, removes, was, once) && IsMutated(sets, removes, once, twice)
    ensures Values(twice, name) == Values(once, name)
  {
    hide Removed, LastSet, Values;
    assert Values(once, name) == Mutated(sets, removes, Values(was, name), name);
  }

  /** The built-in sets of the response hook come first, so a configured set of the same name overrides them. */
  lemma {:induction false} ConfiguredOverBuiltIn(builtIn: seq<(string, string)>, sets: seq<(string, string)>,
                                                 name: string)
    ensures LastSet(builtIn + sets, name) ==
            if LastSet(sets, name).Some? then LastSet(sets, name) else LastSet(builtIn, name)
    decreases |sets|
  {
    if sets == [] {
      assert builtIn + sets == builtIn;
    } else {
      var n := |sets| - 1;
      assert (builtIn + sets)[..|builtIn| + n] == builtIn + sets[..n];
      ConfiguredOverBuiltIn(builtIn, sets[..n], name);
    }
  }

  // ---------------------------------------------------------------------------
  // The filter
  // ---------------------------------------------------------------------------

  datatype Outcome = Continue | Panicked(missing: string)

  function BuiltIn(source: string, upstream: string, code: int): seq<(string, string)> {
    [("X-Downstream-Address", source), ("X-Upstream-Address", upstream), ("X-Response-Code", Decimal(code))]
  }

  class Filter {
    const requestHeaders: seq<(string, string)>
    const removeRequestHeaders: seq<string>
    const responseHeaders: seq<(string, string)>
    const removeResponseHeaders: seq<string>

    constructor (requestHeaders: seq<(string, string)>, removeRequestHeaders: seq<string>,
                 responseHeaders: seq<(string, string)>, removeResponseHeaders: seq<string>)
      ensures this.requestHeaders == requestHeaders && this.removeRequestHeaders == removeRequestHeaders
      ensures this.responseHeaders == responseHeaders && this.removeResponseHeaders == removeResponseHeaders
    {
      this.requestHeaders, this.removeRequestHeaders := requestHeaders, removeRequestHeaders;
      this.responseHeaders, this.removeResponseHeaders := responseHeaders, removeResponseHeaders;
    }

    method OnRequestHeaders(e: Envoy) returns (r: Outcome)
      modifies e`request
      ensures r == Continue
      ensures IsMutated(requestHeaders, removeRequestHeaders, old(e.request), e.request)
    {
      hide IsMutated, Set, Remove;
      ghost var was := e.request;
      NothingMutated(was);
      for i := 0 to |requestHeaders|
        invariant IsMutated(requestHeaders[..i], [], was, e.request)
      {
        SetAfterSets(requestHeaders[..i], requestHeaders[i], was, e.request);
        assert requestHeaders[..i + 1] == requestHeaders[..i] + [requestHeaders[i]];
        e.request := Set(e.request, requestHeaders[i].0, requestHeaders[i].1);
      }
      assert requestHeaders[..|requestHeaders|] == requestHeaders;
      for i := 0 to |removeRequestHeaders|
        invariant IsMutated(requestHeaders, removeRequestHeaders[..i], was, e.request)
      {
        RemoveAfterRemoves(requestHeaders, removeRequestHeaders[..i], removeRequestHeaders[i], was, e.request);
        assert removeRequestHeaders[..i + 1] == removeRequestHeaders[..i] + [removeRequestHeaders[i]];
        e.request := Remove(e.request, removeRequestHeaders[i]);
      }
      assert removeRequestHeaders[..|removeRequestHeaders|] == removeRequestHeaders;
      r := Continue;
    }

    /** A missing attribute panics after the built-in headers before it have been set; nothing else is touched then. */
    method OnResponseHeaders(e: Envoy) returns (r: Outcome)
      modifies e`response
      ensures e.source.None? ==> r == Panicked("Failed to get source address") && e.response == old(e.response)
      ensures e.source.Some? && e.upstream.None? ==>
                && r == Panicked("Failed to get upstream address")
                && IsMutated(BuiltIn(e.source.value, "", 0)[..1], [], old(e.response), e.response)
      ensures e.source.Some? && e.upstream.Some? && e.code.None? ==>
                && r == Panicked("Failed to get response code")
                && IsMutated(BuiltIn(e.source.value, e.upstream.value, 0)[..2], [], old(e.response), e.response)
      ensures e.source.Some? && e.upstream.Some? && e.code.Some? ==>
                && r == Continue
                && IsMutated(BuiltIn(e.source.value, e.upstream.value, e.code.value) + responseHeaders,
                             removeResponseHeaders, old(e.response), e.response)
    {
      hide IsMutated, Set, Remove, Decimal;
      ghost var was := e.response;
      NothingMutated(was);
      if e.source.None? {
        return Panicked("Failed to get source address");
      }
      var downstreamAddr := e.source.value;
      ghost var one := [("X-Downstream-Address", downstreamAddr)];
      SetAfterSets([], one[0], was, e.response);
      assert [] + [one[0]] == one == BuiltIn(downstreamAddr, "", 0)[..1];
      e.response := Set(e.response, "X-Downstream-Address", downstreamAddr);

      if e.upstream.None? {
        return Panicked("Failed to get upstream address");
      }
      var upstreamAddr := e.upstream.value;
      ghost var two := BuiltIn(downstreamAddr, upstreamAddr, 0)[..2];
      SetAfterSets(one, ("X-Upstream-Address", upstreamAddr), was, e.response);
      assert one + [("X-Upstream-Address", upstreamAddr)] == two;
      e.response := Set(e.response, "X-Upstream-Address", upstreamAddr);

      if e.code.None? {
        return Panicked("Failed to get response code");
      }
      var responseCode := Decimal(e.code.value);
      SetAfterSets(two, ("X-Response-Code", responseCode), was, e.response);
      e.response := Set(e.response, "X-Response-Code", responseCode);

      ghost var builtIn := BuiltIn(downstreamAddr, upstreamAddr, e.code.value);
      assert two + [("X-Response-Code", responseCode)] == builtIn;
      SetAndRemove(e, builtIn, was);
      r := Continue;
    }

    /** The two configured loops of the response hook, after the built-in sets. */
    method SetAndRemove(e: Envoy, ghost builtIn: seq<(string, string)>, ghost was: seq<Header>)
      requires IsMutated(builtIn, [], was, e.response)
      modifies e`response
      ensures IsMutated(builtIn + responseHeaders, removeResponseHeaders, was, e.response)
    {
      hide IsMutated, Set, Remove;
      ghost var all := builtIn + responseHeaders;
      assert builtIn + responseHeaders[..0] == builtIn;
      for i := 0 to |responseHeaders|
        invariant IsMutated(builtIn + responseHeaders[..i], [], was, e.response)
      {
        SetAfterSets(builtIn + responseHeaders[..i], responseHeaders[i], was, e.response);
        assert builtIn + responseHeaders[..i + 1] == (builtIn + responseHeaders[..i]) + [responseHeaders[i]];
        e.response := Set(e.response, responseHeaders[i].0, responseHeaders[i].1);
      }
      assert responseHeaders[..|responseHeaders|] == responseHeaders;
      for i := 0 to |removeResponseHeaders|
        invariant IsMutated(all, removeResponseHeaders[..i], was, e.response)
      {
        RemoveAfterRemoves(all, removeResponseHeaders[..i], removeResponseHeaders[i], was, e.response);
        assert removeResponseHeaders[..i + 1] == removeResponseHeaders[..i] + [removeResponseHeaders[i]];
        e.response := Remove(e.response, removeResponseHeaders[i]);
      }
      assert removeResponseHeaders[..|removeResponseHeaders|] == removeResponseHeaders;
    }

    /** Running both hooks again with the same attributes changes no value of any header. */
    method RunTwice(e: Envoy) returns (request: seq<Header>, response: seq<Header>)
      requires e.source.Some? && e.upstream.Some? && e.code.Some?
      modifies e
      ensures forall name :: Values(e.request, name) == Values(request, name)
      ensures forall name :: Values(e.response, name) == Values(response, name)
    {
      hide IsMutated, Values, Decimal;
      ghost var request0, response0 := e.request, e.response;
      var r := OnRequestHeaders(e);
      r := OnResponseHeaders(e);
      request, response := e.request, e.response;
      r := OnRequestHeaders(e);
      r := OnResponseHeaders(e);
      ghost var sets := BuiltIn(e.source.value, e.upstream.value, e.code.value) + responseHeaders;
      forall name
        ensures Values(e.request, name) == Values(request, name)
        ensures Values(e.response, name) == Values(response, name)
      {
        MutatingAgain(requestHeaders, removeRequestHeaders, request0, request, e.request, name);
        MutatingAgain(sets, removeResponseHeaders, response0, response, e.response, name);
      }
    }
  }

  /** Some removal names the header, in any spelling. */
  ghost predicate IsRemoved(removes: seq<string>, name: string) {
    exists key :: key in removes && Lower(key) == Lower(name)
  }

  /** Set `i` is the last one that names the header, in any spelling. */
  ghost predicate IsLastSet(sets: seq<(string, string)>, name: string, i: nat) {
    i < |sets| && Lower(sets[i].0) == Lower(name) &&
    forall j :: i < j < |sets| ==> Lower(sets[j].0) != Lower(name)
  }

  lemma RemovedIff(removes: seq<string>, name: string)
    ensures Removed(removes, name) <==> IsRemoved(removes, name)
  {
    if IsRemoved(removes, name) {
      var key :| key in removes && Lower(key) == Lower(name);
      var i :| 0 <= i < |removes| && removes[i] == key;
      assert SameName(removes[i], name);
    }
  }

  lemma {:induction false} LastSetIff(sets: seq<(string, string)>, name: string)
    ensures forall i: nat :: IsLastSet(sets, name, i) ==> LastSet(sets, name) == Some(sets[i].1)
    ensures (forall i: nat :: !IsLastSet(sets, name, i)) <==> LastSet(sets, name) == None
    ensures LastSet(sets, name) == None <==> forall i :: 0 <= i < |sets| ==> Lower(sets[i].0) != Lower(name)
    decreases |sets|
  {
    if sets != [] {
      var n := |sets| - 1;
      LastSetIff(sets[..n], name);
      if Lower(sets[n].0) == Lower(name) {
        assert IsLastSet(sets, name, n);
      } else {
        forall i: nat ensures IsLastSet(sets, name, i) <==> IsLastSet(sets[..n], name, i) {}
      }
    }
  }

  /**
   The closed form, written out for one name in any spelling: a removed name is absent; else the last set that names it
   gives its one value; else its values are what they were.
   */
  lemma ClosedForm(sets: seq<(string, string)>, removes: seq<string>, was: seq<Header>, now: seq<Header>, name: string)
    requires IsMutated(sets, removes, was, now)
    ensures IsRemoved(removes, name) ==> ValuesOf(now, Lower(name)) == []
    ensures forall i: nat :: !IsRemoved(removes, name) && IsLastSet(sets, name, i) ==>
              ValuesOf(now, Lower(name)) == [sets[i].1]
    ensures !IsRemoved(removes, name) && (forall i :: 0 <= i < |sets| ==> Lower(sets[i].0) != Lower(name)) ==>
              ValuesOf(now, Lower(name)) == ValuesOf(was, Lower(name))
  {
    hide Lower;
    RemovedIff(removes, name);
    LastSetIff(sets, name);
    assert Values(now, name) == Mutated(sets, removes, Values(was, name), name);
  }

  /**
   The response's closed form, name by name: removed names are absent; else the last configured set; else the
   built-in value of one of the three names, of which the code is written in decimal; else the original values.
   */
  lemma ResponseClosedForm(f: Filter, source: string, upstream: string, code: int, was: seq<Header>, now: seq<Header>,
                           name: string)
    requires IsMutated(BuiltIn(source, upstream, code) + f.responseHeaders, f.removeResponseHeaders, was, now)
    ensures IsRemoved(f.removeResponseHeaders, name) ==> ValuesOf(now, Lower(name)) == []
    ensures forall i: nat :: !IsRemoved(f.removeResponseHeaders, name) && IsLastSet(f.responseHeaders, name, i) ==>
              ValuesOf(now, Lower(name)) == [f.responseHeaders[i].1]
    ensures !IsRemoved(f.removeResponseHeaders, name) &&
            (forall i :: 0 <= i < |f.responseHeaders| ==> Lower(f.responseHeaders[i].0) != Lower(name)) ==>
              var values := ValuesOf(now, Lower(name));
              if Lower(name) == "x-downstream-address" then values == [source]
              else if Lower(name) == "x-upstream-address" then values == [upstream]
              else if Lower(name) == "x-response-code" then |values| == 1 && IsDecimal(values[0], code)
              else values == ValuesOf(was, Lower(name))
  {
    hide Lower, IsDecimal, Decimal;
    var builtIn := BuiltIn(source, upstream, code);
    ConfiguredOverBuiltIn(builtIn, f.responseHeaders, name);
    BuiltInValues(source, upstream, code, name);
    BuiltInNames();
    DecimalIsDecimal(code);
    RemovedIff(f.removeResponseHeaders, name);
    LastSetIff(f.responseHeaders, name);
    assert Values(now, name) ==
           Mutated(builtIn + f.responseHeaders, f.removeResponseHeaders, Values(was, name), name);
  }

  lemma BuiltInNames()
    ensures Lower("X-Downstream-Address") == "x-downstream-address"
    ensures Lower("X-Upstream-Address") == "x-upstream-address"
    ensures Lower("X-Response-Code") == "x-response-code"
  {
    hide Lower;
    DownstreamName();
    UpstreamName();
    CodeName();
  }

  lemma DownstreamName()
    ensures Lower("X-Downstream-Address") == "x-downstream-address"
  {}

  lemma UpstreamName()
    ensures Lower("X-Upstream-Address") == "x-upstream-address"
  {}

  lemma CodeName()
    ensures Lower("X-Response-Code") == "x-response-code"
  {}

  lemma BuiltInValues(source: string, upstream: string, code: int, name: string)
    ensures LastSet(BuiltIn(source, upstream, code), name) ==
            if SameName(name, "X-Downstream-Address") then Some(source)
            else if SameName(name, "X-Upstream-Address") then Some(upstream)
            else if SameName(name, "X-Response-Code") then Some(Decimal(code))
            else None
  {
    var b := BuiltIn(source, upstream, code);
    assert b[..2] == [b[0], b[1]] && b[..2][..1] == [b[0]] && b[..2][..1][..0] == [];
    assert Lower("X-Downstream-Address")[2] == 'd';
    assert Lower("X-Upstream-Address")[2] == 'u';
    assert Lower("X-Response-Code")[2] == 'r';
    assert LastSet([b[0]], name) == if SameName(name, b[0].0) then Some(source) else None;
    assert LastSet([b[0], b[1]], name) ==
           if SameName(name, b[1].0) then Some(upstream) else LastSet([b[0]], name);
  }
}
