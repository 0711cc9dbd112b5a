/**
 The JavaScript filter. Each hook hands its script an object whose functions read the filter's maps and write through
 to Envoy. A script is any strategy that picks its next call from the results so far. It may keep an object: the
 request hook's object works in the response hook too, and in scripts of other streams that run in between.
 */
module JavaScript {
  import opened Common
  import opened Headers
  import opened HeaderStore
  import opened ShadowMap

  /** The object that a call goes through: the one made by the request hook, or by the response hook. */
  datatype Object = OfRequest | OfResponse

  /** A call by a script, with all its arguments, in number as the script likes. */
  datatype Action =
    | GetRequestHeader(obj: Object, args: seq<string>)
    | SetRequestHeader(obj: Object, args: seq<string>)
    | GetResponseHeader(obj: Object, args: seq<string>)
    | SetResponseHeader(obj: Object, args: seq<string>)

  /** `TypeError` is what a call of a function that the object does not have throws; the script may catch it. */
  datatype Value = Undefined | Text(s: string) | TypeError

  /** What a script does next. */
  datatype Next = Invoke(action: Action) | Finish | Fail

  type Script = seq<Value> -> Next

  /** `responding` tells that the response hook has made its object. */
  datatype Call = Call(action: Action, responding: bool, result: Value)

  /** `Running` stands for a script that has not ended within the steps looked at. */
  datatype Status = Continue | StopIteration | Running

  /** Envoy's two stores during one stream. */
  class Envoy {
    var request: seq<Header>
    var response: seq<Header>

    constructor (request: seq<Header>, response: seq<Header>)
      ensures this.request == request && this.response == response
    {
      this.request, this.response := request, response;
    }

    method SetRequest(key: string, value: string)
      modifies this`request
      ensures request == Set(old(request), key, value)
    {
      request := Set(request, key, value);
    }

    method SetResponse(key: string, value: string)
      modifies this`response
      ensures response == Set(old(response), key, value)
    {
      response := Set(response, key, value);
    }
  }

  // ---------------------------------------------------------------------------
  // Calls
  // ---------------------------------------------------------------------------

  /** The object exists and has the function: only the request hook's sets request headers, and it has nothing else. */
  predicate Offered(action: Action, responding: bool) {
    match action
    case GetRequestHeader(obj, _) => obj.OfRequest? || responding
    case SetRequestHeader(obj, _) => obj.OfRequest?
    case GetResponseHeader(obj, _) => obj.OfResponse? && responding
    case SetResponseHeader(obj, _) => obj.OfResponse? && responding
  }

  /** The request header that a call sets; with fewer than two arguments it sets none. */
  function RequestSet(action: Action, responding: bool): seq<Pair> {
    if action.SetRequestHeader? && Offered(action, responding) && |action.args| >= 2
    then [(action.args[0], action.args[1])] else []
  }

  function ResponseSet(action: Action, responding: bool): seq<Pair> {
    if action.SetResponseHeader? && Offered(action, responding) && |action.args| >= 2
    then [(action.args[0], action.args[1])] else []
  }

  function RequestSets(calls: seq<Call>): seq<Pair> {
    if calls == [] then []
    else
      var n := |calls| - 1;
      RequestSets(calls[..n]) + RequestSet(calls[n].action, calls[n].responding)
  }

  function ResponseSets(calls: seq<Call>): seq<Pair> {
    if calls == [] then []
    else
      var n := |calls| - 1;
      ResponseSets(calls[..n]) + ResponseSet(calls[n].action, calls[n].responding)
  }

  /** What a get must return after some sets: Envoy's value, unless the spelling is wrong. */
  predicate GetRight(store: seq<Header>, sets: seq<Pair>, args: seq<string>, result: Value) {
    if |args| < 1 then result == Text("")
    else Spelled(sets, args[0]) ==> result == Text(Current(StoreAfter(store, sets), args[0]))
  }

  /** The result of a call, given the headers that the hooks found and the sets that the stream has made before. */
  predicate CallRight(request: seq<Header>, requestSets: seq<Pair>, response: seq<Header>, responseSets: seq<Pair>,
                      call: Call)
  {
    if !Offered(call.action, call.responding) then call.result == TypeError
    else
      match call.action
      case GetRequestHeader(_, args) => GetRight(request, requestSets, args, call.result)
      case GetResponseHeader(_, args) => GetRight(response, responseSets, args, call.result)
      case _ => call.result == Undefined
  }

  ghost predicate AllRight(request: seq<Header>, response: seq<Header>, calls: seq<Call>) {
    forall i :: 0 <= i < |calls| ==>
      CallRight(request, RequestSets(calls[..i]), response, ResponseSets(calls[..i]), calls[i])
  }

  lemma SetsLast(calls: seq<Call>, call: Call)
    ensures RequestSets(calls + [call]) == RequestSets(calls) + RequestSet(call.action, call.responding)
    ensures ResponseSets(calls + [call]) == ResponseSets(calls) + ResponseSet(call.action, call.responding)
  {
    assert (calls + [call])[..|calls|] == calls;
  }

  lemma SetsBothStep(calls: seq<Call>, init: seq<Call>, last: Call)
    requires RequestSets(calls + init) == RequestSets(calls) + RequestSets(init)
    requires ResponseSets(calls + init) == ResponseSets(calls) + ResponseSets(init)
    ensures RequestSets(calls + (init + [last])) == RequestSets(calls) + RequestSets(init + [last])
    ensures ResponseSets(calls + (init + [last])) == ResponseSets(calls) + ResponseSets(init + [last])
  {
    hide RequestSets, ResponseSets, RequestSet, ResponseSet;
    Reassociate(calls, init, [last]);
    SetsLast(calls + init, last);
    SetsLast(init, last);
    Reassociate(RequestSets(calls), RequestSets(init), RequestSet(last.action, last.responding));
    Reassociate(ResponseSets(calls), ResponseSets(init), ResponseSet(last.action, last.responding));
  }

  lemma {:induction false} SetsBoth(calls: seq<Call>, more: seq<Call>)
    ensures RequestSets(calls + more) == RequestSets(calls) + RequestSets(more)
    ensures ResponseSets(calls + more) == ResponseSets(calls) + ResponseSets(more)
    decreases |more|
  {
    if more == [] {
      assert calls + more == calls;
    } else {
      hide RequestSets, ResponseSets;
      var init, last := more[..|more| - 1], more[|more| - 1];
      assert more == init + [last];
      SetsBoth(calls, init);
      SetsBothStep(calls, init, last);
    }
  }

  lemma RightLast(request: seq<Header>, response: seq<Header>, calls: seq<Call>, call: Call)
    requires AllRight(request, response, calls)
    requires CallRight(request, RequestSets(calls), response, ResponseSets(calls), call)
    ensures AllRight(request, response, calls + [call])
  {
    hide CallRight, RequestSets, ResponseSets;
    var calls' := calls + [call];
    forall i | 0 <= i < |calls'|
      ensures CallRight(request, RequestSets(calls'[..i]), response, ResponseSets(calls'[..i]), calls'[i])
    {
      if i < |calls| {
        assert calls'[..i] == calls[..i];
      } else {
        assert calls'[..i] == calls;
      }
    }
  }

  /** What a call returns, from the two maps. */
  function ResultOf(request: map<string, string>, response: map<string, string>, action: Action, responding: bool)
    : Value
  {
    if !Offered(action, responding) then TypeError
    else
      match action
      case GetRequestHeader(_, args) => Filter.GetFrom(request, args)
      case GetResponseHeader(_, args) => Filter.GetFrom(response, args)
      case _ => Undefined
  }

  /** The history of a stream: the headers that the hooks found, the maps filled from them, and the calls so far. */
  datatype History = History(
    request: seq<Header>,
    snapshot: map<string, string>,
    response: seq<Header>,
    responseSnapshot: map<string, string>,
    calls: seq<Call>)

  /** A result read from maps that follow the history is right. */
  lemma ResultRight(h: History, call: Call)
    requires FirstValues(h.request, h.snapshot) && FirstValues(h.response, h.responseSnapshot)
    requires call.result == ResultOf(ShadowAfter(h.snapshot, RequestSets(h.calls)),
                                     ShadowAfter(h.responseSnapshot, ResponseSets(h.calls)),
                                     call.action, call.responding)
    ensures CallRight(h.request, RequestSets(h.calls), h.response, ResponseSets(h.calls), call)
  {
    hide FirstValues, Spelled, Current, ShadowAfter, StoreAfter, RequestSets, ResponseSets;
    match call.action
    case GetRequestHeader(_, args) =>
      if |args| >= 1 && Spelled(RequestSets(h.calls), args[0]) {
        SpelledIsRight(h.request, h.snapshot, RequestSets(h.calls), args[0]);
      }
    case GetResponseHeader(_, args) =>
      if |args| >= 1 && Spelled(ResponseSets(h.calls), args[0]) {
        SpelledIsRight(h.response, h.responseSnapshot, ResponseSets(h.calls), args[0]);
      }
    case _ =>
  }

  /** The maps after one more call follow the longer history. */
  lemma CallFollows(h: History, call: Call)
    ensures var calls' := h.calls + [call];
            && ShadowAfter(h.snapshot, RequestSets(calls')) ==
               ShadowAfter(ShadowAfter(h.snapshot, RequestSets(h.calls)), RequestSet(call.action, call.responding))
            && ShadowAfter(h.responseSnapshot, ResponseSets(calls')) ==
               ShadowAfter(ShadowAfter(h.responseSnapshot, ResponseSets(h.calls)),
                           ResponseSet(call.action, call.responding))
  {
    hide ShadowAfter, StoreAfter, RequestSets, ResponseSets, RequestSet, ResponseSet;
    SetsLast(h.calls, call);
    AfterBoth([], h.snapshot, RequestSets(h.calls), RequestSet(call.action, call.responding));
    AfterBoth([], h.responseSnapshot, ResponseSets(h.calls), ResponseSet(call.action, call.responding));
  }

  /** Both stores after one more call. */
  lemma StoresFollow(request: seq<Header>, response: seq<Header>, calls: seq<Call>, call: Call)
    ensures StoreAfter(request, RequestSets(calls + [call])) ==
            StoreAfter(StoreAfter(request, RequestSets(calls)), RequestSet(call.action, call.responding))
    ensures StoreAfter(response, ResponseSets(calls + [call])) ==
            StoreAfter(StoreAfter(response, ResponseSets(calls)), ResponseSet(call.action, call.responding))
  {
    hide ShadowAfter, StoreAfter, RequestSets, ResponseSets, RequestSet, ResponseSet;
    SetsLast(calls, call);
    AfterBoth(request, map[], RequestSets(calls), RequestSet(call.action, call.responding));
    AfterBoth(response, map[], ResponseSets(calls), ResponseSet(call.action, call.responding));
  }

  /** At most one set. */
  lemma OneSet(store: seq<Header>, shadow: map<string, string>, sets: seq<Pair>)
    requires |sets| <= 1
    ensures StoreAfter(store, sets) == if sets == [] then store else Set(store, sets[0].0, sets[0].1)
    ensures ShadowAfter(shadow, sets) == if sets == [] then shadow else shadow[sets[0].0 := sets[0].1]
  {
    hide Set;
    if sets != [] {
      assert sets[..0] == [];
    }
  }

  predicate NotResponding(calls: seq<Call>) {
    forall i :: 0 <= i < |calls| ==> !calls[i].responding
  }

  /** Before the response hook no response header is set. */
  lemma {:induction false} NoResponseSets(calls: seq<Call>)
    requires NotResponding(calls)
    ensures ResponseSets(calls) == []
    decreases |calls|
  {
    if calls != [] {
      NoResponseSets(calls[..|calls| - 1]);
    }
  }

  lemma RightWithoutResponse(request: seq<Header>, requestSets: seq<Pair>, response: seq<Header>,
                             response': seq<Header>, responseSets: seq<Pair>, call: Call)
    requires CallRight(request, requestSets, response, responseSets, call) && !call.responding
    ensures CallRight(request, requestSets, response', responseSets, call)
  {}

  // ---------------------------------------------------------------------------
  // Scripts
  // ---------------------------------------------------------------------------

  function Results(calls: seq<Call>): seq<Value> {
    seq(|calls|, i requires 0 <= i < |calls| => calls[i].result)
  }

  /** The calls are the script's own, each chosen from the results before it. */
  ghost predicate PlayedBy(script: Script, responding: bool, calls: seq<Call>) {
    forall i :: 0 <= i < |calls| ==>
      calls[i].responding == responding && script(Results(calls[..i])) == Invoke(calls[i].action)
  }

  lemma PlayedByLast(script: Script, responding: bool, calls: seq<Call>, action: Action, result: Value)
    requires PlayedBy(script, responding, calls) && script(Results(calls)) == Invoke(action)
    ensures PlayedBy(script, responding, calls + [Call(action, responding, result)])
  {
    var calls' := calls + [Call(action, responding, result)];
    forall i | 0 <= i < |calls'| ensures script(Results(calls'[..i])) == Invoke(calls'[i].action) {
      if i < |calls| {
        assert calls'[..i] == calls[..i];
      } else {
        assert calls'[..i] == calls;
      }
    }
  }

  lemma NoCalls(script: Script, responding: bool, request: seq<Header>, response: seq<Header>)
    ensures PlayedBy(script, responding, [])
    ensures StoreAfter(request, RequestSets([])) == request && StoreAfter(response, ResponseSets([])) == response
  {}

  lemma PlayedNotResponding(script: Script, calls: seq<Call>)
    requires PlayedBy(script, false, calls)
    ensures NotResponding(calls)
  {}

  // ---------------------------------------------------------------------------
  // The filter
  // ---------------------------------------------------------------------------

  class Filter {
    var requestHeaders: map<string, string>
    var responseHeaders: map<string, string>

    /** Both maps are the snapshots with the stream's sets on top, and every result so far was right. */
    ghost predicate Follows(h: History)
      reads this
    {
      && FirstValues(h.request, h.snapshot) && FirstValues(h.response, h.responseSnapshot)
      && requestHeaders == ShadowAfter(h.snapshot, RequestSets(h.calls))
      && responseHeaders == ShadowAfter(h.responseSnapshot, ResponseSets(h.calls))
      && AllRight(h.request, h.response, h.calls)
    }

    constructor ()
      ensures requestHeaders == map[] && responseHeaders == map[]
    {
      requestHeaders, responseHeaders := map[], map[];
    }

    /** The closure behind each get: the map's value, and the empty string without an argument. */
    static function GetFrom(shadow: map<string, string>, args: seq<string>): Value {
      if |args| < 1 then Text("") else Text(Read(shadow, args[0]))
    }

    method SetRequest(e: Envoy, args: seq<string>)
      modifies this`requestHeaders, e`request
      ensures |args| < 2 ==> requestHeaders == old(requestHeaders) && e.request == old(e.request)
      ensures |args| >= 2 ==> requestHeaders == old(requestHeaders)[args[0] := args[1]]
      ensures |args| >= 2 ==> e.request == Set(old(e.request), args[0], args[1])
    {
      if |args| < 2 {
        return;
      }
      var key, value := args[0], args[1];
      requestHeaders := requestHeaders[key := value];
      e.SetRequest(key, value);
    }

    method SetResponse(e: Envoy, args: seq<string>)
      modifies this`responseHeaders, e`response
      ensures |args| < 2 ==> responseHeaders == old(responseHeaders) && e.response == old(e.response)
      ensures |args| >= 2 ==> responseHeaders == old(responseHeaders)[args[0] := args[1]]
      ensures |args| >= 2 ==> e.response == Set(old(e.response), args[0], args[1])
    {
      if |args| < 2 {
        return;
      }
      var key, value := args[0], args[1];
      responseHeaders := responseHeaders[key := value];
      e.SetResponse(key, value);
    }

    /** One call through one of the objects, whoever makes it. */
    method Perform(e: Envoy, action: Action, responding: bool, ghost h: History) returns (call: Call)
      requires Follows(h)
      modifies this, e
      ensures call.action == action && call.responding == responding
      ensures Follows(h.(calls := h.calls + [call]))
      ensures e.request == StoreAfter(old(e.request), RequestSet(action, responding))
      ensures e.response == StoreAfter(old(e.response), ResponseSet(action, responding))
      // The request hook's object offers getRequestHeader and setRequestHeader, at any time.
      ensures action.GetRequestHeader? && action.obj.OfRequest? ==>
                call.result == Text(if |action.args| == 0 then "" else Read(old(requestHeaders), action.args[0]))
      ensures action.SetRequestHeader? && action.obj.OfRequest? ==> call.result == Undefined
      ensures action.SetRequestHeader? && action.obj.OfRequest? && |action.args| >= 2 ==>
                && requestHeaders == old(requestHeaders)[action.args[0] := action.args[1]]
                && e.request == Set(old(e.request), action.args[0], action.args[1])
      // The response hook's object offers getRequestHeader, getResponseHeader and setResponseHeader, once it exists.
      ensures action.GetRequestHeader? && action.obj.OfResponse? && responding ==>
                call.result == Text(if |action.args| == 0 then "" else Read(old(requestHeaders), action.args[0]))
      ensures action.GetResponseHeader? && action.obj.OfResponse? && responding ==>
                call.result == Text(if |action.args| == 0 then "" else Read(old(responseHeaders), action.args[0]))
      ensures action.SetResponseHeader? && action.obj.OfResponse? && responding ==> call.result == Undefined
      ensures action.SetResponseHeader? && action.obj.OfResponse? && responding && |action.args| >= 2 ==>
                && responseHeaders == old(responseHeaders)[action.args[0] := action.args[1]]
                && e.response == Set(old(e.response), action.args[0], action.args[1])
      // Nothing else is offered, and nothing else changes anything.
      ensures action.SetRequestHeader? && action.obj.OfResponse? ==> call.result == TypeError
      ensures (action.GetResponseHeader? || action.SetResponseHeader?) && action.obj.OfRequest? ==>
                call.result == TypeError
      ensures action.obj.OfResponse? && !responding ==> call.result == TypeError
      ensures !(action.SetRequestHeader? && action.obj.OfRequest? && |action.args| >= 2) ==>
                requestHeaders == old(requestHeaders) && e.request == old(e.request)
      ensures !(action.SetResponseHeader? && action.obj.OfResponse? && responding && |action.args| >= 2) ==>
                responseHeaders == old(responseHeaders) && e.response == old(e.response)
    {
      hide Set, FirstValues, AllRight, CallRight, ShadowAfter, StoreAfter, RequestSets, ResponseSets;
      ghost var request, response := requestHeaders, responseHeaders;
      var result := TypeError;
      if Offered(action, responding) {
        match action {
          case GetRequestHeader(_, args) =>
            result := GetFrom(requestHeaders, args);
          case SetRequestHeader(_, args) =>
            SetRequest(e, args);
            result := Undefined;
          case GetResponseHeader(_, args) =>
            result := GetFrom(responseHeaders, args);
          case SetResponseHeader(_, args) =>
            SetResponse(e, args);
            result := Undefined;
        }
      }
      call := Call(action, responding, result);
      OneSet(old(e.request), request, RequestSet(action, responding));
      OneSet(old(e.response), response, ResponseSet(action, responding));
      ResultRight(h, call);
      RightLast(h.request, h.response, h.calls, call);
      CallFollows(h, call);
    }

    /** Plays a script through the filter, for at most `steps` calls. */
    method PlayScript(e: Envoy, script: Script, responding: bool, steps: nat, ghost h: History)
      returns (calls: seq<Call>, status: Status)
      requires Follows(h)
      modifies this, e
      ensures PlayedBy(script, responding, calls) && |calls| <= steps
      ensures |calls| < steps ==> !script(Results(calls)).Invoke?
      ensures status == Running <==> |calls| == steps
      ensures |calls| < steps && script(Results(calls)) == Finish ==> status == Continue
      ensures |calls| < steps && script(Results(calls)) == Fail ==> status == StopIteration
      ensures Follows(h.(calls := h.calls + calls))
      ensures e.request == StoreAfter(old(e.request), RequestSets(calls))
      ensures e.response == StoreAfter(old(e.response), ResponseSets(calls))
    {
      hide PlayedBy, Follows, StoreAfter, RequestSets, ResponseSets, RequestSet, ResponseSet;
      ghost var request, response := e.request, e.response;
      calls := [];
      NoCalls(script, responding, request, response);
      assert h.calls + calls == h.calls;
      while |calls| < steps && script(Results(calls)).Invoke?
        invariant |calls| <= steps
        invariant PlayedBy(script, responding, calls)
        invariant Follows(h.(calls := h.calls + calls))
        invariant e.request == StoreAfter(request, RequestSets(calls))
        invariant e.response == StoreAfter(response, ResponseSets(calls))
      {
        var action := script(Results(calls)).action;
        var call := Perform(e, action, responding, h.(calls := h.calls + calls));
        StoresFollow(request, response, calls, call);
        PlayedByLast(script, responding, calls, action, call.result);
        assert h.calls + (calls + [call]) == (h.calls + calls) + [call];
        calls := calls + [call];
      }
      if |calls| == steps {
        return calls, Running;
      }
      match script(Results(calls))
      case Finish => status := Continue;
      case Fail => status := StopIteration;
    }

    /**
     The request hook, run for at most `steps` calls of the script; `order` is the order in which the groups are
     visited. Every get in the right spelling returns Envoy's current first value, or the empty string.
     */
    method RequestHeaders(e: Envoy, order: seq<string>, script: Script, steps: nat)
      returns (calls: seq<Call>, status: Status, ghost h: History)
      requires e.request != [] && Order(e.request, order)
      requires requestHeaders == map[] && responseHeaders == map[]
      modifies this, e
      ensures PlayedBy(script, false, calls) && |calls| <= steps
      ensures |calls| < steps ==> !script(Results(calls)).Invoke?
      ensures status == Running <==> |calls| == steps
      ensures |calls| < steps && script(Results(calls)) == Finish ==> status == Continue
      ensures |calls| < steps && script(Results(calls)) == Fail ==> status == StopIteration
      ensures h.request == old(e.request) && h.response == [] && h.responseSnapshot == map[]
      ensures h.calls == calls && Follows(h) && requestHeaders == ShadowAfter(h.snapshot, RequestSets(calls))
      ensures AllRight(old(e.request), [], calls)
      ensures e.request == StoreAfter(old(e.request), RequestSets(calls)) && e.response == old(e.response)
      ensures forall key :: Spelled(RequestSets(calls), key) ==> Read(requestHeaders, key) == Current(e.request, key)
    {
      hide PlayedBy, Groups, FirstValues, Spelled, Current, AllRight, ShadowAfter, StoreAfter, Follows;
      var fetched := GetHeaders(e.request, true);
      requestHeaders := TakeFirstValues(e.request, fetched.headers, order);
      h := History(e.request, requestHeaders, [], map[], []);
      FollowsFirst(h);
      calls, status := PlayScript(e, script, false, steps, h);
      assert [] + calls == calls;
      h := h.(calls := calls);
      FollowsGets(h);
      PlayedNotResponding(script, calls);
      NoResponseSets(calls);
      OneSet(old(e.response), map[], ResponseSets(calls));
    }

    /**
     The response hook: the same for response headers. A get of a request header reads the map that the request hook
     filled, as later calls through its object have left it.
     */
    method ResponseHeaders(e: Envoy, order: seq<string>, script: Script, steps: nat, ghost h: History)
      returns (calls: seq<Call>, status: Status, ghost h': History)
      requires e.response != [] && Order(e.response, order)
      requires Follows(h) && h.response == [] && responseHeaders == map[] && NotResponding(h.calls)
      modifies this, e
      ensures PlayedBy(script, true, calls) && |calls| <= steps
      ensures |calls| < steps ==> !script(Results(calls)).Invoke?
      ensures status == Running <==> |calls| == steps
      ensures |calls| < steps && script(Results(calls)) == Finish ==> status == Continue
      ensures |calls| < steps && script(Results(calls)) == Fail ==> status == StopIteration
      ensures h'.request == h.request && h'.snapshot == h.snapshot && h'.response == old(e.response)
      ensures h'.calls == h.calls + calls && Follows(h')
      ensures AllRight(h.request, old(e.response), h.calls + calls)
      ensures requestHeaders == ShadowAfter(old(requestHeaders), RequestSets(calls))
      ensures e.request == StoreAfter(old(e.request), RequestSets(calls))
      ensures e.response == StoreAfter(old(e.response), ResponseSets(calls))
    {
      hide PlayedBy, Groups, FirstValues, AllRight, ShadowAfter, StoreAfter, NotResponding, RequestSets, ResponseSets;
      ghost var before := requestHeaders;
      var fetched := GetHeaders(e.response, true);
      responseHeaders := TakeFirstValues(e.response, fetched.headers, order);
      h' := h.(response := e.response, responseSnapshot := responseHeaders);
      FollowsResponse(h, h', before);
      calls, status := PlayScript(e, script, true, steps, h');
      h' := h'.(calls := h.calls + calls);
      FollowsMore(h, h', before, calls);
    }

    /** A stream's history begins with the map that the request hook has filled. */
    lemma FollowsFirst(h: History)
      requires FirstValues(h.request, h.snapshot) && h.response == [] && h.responseSnapshot == map[] && h.calls == []
      requires requestHeaders == h.snapshot && responseHeaders == map[]
      ensures Follows(h)
    {}

    /** At any time every get of a request header in the right spelling returns the value that the sets have led to. */
    lemma FollowsGets(h: History)
      requires Follows(h)
      ensures AllRight(h.request, h.response, h.calls)
      ensures requestHeaders == ShadowAfter(h.snapshot, RequestSets(h.calls))
      ensures forall key :: Spelled(RequestSets(h.calls), key) ==>
                Read(requestHeaders, key) == Current(StoreAfter(h.request, RequestSets(h.calls)), key)
    {
      hide FirstValues, Spelled, Current, AllRight;
      forall key | Spelled(RequestSets(h.calls), key)
        ensures Read(requestHeaders, key) == Current(StoreAfter(h.request, RequestSets(h.calls)), key)
      {
        SpelledIsRight(h.request, h.snapshot, RequestSets(h.calls), key);
      }
    }

    /** Filling the response map does not touch what was recorded of the request. */
    lemma FollowsResponse(h: History, h': History, before: map<string, string>)
      requires FirstValues(h.request, h.snapshot) && AllRight(h.request, h.response, h.calls) && NotResponding(h.calls)
      requires before == ShadowAfter(h.snapshot, RequestSets(h.calls)) && requestHeaders == before
      requires h' == h.(response := h'.response, responseSnapshot := responseHeaders)
      requires FirstValues(h'.response, responseHeaders)
      ensures Follows(h')
    {
      hide FirstValues, CallRight;
      NoResponseSets(h.calls);
      forall i | 0 <= i < |h.calls|
        ensures CallRight(h.request, RequestSets(h.calls[..i]), h'.response, ResponseSets(h.calls[..i]), h.calls[i])
      {
        RightWithoutResponse(h.request, RequestSets(h.calls[..i]), h.response, h'.response,
                             ResponseSets(h.calls[..i]), h.calls[i]);
      }
    }

    /** Before the response hook the response map is empty. */
    lemma FollowsEmpty(h: History)
      requires Follows(h) && h.responseSnapshot == map[] && NotResponding(h.calls)
      ensures responseHeaders == map[]
    {
      hide FirstValues, AllRight;
      NoResponseSets(h.calls);
    }

    lemma FollowsSince(h: History, before: map<string, string>, calls: seq<Call>, more: seq<Call>)
      requires Follows(h) && h.calls == calls + more && before == ShadowAfter(h.snapshot, RequestSets(calls))
      ensures requestHeaders == ShadowAfter(before, RequestSets(more))
    {
      hide FirstValues, AllRight, ShadowAfter, StoreAfter, RequestSets, ResponseSets;
      SetsBoth(calls, more);
      AfterBoth([], h.snapshot, RequestSets(calls), RequestSets(more));
    }

    /** The map after more calls, seen from the map before them. */
    lemma FollowsMore(h: History, h': History, before: map<string, string>, calls: seq<Call>)
      requires Follows(h') && h'.calls == h.calls + calls && h'.snapshot == h.snapshot
      requires before == ShadowAfter(h.snapshot, RequestSets(h.calls))
      ensures AllRight(h'.request, h'.response, h'.calls)
      ensures requestHeaders == ShadowAfter(before, RequestSets(calls))
    {
      hide FirstValues, AllRight, ShadowAfter, StoreAfter, RequestSets, ResponseSets;
      SetsBoth(h.calls, calls);
      AfterBoth([], h.snapshot, RequestSets(h.calls), RequestSets(calls));
    }
  }

  // ---------------------------------------------------------------------------
  // Whole streams
  // ---------------------------------------------------------------------------

  /**
   What can happen between the two hooks: Envoy or another filter changes the request headers, or a script that runs
   for another stream calls a function of an object that this stream's request script has given away.
   */
  datatype Between = EnvoySets(request: seq<Header>) | Kept(action: Action)

  function KeptActions(steps: seq<Between>): seq<Action> {
    if steps == [] then []
    else
      var n := |steps| - 1;
      KeptActions(steps[..n]) + if steps[n].Kept? then [steps[n].action] else []
  }

  function Actions(calls: seq<Call>): seq<Action> {
    seq(|calls|, i requires 0 <= i < |calls| => calls[i].action)
  }

  /** Envoy's request headers after such steps. */
  function RequestAfter(store: seq<Header>, steps: seq<Between>): seq<Header> {
    if steps == [] then store
    else
      var n := |steps| - 1;
      match steps[n]
      case EnvoySets(request) => request
      case Kept(action) => StoreAfter(RequestAfter(store, steps[..n]), RequestSet(action, false))
  }

  predicate OnlyKept(steps: seq<Between>) {
    forall i :: 0 <= i < |steps| ==> steps[i].Kept?
  }

  lemma KeptLast(steps: seq<Between>, calls: seq<Call>)
    requires steps != [] && OnlyKept(steps) && Actions(calls) == KeptActions(steps)
    ensures calls != [] && calls[|calls| - 1].action == steps[|steps| - 1].action
    ensures OnlyKept(steps[..|steps| - 1]) && Actions(calls[..|calls| - 1]) == KeptActions(steps[..|steps| - 1])
  {
    var n, m := |steps| - 1, |calls| - 1;
    assert KeptActions(steps) == KeptActions(steps[..n]) + [steps[n].action];
    assert |calls| == |Actions(calls)|;
    assert Actions(calls[..m]) == Actions(calls)[..m];
    assert Actions(calls)[m] == calls[m].action;
  }

  /** If only kept objects are used, the request headers change by their sets only. */
  lemma {:induction false} OnlyKeptSets(store: seq<Header>, steps: seq<Between>, calls: seq<Call>)
    requires OnlyKept(steps) && Actions(calls) == KeptActions(steps) && NotResponding(calls)
    ensures RequestAfter(store, steps) == StoreAfter(store, RequestSets(calls))
    decreases |steps|
  {
    if steps == [] {
      assert |calls| == |Actions(calls)|;
    } else {
      hide StoreAfter, RequestSet, RequestSets, ResponseSets, Actions, KeptActions;
      var n, m := |steps| - 1, |calls| - 1;
      KeptLast(steps, calls);
      OnlyKeptSets(store, steps[..n], calls[..m]);
      assert calls == calls[..m] + [calls[m]];
      StoresFollow(store, [], calls[..m], calls[m]);
    }
  }

  /** The time between the hooks. */
  method Wait(f: Filter, e: Envoy, steps: seq<Between>, ghost h: History) returns (calls: seq<Call>)
    requires f.Follows(h)
    modifies f, e
    ensures f.Follows(h.(calls := h.calls + calls)) && NotResponding(calls)
    ensures Actions(calls) == KeptActions(steps)
    ensures e.request == RequestAfter(old(e.request), steps) && e.response == old(e.response)
  {
    hide Filter.Follows, StoreAfter, RequestSet;
    calls := [];
    assert h.calls + calls == h.calls;
    for k := 0 to |steps|
      invariant f.Follows(h.(calls := h.calls + calls)) && NotResponding(calls)
      invariant Actions(calls) == KeptActions(steps[..k])
      invariant e.request == RequestAfter(old(e.request), steps[..k]) && e.response == old(e.response)
    {
      assert steps[..k + 1][..k] == steps[..k];
      match steps[k] {
        case EnvoySets(request) =>
          e.request := request;
        case Kept(action) =>
          var call := f.Perform(e, action, false, h.(calls := h.calls + calls));
          assert h.calls + (calls + [call]) == (h.calls + calls) + [call];
          assert Actions(calls + [call]) == Actions(calls) + [action];
          OneSet(old(e.response), map[], []);
          calls := calls + [call];
      }
    }
    assert steps[..|steps|] == steps;
  }

  /**
   A whole stream: request hook, the time between, response hook. All results are right, in the spelling of all sets
   that the stream's objects have made so far, whoever made them; the request map changes after the request hook by
   the sets through its object only; and so do Envoy's request headers, unless Envoy changes them between the hooks.
   */
  method Serve(e: Envoy, steps: seq<Between>, requestOrder: seq<string>, responseOrder: seq<string>,
               onRequest: Script, onResponse: Script, limit: nat)
    returns (first: seq<Call>, between: seq<Call>, second: seq<Call>,
             snapshot: map<string, string>, snapshot': map<string, string>, status: Status, status': Status)
    requires e.request != [] && Order(e.request, requestOrder)
    requires e.response != [] && Order(e.response, responseOrder)
    modifies e
    ensures PlayedBy(onRequest, false, first) && PlayedBy(onResponse, true, second)
    ensures |first| < limit ==> !onRequest(Results(first)).Invoke?
    ensures |second| < limit ==> !onResponse(Results(second)).Invoke?
    ensures |first| <= limit && |second| <= limit
    ensures (status == Running <==> |first| == limit) && (status' == Running <==> |second| == limit)
    ensures |first| < limit ==> status == if onRequest(Results(first)) == Finish then Continue else StopIteration
    ensures |second| < limit ==> status' == if onResponse(Results(second)) == Finish then Continue else StopIteration
    ensures Actions(between) == KeptActions(steps)
    ensures AllRight(old(e.request), old(e.response), first + between + second)
    ensures snapshot' == ShadowAfter(snapshot, RequestSets(between + second))
    ensures forall key :: Spelled(RequestSets(first), key) ==>
              Read(snapshot, key) == Current(StoreAfter(old(e.request), RequestSets(first)), key)
    ensures e.request ==
            StoreAfter(RequestAfter(StoreAfter(old(e.request), RequestSets(first)), steps), RequestSets(second))
    ensures OnlyKept(steps) ==> e.request == StoreAfter(old(e.request), RequestSets(first + between + second))
    ensures e.response == StoreAfter(old(e.response), ResponseSets(second))
  {
    hide PlayedBy, Filter.Follows, StoreAfter, ShadowAfter, RequestAfter, RequestSets, ResponseSets, AllRight, Spelled;
    hide NotResponding, Actions, KeptActions, OnlyKept, Current;
    ghost var request0 := e.request;
    var f := new Filter();
    ghost var h, h';
    first, status, h := f.RequestHeaders(e, requestOrder, onRequest, limit);
    PlayedNotResponding(onRequest, first);
    snapshot := f.requestHeaders;
    between := Wait(f, e, steps, h);
    h := h.(calls := first + between);
    BothNotResponding(first, between);
    f.FollowsEmpty(h);
    ghost var waited := f.requestHeaders;
    assert waited == ShadowAfter(snapshot, RequestSets(between)) by {
      f.FollowsSince(h, snapshot, first, between);
    }
    second, status', h' := f.ResponseHeaders(e, responseOrder, onResponse, limit, h);
    snapshot' := f.requestHeaders;
    SetsBoth(between, second);
    AfterBoth([], snapshot, RequestSets(between), RequestSets(second));
    if OnlyKept(steps) {
      AllSets(request0, steps, first, between, second);
    }
  }

  lemma BothNotResponding(first: seq<Call>, between: seq<Call>)
    requires NotResponding(first) && NotResponding(between)
    ensures NotResponding(first + between)
  {}

  /** Without Envoy's changes, Envoy's request headers are the initial ones with all sets of the stream on top. */
  lemma AllSets(request: seq<Header>, steps: seq<Between>, first: seq<Call>, between: seq<Call>, second: seq<Call>)
    requires OnlyKept(steps) && Actions(between) == KeptActions(steps) && NotResponding(between)
    ensures StoreAfter(RequestAfter(StoreAfter(request, RequestSets(first)), steps), RequestSets(second)) ==
            StoreAfter(request, RequestSets(first + between + second))
  {
    hide StoreAfter, RequestSets, ResponseSets, RequestAfter;
    var store := StoreAfter(request, RequestSets(first));
    OnlyKeptSets(store, steps, between);
    SetsBoth(first, between);
    SetsBoth(first + between, second);
    AfterBoth(request, map[], RequestSets(first), RequestSets(between));
    AfterBoth(request, map[], RequestSets(first + between), RequestSets(second));
  }

  /** A response script that sets a header through the kept request object, and then reads it. */
  function SetThenGet(results: seq<Value>): Next {
    if |results| == 0 then Invoke(SetRequestHeader(OfRequest, ["a", "2"]))
    else if |results| == 1 then Invoke(GetRequestHeader(OfResponse, ["a"]))
    else Finish
  }

  lemma OneName(name: string)
    ensures Order([Header(name, "1")], [name])
  {
    assert [Header(name, "1")][0].name == name;
  }

  lemma PlayedAt(script: Script, responding: bool, calls: seq<Call>, i: nat)
    requires PlayedBy(script, responding, calls) && i < |calls|
    ensures calls[i].responding == responding
    ensures script(Results(calls[..i])) == Invoke(calls[i].action) && |Results(calls[..i])| == i
  {}

  lemma SetThenGetCalls(calls: seq<Call>)
    requires PlayedBy(SetThenGet, true, calls) && |calls| <= 3
    requires |calls| < 3 ==> !SetThenGet(Results(calls)).Invoke?
    ensures |calls| == 2 && calls[0].responding && calls[1].responding
    ensures calls[0].action == SetRequestHeader(OfRequest, ["a", "2"])
    ensures calls[1].action == GetRequestHeader(OfResponse, ["a"])
  {
    hide PlayedBy;
    assert |Results(calls)| == |calls|;
    if |calls| > 2 {
      PlayedAt(SetThenGet, true, calls, 2);
    } else {
      if |calls| > 1 {
        PlayedAt(SetThenGet, true, calls, 1);
      }
      if |calls| > 0 {
        PlayedAt(SetThenGet, true, calls, 0);
      }
    }
  }

  lemma SetThenGetSets(calls: seq<Call>, v: string)
    requires |calls| == 2 && calls[0].action == SetRequestHeader(OfRequest, ["a", v])
    requires calls[1].action.GetRequestHeader?
    ensures RequestSets(calls[..1]) == RequestSets(calls) == [("a", v)]
  {
    assert calls[..1][..0] == [] && RequestSets(calls[..1][..0]) == [];
  }

  lemma SetOfA(store: seq<Header>, shadow: map<string, string>, v: string)
    ensures Spelled([], "a") && Spelled([("a", v)], "a")
    ensures Current(StoreAfter(store, [("a", v)]), "a") == v
    ensures Read(ShadowAfter(shadow, [("a", v)]), "a") == v
  {
    assert Lower("a") == "a";
    OneSet(store, shadow, [("a", v)]);
    LookupSet(store, "a", v, "a");
  }

  /**
   A script that keeps the request hook's object and uses it in the response hook: the map and Envoy's request headers
   do change then, and the next get sees it.
   */
  method KeptObjectWrites()
    returns (result: Value, request: seq<Header>, snapshot: map<string, string>, snapshot': map<string, string>)
    ensures result == Text("2") && Current(request, "a") == "2"
    ensures Read(snapshot, "a") == "1" && Read(snapshot', "a") == "2"
  {
    hide RequestAfter, Current, PlayedBy, RequestSets, ResponseSets, StoreAfter, ShadowAfter, Spelled, SetThenGet;
    var store := [Header("a", "1")];
    var e := new Envoy(store, [Header("b", "1")]);
    OneName("a");
    OneName("b");
    var first, between, second, status, status';
    first, between, second, snapshot, snapshot', status, status' :=
      Serve(e, [], ["a"], ["b"], (_: seq<Value>) => Finish, SetThenGet, 3);
    NothingPlayed(first, between);
    SetThenGetCalls(second);
    assert first + between + second == second && between + second == second;
    SetThenGetSets(second, "2");
    SetOfA(store, snapshot, "2");
    ValueOfA();
    assert CallRight(store, RequestSets(second[..1]), [Header("b", "1")], ResponseSets(second[..1]), second[1]);
    result, request := second[1].result, e.request;
  }

  lemma NothingPlayed(first: seq<Call>, between: seq<Call>)
    requires PlayedBy((_: seq<Value>) => Finish, false, first) && Actions(between) == KeptActions([])
    ensures first == [] && between == [] && RequestSets([]) == []
  {
    assert |Actions(between)| == |between|;
    if first != [] {
      PlayedAt((_: seq<Value>) => Finish, false, first, 0);
    }
  }

  lemma ValueOfA()
    ensures StoreAfter([Header("a", "1")], []) == [Header("a", "1")] && Current([Header("a", "1")], "a") == "1"
  {
    assert Lower("a") == "a";
  }

  /** A script that throws at once stops the iteration in either hook; one that ends normally lets it go on. */
  method ThrowingStops(throwFirst: bool) returns (status: Status, status': Status)
    ensures throwFirst ==> status == StopIteration && status' == Continue
    ensures !throwFirst ==> status == Continue && status' == StopIteration
  {
    hide RequestAfter, Current, PlayedBy, RequestSets, ResponseSets, StoreAfter, ShadowAfter, Spelled;
    var e := new Envoy([Header("a", "1")], [Header("b", "1")]);
    OneName("a");
    OneName("b");
    var throws: Script := _ => Fail;
    var ends: Script := _ => Finish;
    var onRequest, onResponse := if throwFirst then throws else ends, if throwFirst then ends else throws;
    var first, between, second, snapshot, snapshot';
    first, between, second, snapshot, snapshot', status, status' :=
      Serve(e, [], ["a"], ["b"], onRequest, onResponse, 1);
    NotPlayed(onRequest, false, first);
    NotPlayed(onResponse, true, second);
  }

  /** A script that makes no call has made none. */
  lemma NotPlayed(script: Script, responding: bool, calls: seq<Call>)
    requires PlayedBy(script, responding, calls) && !script([]).Invoke?
    ensures calls == [] && Results(calls) == []
  {
    if calls != [] {
      PlayedAt(script, responding, calls, 0);
    }
  }

  lemma KeptPair(store: seq<Header>, other: seq<Header>, set_: Action, get: Action, calls: seq<Call>)
    requires Actions(calls) == KeptActions([EnvoySets(other), Kept(set_), Kept(get)])
    requires set_.SetRequestHeader? && get.GetRequestHeader?
    ensures |calls| == 2 && calls[0].action == set_ && calls[1].action == get
    ensures RequestAfter(store, [EnvoySets(other), Kept(set_), Kept(get)]) == StoreAfter(other, RequestSet(set_, false))
  {
    hide StoreAfter, RequestSet;
    var steps := [EnvoySets(other), Kept(set_), Kept(get)];
    assert steps[..2] == [EnvoySets(other), Kept(set_)] && steps[..2][..1] == [EnvoySets(other)];
    assert steps[..2][..1][..0] == [];
    assert KeptActions(steps[..2][..1]) == [];
    assert KeptActions(steps[..2]) == [set_];
    assert KeptActions(steps) == [set_, get];
    assert |calls| == |Actions(calls)| && Actions(calls)[0] == set_ && Actions(calls)[1] == get;
    assert RequestAfter(store, steps[..2]) == StoreAfter(other, RequestSet(set_, false));
    GetSetsNothing(get, StoreAfter(other, RequestSet(set_, false)));
  }

  lemma GetSetsNothing(get: Action, store: seq<Header>)
    requires get.GetRequestHeader?
    ensures StoreAfter(store, RequestSet(get, false)) == store
  {}

  /**
   The time between the hooks, written out: Envoy puts other request headers in place, then a script of another stream
   sets a header through the kept object and reads it. The map and Envoy both have the set.
   */
  method KeptBetween() returns (result: Value, request: seq<Header>, snapshot: map<string, string>)
    ensures result == Text("3") && Current(request, "a") == "3" && Read(snapshot, "a") == "3"
  {
    hide RequestAfter, Current, PlayedBy, RequestSets, ResponseSets, StoreAfter, ShadowAfter, Spelled, Filter.Follows;
    var e := new Envoy([Header("a", "1")], [Header("b", "1")]);
    OneName("a");
    var f := new Filter();
    var first, calls, status;
    ghost var h;
    first, status, h := f.RequestHeaders(e, ["a"], (_: seq<Value>) => Finish, 1);
    NotPlayed((_: seq<Value>) => Finish, false, first);
    var set_, get := SetRequestHeader(OfRequest, ["a", "3"]), GetRequestHeader(OfRequest, ["a"]);
    var other := [Header("c", "1")];
    ghost var before := e.request;
    calls := Wait(f, e, [EnvoySets(other), Kept(set_), Kept(get)], h);
    KeptPair(before, other, set_, get, calls);
    assert h.calls + calls == calls;
    f.FollowsGets(h.(calls := calls));
    SetThenGetSets(calls, "3");
    SetOfA(h.request, h.snapshot, "3");
    SetOfA(other, h.snapshot, "3");
    assert CallRight(h.request, RequestSets(calls[..1]), [], ResponseSets(calls[..1]), calls[1]);
    result, request, snapshot := calls[1].result, e.request, f.requestHeaders;
  }
}
