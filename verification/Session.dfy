/**
 Whole lifecycles: any script of hook calls that destroys each handle once and never uses it afterwards, on the real
 table of addresses and lists, shows each object exactly the calls that a model without pointers says it should see.
 */
module Session {
  import opened Common
  import opened SplitMix
  import opened PinTable
  import opened Lifecycle

  /** A hook call by Envoy. Handles are named by the order in which the calls that returned them were made. */
  datatype Op =
    | ConfigNew(fails: bool)
    | ConfigDestroy(config: nat)
    | FilterNew(config: nat, fails: bool)
    | Event(filter: nat, event: StreamEvent)
    | FilterDestroy(filter: nat)
    | Collect(dead: set<Address>)

  /** What the model without pointers knows of one handle: the calls that reached its object. */
  datatype Life = Absent | Alive(log: seq<Hook>) | Gone(log: seq<Hook>)

  datatype World = World(configs: seq<Life>, filters: seq<Life>)

  predicate IsAlive(lives: seq<Life>, k: nat) {
    k < |lives| && lives[k].Alive?
  }

  /** Envoy's side of the contract: only live handles are used. */
  predicate Legal(w: World, op: Op) {
    match op
    case ConfigNew(_) => true
    case ConfigDestroy(c) => IsAlive(w.configs, c)
    case FilterNew(c, _) => IsAlive(w.configs, c)
    case Event(f, _) => IsAlive(w.filters, f)
    case FilterDestroy(f) => IsAlive(w.filters, f)
    case Collect(_) => true
  }

  function Born(fails: bool): Life {
    if fails then Absent else Alive([])
  }

  function Told(lives: seq<Life>, k: nat, hook: Hook): seq<Life>
    requires IsAlive(lives, k)
  {
    lives[k := Alive(lives[k].log + [hook])]
  }

  function Ended(lives: seq<Life>, k: nat): seq<Life>
    requires IsAlive(lives, k)
  {
    lives[k := Gone(lives[k].log + [Hook.Destroy])]
  }

  function Apply(w: World, op: Op): World
    requires Legal(w, op)
  {
    match op
    case ConfigNew(fails) => w.(configs := w.configs + [Born(fails)])
    case ConfigDestroy(c) => w.(configs := Ended(w.configs, c))
    case FilterNew(c, fails) => World(Told(w.configs, c, NewFilter), w.filters + [Born(fails)])
    case Event(f, event) => w.(filters := Told(w.filters, f, Stream(event)))
    case FilterDestroy(f) => w.(filters := Ended(w.filters, f))
    case Collect(_) => w
  }

  predicate LegalScript(w: World, script: seq<Op>)
    decreases |script|
  {
    script != [] ==> Legal(w, script[0]) && LegalScript(Apply(w, script[0]), script[1..])
  }

  /** Each live handle is in the table, with its own object; `objs` has one for each handle that was given out. */
  ghost predicate Matches<T>(lives: seq<Life>, handles: seq<Address>, objs: seq<Option<T>>, table: map<Address, T>) {
    && |lives| == |handles| == |objs|
    && (forall k :: 0 <= k < |lives| ==> (objs[k].None? <==> lives[k].Absent?))
    && (forall k :: 0 <= k < |lives| && lives[k].Absent? ==> handles[k] == NIL)
    && (forall k :: 0 <= k < |lives| && lives[k].Alive? ==>
          handles[k] in table && table[handles[k]] == objs[k].value)
    && (forall j, k :: 0 <= j < k < |objs| && objs[j].Some? ==> objs[j] != objs[k])
  }

  /** The table holds nothing but live handles. */
  ghost predicate Covered<T>(lives: seq<Life>, handles: seq<Address>, table: map<Address, T>) {
    |lives| == |handles| &&
    forall h :: h in table ==> exists k :: 0 <= k < |lives| && lives[k].Alive? && handles[k] == h
  }

  /** The handles and objects of one kind agree with the model: `table` holds exactly the live ones. */
  ghost predicate Tracks<T>(lives: seq<Life>, handles: seq<Address>, objs: seq<Option<T>>, table: map<Address, T>) {
    Matches(lives, handles, objs, table) && Covered(lives, handles, table)
  }

  /** A handle that stays in the table stays live. */
  lemma CoveredStill<T>(lives: seq<Life>, handles: seq<Address>, table: map<Address, T>, lives': seq<Life>,
                        table': map<Address, T>)
    requires Covered(lives, handles, table) && |lives'| == |lives| && table'.Keys <= table.Keys
    requires forall k :: 0 <= k < |lives| && lives[k].Alive? && handles[k] in table' ==> lives'[k].Alive?
    ensures Covered(lives', handles, table')
  {
    forall h | h in table' ensures exists k :: 0 <= k < |lives'| && lives'[k].Alive? && handles[k] == h {
      var k :| 0 <= k < |lives| && lives[k].Alive? && handles[k] == h;
      assert lives'[k].Alive?;
    }
  }

  lemma CoveredNew<T>(lives: seq<Life>, handles: seq<Address>, table: map<Address, T>, life: Life, handle: Address,
                      table': map<Address, T>)
    requires Covered(lives, handles, table)
    requires forall h :: h in table' ==> h in table || (life.Alive? && h == handle)
    ensures Covered(lives + [life], handles + [handle], table')
  {
    var lives', handles' := lives + [life], handles + [handle];
    forall h | h in table' ensures exists k :: 0 <= k < |lives'| && lives'[k].Alive? && handles'[k] == h {
      if h in table {
        var k :| 0 <= k < |lives| && lives[k].Alive? && handles[k] == h;
        assert lives'[k] == lives[k] && handles'[k] == handles[k];
      } else {
        assert lives'[|lives|] == life && handles'[|lives|] == handle;
      }
    }
  }

  lemma TracksNew<T>(lives: seq<Life>, handles: seq<Address>, objs: seq<Option<T>>, table: map<Address, T>,
                     obj: Option<T>, addr: Address)
    requires Tracks(lives, handles, objs, table) && addr !in table
    requires obj.Some? ==> obj !in objs
    ensures Tracks(lives + [Born(obj.None?)], handles + [if obj.None? then NIL else addr], objs + [obj],
                   if obj.None? then table else table[addr := obj.value])
  {
    hide Covered;
    CoveredNew(lives, handles, table, Born(obj.None?), if obj.None? then NIL else addr,
               if obj.None? then table else table[addr := obj.value]);
  }

  lemma TracksTold<T>(lives: seq<Life>, handles: seq<Address>, objs: seq<Option<T>>, table: map<Address, T>,
                      f: nat, hook: Hook)
    requires Tracks(lives, handles, objs, table) && IsAlive(lives, f)
    ensures Tracks(Told(lives, f, hook), handles, objs, table)
  {
    hide Covered;
    CoveredStill(lives, handles, table, Told(lives, f, hook), table);
  }

  lemma TracksEnded<T>(lives: seq<Life>, handles: seq<Address>, objs: seq<Option<T>>, table: map<Address, T>, f: nat)
    requires Tracks(lives, handles, objs, table) && IsAlive(lives, f)
    ensures Tracks(Ended(lives, f), handles, objs, table - {handles[f]})
  {
    hide Covered;
    var lives', table' := Ended(lives, f), table - {handles[f]};
    forall k | 0 <= k < |lives'| && lives'[k].Alive? ensures handles[k] != handles[f] {
      assert table[handles[k]] == objs[k].value && table[handles[f]] == objs[f].value;
    }
    CoveredStill(lives, handles, table, lives', table');
  }

  function Outcome(w: World, script: seq<Op>): World
    requires LegalScript(w, script)
    decreases |script|
  {
    if script == [] then w else Outcome(Apply(w, script[0]), script[1..])
  }

  lemma TracksAt<T>(lives: seq<Life>, handles: seq<Address>, objs: seq<Option<T>>, table: map<Address, T>, k: nat)
    requires Tracks(lives, handles, objs, table) && IsAlive(lives, k)
    ensures k < |handles| == |objs| && handles[k] in table && objs[k] == Some(table[handles[k]])
    ensures forall j :: 0 <= j < |objs| && j != k ==> objs[j] != objs[k]
  {}

  // ---------------------------------------------------------------------------
  // The outcome, read off the script
  // ---------------------------------------------------------------------------

  /** For each FilterNew of a script, in order, whether it failed: the k-th of them makes filter k. */
  function FilterNews(script: seq<Op>): seq<bool> {
    if script == [] then []
    else
      var n := |script| - 1;
      FilterNews(script[..n]) + if script[n].FilterNew? then [script[n].fails] else []
  }

  function ConfigNews(script: seq<Op>): seq<bool> {
    if script == [] then []
    else
      var n := |script| - 1;
      ConfigNews(script[..n]) + if script[n].ConfigNew? then [script[n].fails] else []
  }

  /** The calls that a script addresses to filter `k`, in order. */
  function FilterCalls(script: seq<Op>, k: nat): seq<Hook> {
    if script == [] then []
    else
      var n := |script| - 1;
      FilterCalls(script[..n], k) +
      if script[n].Event? && script[n].filter == k then [Stream(script[n].event)]
      else if script[n] == Op.FilterDestroy(k) then [Hook.Destroy]
      else []
  }

  /** The calls that a script addresses to configuration `c`, in order. */
  function ConfigCalls(script: seq<Op>, c: nat): seq<Hook> {
    if script == [] then []
    else
      var n := |script| - 1;
      ConfigCalls(script[..n], c) +
      if script[n].FilterNew? && script[n].config == c then [NewFilter]
      else if script[n] == Op.ConfigDestroy(c) then [Hook.Destroy]
      else []
  }

  /** Filter `k` was made and has not been destroyed. */
  predicate FilterLives(script: seq<Op>, k: nat) {
    k < |FilterNews(script)| && !FilterNews(script)[k] && Op.FilterDestroy(k) !in script
  }

  predicate ConfigLives(script: seq<Op>, c: nat) {
    c < |ConfigNews(script)| && !ConfigNews(script)[c] && Op.ConfigDestroy(c) !in script
  }

  /** Envoy may make a call after a script: it uses a live handle, or needs none. */
  predicate MayFollow(script: seq<Op>, op: Op) {
    && (op.ConfigDestroy? ==> ConfigLives(script, op.config))
    && (op.FilterNew? ==> ConfigLives(script, op.config))
    && (op.Event? ==> FilterLives(script, op.filter))
    && (op.FilterDestroy? ==> FilterLives(script, op.filter))
  }

  const NOTHING := World([], [])

  ghost predicate FiltersAsRead(w: World, script: seq<Op>) {
    && |w.filters| == |FilterNews(script)|
    && forall k :: 0 <= k < |w.filters| ==>
         w.filters[k] == if FilterNews(script)[k] then Absent
                         else if Op.FilterDestroy(k) in script then Gone(FilterCalls(script, k))
                         else Alive(FilterCalls(script, k))
  }

  ghost predicate ConfigsAsRead(w: World, script: seq<Op>) {
    && |w.configs| == |ConfigNews(script)|
    && forall c :: 0 <= c < |w.configs| ==>
         w.configs[c] == if ConfigNews(script)[c] then Absent
                         else if Op.ConfigDestroy(c) in script then Gone(ConfigCalls(script, c))
                         else Alive(ConfigCalls(script, c))
  }

  /** Nothing is addressed to a filter before it is made. */
  ghost predicate NoneAhead(script: seq<Op>) {
    && (forall k :: k >= |FilterNews(script)| ==> FilterCalls(script, k) == [] && Op.FilterDestroy(k) !in script)
    && (forall c :: c >= |ConfigNews(script)| ==> ConfigCalls(script, c) == [] && Op.ConfigDestroy(c) !in script)
  }

  lemma ReadLast(script: seq<Op>, op: Op)
    ensures FilterNews(script + [op]) == FilterNews(script) + if op.FilterNew? then [op.fails] else []
    ensures ConfigNews(script + [op]) == ConfigNews(script) + if op.ConfigNew? then [op.fails] else []
    ensures forall k :: FilterCalls(script + [op], k) ==
              FilterCalls(script, k) +
              if op.Event? && op.filter == k then [Stream(op.event)]
              else if op == Op.FilterDestroy(k) then [Hook.Destroy]
              else []
    ensures forall c :: ConfigCalls(script + [op], c) ==
              ConfigCalls(script, c) +
              if op.FilterNew? && op.config == c then [NewFilter]
              else if op == Op.ConfigDestroy(c) then [Hook.Destroy]
              else []
  {
    assert (script + [op])[..|script|] == script;
  }

  /** One more legal call keeps the model's filters as the script says. */
  lemma FiltersAsReadLast(w: World, script: seq<Op>, op: Op)
    requires FiltersAsRead(w, script) && NoneAhead(script) && Legal(w, op)
    ensures FiltersAsRead(Apply(w, op), script + [op])
  {
    hide FilterNews, ConfigNews, FilterCalls, ConfigCalls;
    ReadLast(script, op);
    assert forall k: nat :: Op.FilterDestroy(k) in script + [op] <==>
                            Op.FilterDestroy(k) in script || op == Op.FilterDestroy(k);
  }

  lemma ConfigsAsReadLast(w: World, script: seq<Op>, op: Op)
    requires ConfigsAsRead(w, script) && NoneAhead(script) && Legal(w, op)
    ensures ConfigsAsRead(Apply(w, op), script + [op])
  {
    hide FilterNews, ConfigNews, FilterCalls, ConfigCalls;
    ReadLast(script, op);
    assert forall c: nat :: Op.ConfigDestroy(c) in script + [op] <==>
                            Op.ConfigDestroy(c) in script || op == Op.ConfigDestroy(c);
  }

  lemma NoneAheadLast(w: World, script: seq<Op>, op: Op)
    requires FiltersAsRead(w, script) && ConfigsAsRead(w, script) && NoneAhead(script) && Legal(w, op)
    ensures NoneAhead(script + [op])
  {
    hide FilterNews, ConfigNews, FilterCalls, ConfigCalls;
    ReadLast(script, op);
  }

  lemma LegalIsMayFollow(w: World, script: seq<Op>, op: Op)
    requires FiltersAsRead(w, script) && ConfigsAsRead(w, script)
    ensures Legal(w, op) <==> MayFollow(script, op)
  {
    hide FilterNews, ConfigNews, FilterCalls, ConfigCalls;
  }

  lemma {:induction false} LegalPrefix(w: World, script: seq<Op>, n: nat)
    requires LegalScript(w, script) && n <= |script|
    ensures LegalScript(w, script[..n])
    ensures n < |script| ==> Legal(Outcome(w, script[..n]), script[n])
    decreases |script|
  {
    hide Apply, Legal;
    if n > 0 {
      assert script[..n][0] == script[0] && script[..n][1..] == script[1..][..n - 1];
      LegalPrefix(Apply(w, script[0]), script[1..], n - 1);
    }
  }

  /**
   The outcome of a legal script, read off the script: filter `k` is the one of the k-th FilterNew; it is absent if
   that failed, gone if it was destroyed and alive otherwise; and it has seen exactly the events addressed to it, in
   order, with the destroy at the end. A configuration has seen one NewFilter for each FilterNew that named it.
   */
  lemma {:induction false} OutcomeAsRead(script: seq<Op>)
    requires LegalScript(NOTHING, script)
    ensures FiltersAsRead(Outcome(NOTHING, script), script)
    ensures ConfigsAsRead(Outcome(NOTHING, script), script)
    ensures NoneAhead(script)
    decreases |script|
  {
    if script != [] {
      hide Apply, Legal, LegalScript, Outcome, FiltersAsRead, ConfigsAsRead, NoneAhead;
      var n := |script| - 1;
      var init, op := script[..n], script[n];
      assert script == init + [op];
      LegalPrefix(NOTHING, script, n);
      OutcomeAsRead(init);
      OutcomeExtends(NOTHING, init, op);
      FiltersAsReadLast(Outcome(NOTHING, init), init, op);
      ConfigsAsReadLast(Outcome(NOTHING, init), init, op);
      NoneAheadLast(Outcome(NOTHING, init), init, op);
    }
  }

  lemma OneCall(w: World, script: seq<Op>, w': World)
    requires script != [] && Legal(w, script[0]) && w' == Apply(w, script[0])
    ensures LegalScript(w, script) <==> LegalScript(w', script[1..])
    ensures LegalScript(w, script) ==> Outcome(w, script) == Outcome(w', script[1..])
  {}

  const SCRIPT := [Op.ConfigNew(false), Op.FilterNew(0, false), Op.Event(0, RequestHeaders(true)),
                   Op.FilterNew(0, true), Op.FilterDestroy(0), Op.ConfigDestroy(0)]

  const WORLDS := [
    NOTHING,
    World([Alive([])], []),
    World([Alive([NewFilter])], [Alive([])]),
    World([Alive([NewFilter])], [Alive([Stream(RequestHeaders(true))])]),
    World([Alive([NewFilter, NewFilter])], [Alive([Stream(RequestHeaders(true))]), Absent]),
    World([Alive([NewFilter, NewFilter])], [Gone([Stream(RequestHeaders(true)), Hook.Destroy]), Absent]),
    World([Gone([NewFilter, NewFilter, Hook.Destroy])], [Gone([Stream(RequestHeaders(true)), Hook.Destroy]), Absent])
  ]

  lemma ScriptStep(i: nat)
    requires i < |SCRIPT|
    ensures Legal(WORLDS[i], SCRIPT[i]) && Apply(WORLDS[i], SCRIPT[i]) == WORLDS[i + 1]
  {
    var none: seq<Hook>, headers := [], Stream(RequestHeaders(true));
    if i == 1 {
      assert none + [NewFilter] == [NewFilter];
    } else if i == 2 {
      assert none + [headers] == [headers];
    } else if i == 3 {
      assert [NewFilter] + [NewFilter] == [NewFilter, NewFilter];
    } else if i == 4 {
      assert [headers] + [Hook.Destroy] == [headers, Hook.Destroy];
    } else if i == 5 {
      assert [NewFilter, NewFilter] + [Hook.Destroy] == [NewFilter, NewFilter, Hook.Destroy];
    }
  }

  lemma {:induction false} ScriptFrom(i: nat)
    requires i <= |SCRIPT|
    ensures LegalScript(WORLDS[i], SCRIPT[i..]) && Outcome(WORLDS[i], SCRIPT[i..]) == WORLDS[6]
    decreases |SCRIPT| - i
  {
    if i < |SCRIPT| {
      hide Apply, Legal;
      ScriptFrom(i + 1);
      ScriptStep(i);
      OneCall(WORLDS[i], SCRIPT[i..], WORLDS[i + 1]);
      assert SCRIPT[i..][1..] == SCRIPT[i + 1..];
    }
  }

  /** One script written out, and what its objects see. */
  lemma OneScript()
    ensures var script := [Op.ConfigNew(false), Op.FilterNew(0, false), Op.Event(0, RequestHeaders(true)),
                           Op.FilterNew(0, true), Op.FilterDestroy(0), Op.ConfigDestroy(0)];
            && LegalScript(World([], []), script)
            && Outcome(World([], []), script) ==
               World([Gone([NewFilter, NewFilter, Hook.Destroy])],
                     [Gone([Stream(RequestHeaders(true)), Hook.Destroy]), Absent])
  {
    hide LegalScript, Outcome;
    ScriptFrom(0);
    assert SCRIPT[0..] == SCRIPT;
  }

  /** A script is legal just if every call in it may follow the calls before it. */
  lemma {:induction false} LegalAsRead(script: seq<Op>)
    ensures LegalScript(NOTHING, script) <==> forall i :: 0 <= i < |script| ==> MayFollow(script[..i], script[i])
    decreases |script|
  {
    if script != [] {
      hide Apply, Legal, LegalScript, Outcome, FiltersAsRead, ConfigsAsRead, NoneAhead, MayFollow;
      var n := |script| - 1;
      var init, op := script[..n], script[n];
      assert script == init + [op];
      LegalAsRead(init);
      assert forall i :: 0 <= i < n ==> init[..i] == script[..i] && init[i] == script[i];
      if LegalScript(NOTHING, script) {
        LegalPrefix(NOTHING, script, n);
      }
      if LegalScript(NOTHING, init) {
        OutcomeAsRead(init);
        LegalIsMayFollow(Outcome(NOTHING, init), init, op);
        if MayFollow(init, op) {
          OutcomeExtends(NOTHING, init, op);
        }
      }
    }
  }

  /** The objects have seen the calls that the model lists for them. */
  ghost predicate FilterLogs(objs: seq<Option<HttpFilter>>, lives: seq<Life>)
    reads set k | 0 <= k < |objs| && objs[k].Some? :: objs[k].value
  {
    |objs| == |lives| &&
    forall k :: 0 <= k < |objs| && objs[k].Some? ==> !lives[k].Absent? && objs[k].value.events == lives[k].log
  }

  ghost predicate ConfigLogs(objs: seq<Option<HttpFilterConfig>>, lives: seq<Life>)
    reads set k | 0 <= k < |objs| && objs[k].Some? :: objs[k].value
  {
    |objs| == |lives| &&
    forall k :: 0 <= k < |objs| && objs[k].Some? ==> !lives[k].Absent? && objs[k].value.events == lives[k].log
  }

  class Session {
    const m: Module
    var configHandles: seq<Address>
    var filterHandles: seq<Address>
    ghost var configObjs: seq<Option<HttpFilterConfig>>
    ghost var filterObjs: seq<Option<HttpFilter>>
    ghost var objs: set<object>  // the objects behind the handles, dead or alive

    ghost predicate Linked()
      reads this, m, m.repr, objs
    {
      && m.Valid()
      && this !in m.repr + objs
      && m.repr !! objs
      && (forall k :: 0 <= k < |configObjs| && configObjs[k].Some? ==> configObjs[k].value in objs)
      && (forall k :: 0 <= k < |filterObjs| && filterObjs[k].Some? ==> filterObjs[k].value in objs)
    }

    ghost predicate Valid(w: World)
      reads this, m, m.repr, objs
    {
      && Linked()
      && Tracks(w.configs, configHandles, configObjs, m.configs)
      && Tracks(w.filters, filterHandles, filterObjs, m.filters)
      && ConfigLogs(configObjs, w.configs)
      && FilterLogs(filterObjs, w.filters)
    }

    /** What the objects have seen and which handles are live, as a script says. */
    ghost predicate HasSeen(script: seq<Op>)
      reads this, m, objs
    {
      && |filterObjs| == |filterHandles| == |FilterNews(script)|
      && |configObjs| == |configHandles| == |ConfigNews(script)|
      && (forall k :: 0 <= k < |filterObjs| ==>
            && (filterObjs[k].None? <==> FilterNews(script)[k])
            && (filterObjs[k].Some? ==>
                  filterObjs[k].value in objs && filterObjs[k].value.events == FilterCalls(script, k))
            && (FilterLives(script, k) ==>
                  filterHandles[k] in m.filters && filterObjs[k] == Some(m.filters[filterHandles[k]])))
      && (forall c :: 0 <= c < |configObjs| ==>
            && (configObjs[c].None? <==> ConfigNews(script)[c])
            && (configObjs[c].Some? ==>
                  configObjs[c].value in objs && configObjs[c].value.events == ConfigCalls(script, c))
            && (ConfigLives(script, c) ==>
                  configHandles[c] in m.configs && configObjs[c] == Some(m.configs[configHandles[c]])))
    }

    lemma ValidHasSeen(script: seq<Op>)
      requires LegalScript(NOTHING, script) && Valid(Outcome(NOTHING, script))
      ensures HasSeen(script)
    {
      hide Module.Valid, FilterNews, ConfigNews, FilterCalls, ConfigCalls, Outcome, LegalScript, NoneAhead;
      OutcomeAsRead(script);
    }

    /** When every handle that was given out has been destroyed, every list of the manager is empty. */
    lemma AllDestroyed(w: World)
      requires Valid(w)
      requires forall k :: 0 <= k < |w.filters| ==> !w.filters[k].Alive?
      requires forall k :: 0 <= k < |w.configs| ==> !w.configs[k].Alive?
      ensures m.manager.httpFilterConfigs.nodes == []
      ensures forall list :: list in m.manager.httpFilterLists ==> list.nodes == []
    {
      assert m.filters == map[] && m.configs == map[];
      m.NothingPinned();
    }

    constructor ()
      ensures Valid(NOTHING) && fresh(m.repr) && objs == {}
    {
      configHandles, filterHandles, configObjs, filterObjs, objs := [], [], [], [], {};
      m := new Module();
    }

    method ConfigNew(ghost w: World, config: HttpFilterConfig?, addr: Address)
      requires Valid(w) && m.Free(addr)
      requires config != null ==> config.events == [] && config !in objs + m.repr
      modifies this, m.repr
      ensures Valid(Apply(w, Op.ConfigNew(config == null))) && fresh(m.repr - old(m.repr))
      ensures objs == old(objs) + if config == null then {} else {config}
    {
      hide Module.Valid, Tracks;
      ghost var obj := if config == null then None else Some(config as HttpFilterConfig);
      m.FreeIsUnused(addr);
      TracksNew(w.configs, configHandles, configObjs, m.configs, obj, addr);
      var handle := m.OnHttpFilterConfigNew(config, addr);
      configHandles, configObjs := configHandles + [handle], configObjs + [obj];
      objs := objs + if config == null then {} else {config};
    }

    method ConfigDestroy(ghost w: World, c: nat)
      requires Valid(w) && Legal(w, Op.ConfigDestroy(c))
      modifies m.repr, objs
      ensures Valid(Apply(w, Op.ConfigDestroy(c))) && objs == old(objs) && fresh(m.repr - old(m.repr))
    {
      hide Module.Valid, Tracks;
      TracksAt(w.configs, configHandles, configObjs, m.configs, c);
      TracksEnded(w.configs, configHandles, configObjs, m.configs, c);
      m.OnHttpFilterConfigDestroy(configHandles[c]);
    }

    method CallFilterNew(ghost w: World, c: nat, filter: HttpFilter?, addr: Address) returns (handle: Address)
      requires Valid(w) && IsAlive(w.configs, c) && m.Free(addr)
      requires filter != null ==> filter !in objs + m.repr
      modifies m.repr, objs
      ensures Linked() && fresh(m.repr - old(m.repr)) && (filter != null ==> filter !in m.repr)
      ensures handle == if filter == null then NIL else addr
      ensures m.filters == if filter == null then old(m.filters) else old(m.filters)[addr := filter]
      ensures m.configs == old(m.configs)
      ensures ConfigLogs(configObjs, Told(w.configs, c, NewFilter)) && FilterLogs(filterObjs, w.filters)
    {
      hide Module.Valid, Tracks;
      TracksAt(w.configs, configHandles, configObjs, m.configs, c);
      handle := m.OnHttpFilterNew(configHandles[c], filter, addr);
    }

    method FilterNew(ghost w: World, c: nat, filter: HttpFilter?, addr: Address)
      requires Valid(w) && Legal(w, Op.FilterNew(c, filter == null)) && m.Free(addr)
      requires filter != null ==> filter.events == [] && filter !in objs + m.repr
      modifies this, m.repr, objs
      ensures Valid(Apply(w, Op.FilterNew(c, filter == null))) && fresh(m.repr - old(m.repr))
      ensures objs == old(objs) + if filter == null then {} else {filter}
    {
      hide Module.Valid, Tracks, ConfigLogs;
      ghost var obj := if filter == null then None else Some(filter as HttpFilter);
      m.FreeIsUnused(addr);
      TracksTold(w.configs, configHandles, configObjs, m.configs, c, NewFilter);
      TracksNew(w.filters, filterHandles, filterObjs, m.filters, obj, addr);
      var handle := CallFilterNew(w, c, filter, addr);
      filterHandles, filterObjs := filterHandles + [handle], filterObjs + [obj];
      objs := objs + if filter == null then {} else {filter};
    }

    method FilterDestroy(ghost w: World, f: nat)
      requires Valid(w) && Legal(w, Op.FilterDestroy(f))
      modifies m.repr, objs
      ensures Valid(Apply(w, Op.FilterDestroy(f))) && objs == old(objs) && fresh(m.repr - old(m.repr))
    {
      hide Module.Valid, Tracks;
      TracksAt(w.filters, filterHandles, filterObjs, m.filters, f);
      TracksEnded(w.filters, filterHandles, filterObjs, m.filters, f);
      m.OnHttpFilterDestroy(filterHandles[f]);
    }

    method Collect(ghost w: World, dead: set<Address>)
      requires Valid(w)
      modifies m.repr
      ensures Valid(w) && objs == old(objs) && fresh(m.repr - old(m.repr))
    {
      hide Module.Valid, Tracks;
      m.Collect(dead);
    }

    method Event(ghost w: World, f: nat, event: StreamEvent)
      requires Valid(w) && Legal(w, Op.Event(f, event))
      modifies m.repr, objs
      ensures Valid(Apply(w, Op.Event(f, event))) && objs == old(objs) && fresh(m.repr - old(m.repr))
    {
      hide Module.Valid, Tracks;
      TracksAt(w.filters, filterHandles, filterObjs, m.filters, f);
      TracksTold(w.filters, filterHandles, filterObjs, m.filters, f, Stream(event));
      m.OnHttpFilterEvent(filterHandles[f], event);
    }
  }

  /**
   Runs a legal script from the start: every object has then seen exactly the calls that the script addresses to it, in
   order, and the handle of an object that was made and not destroyed leads to that object. `addresses` are what the
   allocator returns, in order; the run stops early only when the next of them is not free, that is, when the allocator
   has failed to find memory.
   */
  method Run(script: seq<Op>, addresses: seq<Address>) returns (s: Session, done: nat)
    requires LegalScript(NOTHING, script)
    ensures done <= |script| && LegalScript(NOTHING, script[..done])
    ensures s.Valid(Outcome(NOTHING, script[..done]))
    ensures s.HasSeen(script[..done])
    ensures forall k :: 0 <= k < |s.filterObjs| && s.filterObjs[k].Some? ==>
              s.filterObjs[k].value.events == FilterCalls(script[..done], k)
    ensures forall c :: 0 <= c < |s.configObjs| && s.configObjs[c].Some? ==>
              s.configObjs[c].value.events == ConfigCalls(script[..done], c)
    ensures done < |script| ==>
              (script[done].ConfigNew? || script[done].FilterNew?) &&
              (done >= |addresses| || !s.m.Free(addresses[done]))
  {
    hide Session.Valid, Apply, Legal, LegalScript, Outcome;
    s := new Session();
    ghost var start := NOTHING;
    ghost var w := start;
    done := 0;
    NothingRun(start, script);
    while done < |script|
      invariant done <= |script| && LegalScript(w, script[done..])
      invariant LegalScript(start, script[..done]) && w == Outcome(start, script[..done])
      invariant s.Valid(w) && fresh(s) && fresh(s.m.repr) && fresh(s.objs)
    {
      var op := script[done];
      if (op.ConfigNew? || op.FilterNew?) && (done >= |addresses| || !s.m.Free(addresses[done])) {
        s.ValidHasSeen(script[..done]);
        return;
      }
      OneMoreRun(start, script, done, w);
      Execute(s, w, op, if done < |addresses| then addresses[done] else NIL);
      w := Apply(w, op);
      done := done + 1;
    }
    s.ValidHasSeen(script[..done]);
  }

  lemma NothingRun(start: World, script: seq<Op>)
    ensures script[0..] == script && LegalScript(start, script[..0]) && Outcome(start, script[..0]) == start
  {}

  lemma OneMoreRun(start: World, script: seq<Op>, done: nat, w: World)
    requires done < |script| && LegalScript(w, script[done..])
    requires LegalScript(start, script[..done]) && w == Outcome(start, script[..done])
    ensures Legal(w, script[done]) && LegalScript(Apply(w, script[done]), script[done + 1..])
    ensures LegalScript(start, script[..done + 1])
    ensures Apply(w, script[done]) == Outcome(start, script[..done + 1])
  {
    OutcomeExtends(start, script[..done], script[done]);
    assert script[..done + 1] == script[..done] + [script[done]];
    assert script[done..][1..] == script[done + 1..];
  }

  lemma {:induction false} OutcomeExtends(w: World, script: seq<Op>, op: Op)
    requires LegalScript(w, script) && Legal(Outcome(w, script), op)
    ensures LegalScript(w, script + [op]) && Outcome(w, script + [op]) == Apply(Outcome(w, script), op)
    decreases |script|
  {
    if script == [] {
      assert (script + [op])[1..] == [];
    } else {
      assert (script + [op])[1..] == script[1..] + [op];
      OutcomeExtends(Apply(w, script[0]), script[1..], op);
    }
  }

  method Execute(s: Session, ghost w: World, op: Op, addr: Address)
    requires s.Valid(w) && Legal(w, op)
    requires op.ConfigNew? || op.FilterNew? ==> s.m.Free(addr)
    modifies s, s.m.repr, s.objs
    ensures s.Valid(Apply(w, op)) && fresh(s.m.repr - old(s.m.repr)) && fresh(s.objs - old(s.objs))
  {
    hide Session.Valid;
    match op
    case ConfigNew(fails) =>
      var config: HttpFilterConfig? := null;
      if !fails {
        config := new HttpFilterConfig();
      }
      s.ConfigNew(w, config, addr);
    case ConfigDestroy(c) => s.ConfigDestroy(w, c);
    case FilterNew(c, fails) =>
      var filter: HttpFilter? := null;
      if !fails {
        filter := new HttpFilter();
      }
      s.FilterNew(w, c, filter, addr);
    case Event(f, event) => s.Event(w, f, event);
    case FilterDestroy(f) => s.FilterDestroy(w, f);
    case Collect(dead) => s.Collect(w, dead);
  }
}
