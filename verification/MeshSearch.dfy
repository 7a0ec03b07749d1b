/**
 Mesh searches (whip/AssetSearch.cpp, whip/MeshServer.cpp, whip/MeshStorageBackend.cpp): a
 search asks every readable peer, each peer keeps a table of the searches waiting on it by
 id, and the first positive answer, the last negative one or a timeout ends the search.
 Peer links stay up throughout.
 */
module MeshSearch {
  type Server = nat

  /** What a search's callback is told. */
  datatype Told = Exists | NotFound | Delivered(got: bool)

  datatype Search = Search(
    uuid: string,
    full: bool,               // _fullCallBack rather than _testCallBack
    queried: set<Server>,     // _queriedServers
    timer: bool,              // _timeoutTimer is armed
    wasFound: bool,           // _wasFound
    fetching: bool,           // getAsset is outstanding on the server that has it
    told: seq<Told>,          // the callbacks made
    complete: bool,           // markSearchComplete was called
    asked: set<Server>,       // history: the servers the search went to
    denied: set<Server>,      // history: the servers that said no
    confirmed: bool,          // history: a server said yes
    expired: bool)            // history: the timer fired

  type Table = map<string, set<nat>>

  datatype Mesh = Mesh(
    searches: seq<Search>,          // a search is named by its place here
    tables: map<Server, Table>,     // _currentSearches of every peer
    active: set<nat>,               // _activeSearches
    warnings: nat)                  // "already found" and "UUID doesnt match" messages

  datatype Event =
    | Begin(uuid: string, full: bool, eligible: set<Server>)
    | Respond(server: Server, uuid: string, found: bool, order: seq<nat>)
    | Fetched(search: nat, got: bool)
    | Timeout(search: nat)

  // ----- table operations -----

  function Waiting(m: Mesh, v: Server, u: string): set<nat> {
    if v in m.tables && u in m.tables[v] then m.tables[v][u] else {}
  }

  /** MeshServer::search: join the set for the id, or start it. */
  function Joined(t: Table, u: string, s: nat): Table {
    t[u := (if u in t then t[u] else {}) + {s}]
  }

  /** MeshServer::cancelSearch: leave the set for the id, and drop it when empty. */
  function Left(t: Table, u: string, s: nat): Table {
    if u !in t then t
    else if t[u] - {s} == {} then t - {u}
    else t[u := t[u] - {s}]
  }

  /** A search joins the set for its id at some of the servers. */
  function Entered(tables: map<Server, Table>, chosen: set<Server>, u: string, s: nat): map<Server, Table> {
    map v | v in tables :: if v in chosen then Joined(tables[v], u, s) else tables[v]
  }

  /** A search leaves its set at some of the servers. */
  function Cleared(tables: map<Server, Table>, gone: set<Server>, u: string, s: nat): map<Server, Table> {
    map v | v in tables :: if v in gone then Left(tables[v], u, s) else tables[v]
  }

  /** The peers that are up and readable. */
  function Eligible(visited: seq<Server>, up: set<Server>): set<Server> {
    set v | v in visited && v in up
  }

  // ----- one search -----

  function NegativeAnswer(full: bool): Told {
    if full then Delivered(false) else NotFound
  }

  /** A callback, then markSearchComplete. */
  function Ended(x: Search, told: Told): Search {
    x.(told := x.told + [told], complete := true)
  }

  /** AssetSearch::performSearch */
  function Started(u: string, full: bool, eligible: set<Server>): Search {
    var x := Search(u, full, eligible, eligible != {}, false, false, [], false, eligible, {}, false, false);
    if eligible == {} then Ended(x, NegativeAnswer(full)) else x
  }

  /** serverCompleted, and the history of the answer. */
  function Noted(x: Search, v: Server, found: bool): Search {
    x.(queried := x.queried - {v},
       confirmed := x.confirmed || found,
       denied := if found then x.denied else x.denied + {v})
  }

  /** The positive branch of AssetSearch::onSearchResult. */
  function Positive(x: Search): Search {
    var y := x.(timer := false, queried := {});
    if x.full then y.(wasFound := true, fetching := true) else Ended(y, Exists)
  }

  /** The negative branch. */
  function Negative(x: Search): Search {
    if x.queried == {} then Ended(x.(timer := false), NegativeAnswer(x.full)) else x
  }

  function Answered(x: Search, v: Server, found: bool): Search {
    var y := Noted(x, v, found);
    if found then Positive(y) else Negative(y)
  }

  /** AssetSearch::onTimeout */
  function Expired(x: Search): Search {
    var y := x.(timer := false, expired := true);
    if x.wasFound then y else Ended(y.(queried := {}), NegativeAnswer(x.full))
  }

  /** AssetSearch::onFullAssetRcvd */
  function Received(x: Search, got: bool): Search {
    Ended(x.(fetching := false), Delivered(got))
  }

  // ----- the steps -----

  /** A search's record is replaced; one that called back is no longer active. */
  function With(m: Mesh, s: nat, x: Search, tables: map<Server, Table>): Mesh
    requires s < |m.searches|
  {
    m.(searches := m.searches[s := x],
       active := if |m.searches[s].told| < |x.told| then m.active - {s} else m.active,
       tables := tables)
  }

  function ApplyBegin(m: Mesh, u: string, full: bool, eligible: set<Server>): Mesh {
    var s := |m.searches|;
    var x := Started(u, full, eligible);
    m.(searches := m.searches + [x],
       active := if x.complete then m.active - {s} else m.active + {s},
       tables := Entered(m.tables, eligible, u, s))
  }

  /** The tables after an answer: the search leaves the answering server, and on a positive answer all others. */
  function TablesAfter(m: Mesh, v: Server, u: string, s: nat, found: bool): map<Server, Table>
    requires s < |m.searches|
  {
    var x, t := m.searches[s], Cleared(m.tables, {v}, u, s);
    if found then Cleared(t, x.queried - {v}, x.uuid, s) else t
  }

  /** One waiting search hears an answer, after the two checks that log a warning. */
  function Result(m: Mesh, v: Server, u: string, s: nat, found: bool): Mesh
    requires s < |m.searches|
  {
    var x := m.searches[s];
    With(m, s, Answered(x, v, found), TablesAfter(m, v, u, s, found))
      .(warnings := m.warnings + (if x.wasFound then 1 else 0) + (if x.uuid != u then 1 else 0))
  }

  /** MeshServer::postResponse: every waiting search, one after the other. */
  function ApplyRespond(m: Mesh, v: Server, u: string, found: bool, order: seq<nat>): Mesh
    requires forall i :: 0 <= i < |order| ==> order[i] < |m.searches|
    decreases |order|
  {
    if order == [] then m else ApplyRespond(Result(m, v, u, order[0], found), v, u, found, order[1..])
  }

  function ApplyFetched(m: Mesh, s: nat, got: bool): Mesh
    requires s < |m.searches|
  {
    With(m, s, Received(m.searches[s], got), m.tables)
  }

  function ApplyTimeout(m: Mesh, s: nat): Mesh
    requires s < |m.searches|
  {
    var x := m.searches[s];
    With(m, s, Expired(x), if x.wasFound then m.tables else Cleared(m.tables, x.queried, x.uuid, s))
  }

  /** Searches go to known peers; an answer reaches everyone waiting for it, each once. */
  predicate Enabled(m: Mesh, e: Event) {
    match e
    case Begin(_, _, eligible) => eligible <= m.tables.Keys
    case Respond(v, u, _, order) =>
      && (forall i :: 0 <= i < |order| ==> order[i] < |m.searches|)
      && (forall i, j :: 0 <= i < j < |order| ==> order[i] != order[j])
      && (set s | s in order) == Waiting(m, v, u)
    case Fetched(s, _) => s < |m.searches| && m.searches[s].fetching
    case Timeout(s) => s < |m.searches| && m.searches[s].timer
  }

  function Apply(m: Mesh, e: Event): Mesh
    requires Enabled(m, e)
  {
    match e
    case Begin(u, full, eligible) => ApplyBegin(m, u, full, eligible)
    case Respond(v, u, found, order) => ApplyRespond(m, v, u, found, order)
    case Fetched(s, got) => ApplyFetched(m, s, got)
    case Timeout(s) => ApplyTimeout(m, s)
  }

  // ----- the invariant -----

  /** A search waits at a server under an id exactly when it is for that id and has the server in its queried set. */
  ghost predicate TablesOk(m: Mesh) {
    && (forall v, u, s: nat :: s in Waiting(m, v, u) <==> WaitsAt(m, v, u, s))
    && (forall v, u :: v in m.tables && u in m.tables[v] ==> m.tables[v][u] != {})
  }

  predicate WaitsAt(m: Mesh, v: Server, u: string, s: nat) {
    v in m.tables && s < |m.searches| && m.searches[s].uuid == u && v in m.searches[s].queried
  }

  /** Searching with a timer, fetching, or done with one callback that tells the truth. */
  predicate SearchOk(x: Search) {
    && x.denied <= x.asked
    && (if x.complete then x.queried == {} && !x.timer && !x.fetching && |x.told| == 1 && Truthful(x, x.told[0])
        else if x.wasFound then x.told == [] && x.full && x.fetching && x.queried == {} && !x.timer && x.confirmed
        else x.told == [] && !x.fetching && x.queried != {} && x.timer && x.queried == x.asked - x.denied)
  }

  /** A positive answer comes from a server; a negative one from all of them, the timer, or a failed fetch. */
  predicate Truthful(x: Search, told: Told) {
    match told
    case Exists => !x.full && x.confirmed
    case NotFound => !x.full && (x.denied == x.asked || x.expired)
    case Delivered(got) => x.full && (if got then x.confirmed else x.confirmed || x.denied == x.asked || x.expired)
  }

  ghost predicate SearchesOk(m: Mesh) {
    && (forall s: nat :: s < |m.searches| ==> SearchOk(m.searches[s]) && m.searches[s].queried <= m.tables.Keys)
    && (forall s: nat :: s in m.active <==> s < |m.searches| && !m.searches[s].complete)
  }

  ghost predicate MeshInv(m: Mesh) {
    TablesOk(m) && SearchesOk(m) && m.warnings == 0
  }

  // ----- every step keeps it -----

  /** The queried set shrinks and the tables with it. */
  lemma LeavingKeepsTables(m: Mesh, s: nat, gone: set<Server>, x: Search)
    requires TablesOk(m) && s < |m.searches|
    requires x.uuid == m.searches[s].uuid && x.queried == m.searches[s].queried - gone
    ensures TablesOk(With(m, s, x, Cleared(m.tables, gone, x.uuid, s)))
  {
    var u := x.uuid;
    var m' := With(m, s, x, Cleared(m.tables, gone, u, s));
    forall v, y, r: nat
      ensures r in Waiting(m', v, y) <==> WaitsAt(m', v, y, r)
    {
      assert Waiting(m', v, y) == if v in gone && y == u then Waiting(m, v, y) - {s} else Waiting(m, v, y);
      assert r in Waiting(m, v, y) <==> WaitsAt(m, v, y, r);
    }
  }

  lemma JoiningKeepsTables(m: Mesh, u: string, full: bool, eligible: set<Server>)
    requires TablesOk(m) && eligible <= m.tables.Keys
    ensures TablesOk(ApplyBegin(m, u, full, eligible))
  {
    var s := |m.searches|;
    var m' := ApplyBegin(m, u, full, eligible);
    forall v, y, r: nat
      ensures r in Waiting(m', v, y) <==> WaitsAt(m', v, y, r)
    {
      assert Waiting(m', v, y) == if v in eligible && y == u then Waiting(m, v, y) + {s} else Waiting(m, v, y);
      assert r in Waiting(m, v, y) <==> WaitsAt(m, v, y, r);
    }
  }

  lemma BeginKeepsInv(m: Mesh, u: string, full: bool, eligible: set<Server>)
    requires MeshInv(m) && eligible <= m.tables.Keys
    ensures MeshInv(ApplyBegin(m, u, full, eligible))
  {
    JoiningKeepsTables(m, u, full, eligible);
    hide TablesOk, Joined;
  }

  /** One search's record changes, and its queried set does not grow. */
  lemma OneSearchKeepsOk(m: Mesh, s: nat, x: Search, tables: map<Server, Table>)
    requires SearchesOk(m) && s < |m.searches| && s in m.active && tables.Keys == m.tables.Keys
    requires SearchOk(x) && x.queried <= m.searches[s].queried
    ensures SearchesOk(With(m, s, x, tables))
  {
    assert SearchOk(m.searches[s]);
    assert x.complete <==> |m.searches[s].told| < |x.told|;
    hide SearchOk;
    var m' := With(m, s, x, tables);
    assert forall r: nat :: r < |m.searches| && r != s ==> m'.searches[r] == m.searches[r];
  }

  /** Leaving the answering server first and the others after is leaving them all at once. */
  lemma ClearedTwice(tables: map<Server, Table>, v: Server, others: set<Server>, u: string, s: nat)
    requires v !in others
    ensures Cleared(Cleared(tables, {v}, u, s), others, u, s) == Cleared(tables, {v} + others, u, s)
  {
  }

  lemma AnsweredShape(x: Search, v: Server, found: bool)
    requires v in x.queried
    ensures Answered(x, v, found).uuid == x.uuid
    ensures Answered(x, v, found).queried == x.queried - (if found then x.queried else {v})
  {
  }

  lemma ResultKeepsTables(m: Mesh, v: Server, u: string, s: nat, found: bool)
    requires TablesOk(m) && s < |m.searches| && m.searches[s].uuid == u && v in m.searches[s].queried
    ensures TablesOk(Result(m, v, u, s, found))
  {
    hide TablesOk, Waiting, Left, Cleared, Answered;
    var x := m.searches[s];
    var gone := if found then x.queried else {v};
    AnsweredShape(x, v, found);
    ClearedTwice(m.tables, v, x.queried - {v}, u, s);
    assert {v} + (x.queried - {v}) == x.queried;
    var m' := With(m, s, Answered(x, v, found), Cleared(m.tables, gone, u, s));
    LeavingKeepsTables(m, s, gone, Answered(x, v, found));
    assert Result(m, v, u, s, found) == m'.(warnings := Result(m, v, u, s, found).warnings);
    WarningsDoNotMatter(m', Result(m, v, u, s, found).warnings);
  }

  lemma WarningsDoNotMatter(m: Mesh, warnings: nat)
    requires TablesOk(m)
    ensures TablesOk(m.(warnings := warnings))
  {
    var m' := m.(warnings := warnings);
    forall v, y, r: nat
      ensures r in Waiting(m', v, y) <==> WaitsAt(m', v, y, r)
    {
      assert r in Waiting(m, v, y) <==> WaitsAt(m, v, y, r);
    }
  }

  lemma ResultKeepsInv(m: Mesh, v: Server, u: string, s: nat, found: bool)
    requires MeshInv(m) && s in Waiting(m, v, u)
    ensures s < |m.searches| && MeshInv(Result(m, v, u, s, found))
    ensures Waiting(Result(m, v, u, s, found), v, u) == Waiting(m, v, u) - {s}
    ensures |Result(m, v, u, s, found).searches| == |m.searches|
  {
    assert WaitsAt(m, v, u, s);
    var x := m.searches[s];
    assert SearchOk(x);
    ResultKeepsTables(m, v, u, s, found);
    OneSearchKeepsOk(m, s, Answered(x, v, found), TablesAfter(m, v, u, s, found));
    var m' := Result(m, v, u, s, found);
    hide SearchOk, Left, Waiting, Answered;
    forall r: nat
      ensures r in Waiting(m', v, u) <==> r in Waiting(m, v, u) - {s}
    {
      assert r in Waiting(m, v, u) <==> WaitsAt(m, v, u, r);
      assert r in Waiting(m', v, u) <==> WaitsAt(m', v, u, r);
    }
  }

  /** Each search is told of an answer while it still waits for it. */
  lemma {:induction false} RespondKeepsInv(m: Mesh, v: Server, u: string, found: bool, order: seq<nat>)
    requires MeshInv(m) && Enabled(m, Respond(v, u, found, order))
    ensures MeshInv(ApplyRespond(m, v, u, found, order))
    ensures Waiting(ApplyRespond(m, v, u, found, order), v, u) == {}
    decreases |order|
  {
    hide MeshInv, Result, Waiting;
    if order == [] {
    } else {
      assert order[0] in order;
      ResultKeepsInv(m, v, u, order[0], found);
      var m' := Result(m, v, u, order[0], found);
      var rest := order[1..];
      assert order == [order[0]] + rest;
      assert (set s | s in rest) == (set s | s in order) - {order[0]};
      RespondKeepsInv(m', v, u, found, rest);
    }
  }

  lemma FetchedKeepsInv(m: Mesh, s: nat, got: bool)
    requires MeshInv(m) && Enabled(m, Fetched(s, got))
    ensures MeshInv(ApplyFetched(m, s, got))
  {
    var x := m.searches[s];
    assert SearchOk(x);
    LeavingKeepsTables(m, s, {}, Received(x, got));
    assert Cleared(m.tables, {}, x.uuid, s) == m.tables;
    OneSearchKeepsOk(m, s, Received(x, got), m.tables);
  }

  lemma TimeoutKeepsInv(m: Mesh, s: nat)
    requires MeshInv(m) && Enabled(m, Timeout(s))
    ensures MeshInv(ApplyTimeout(m, s))
  {
    var x := m.searches[s];
    assert SearchOk(x);
    LeavingKeepsTables(m, s, x.queried, Expired(x));
    OneSearchKeepsOk(m, s, Expired(x), Cleared(m.tables, x.queried, x.uuid, s));
  }

  lemma StepKeepsInv(m: Mesh, e: Event)
    requires MeshInv(m) && Enabled(m, e)
    ensures MeshInv(Apply(m, e))
  {
    match e
    case Begin(u, full, eligible) => BeginKeepsInv(m, u, full, eligible);
    case Respond(v, u, found, order) => RespondKeepsInv(m, v, u, found, order);
    case Fetched(s, got) => FetchedKeepsInv(m, s, got);
    case Timeout(s) => TimeoutKeepsInv(m, s);
  }

  // ----- whole runs -----

  predicate Possible(m: Mesh, events: seq<Event>)
    decreases |events|
  {
    events == [] || (Enabled(m, events[0]) && Possible(Apply(m, events[0]), events[1..]))
  }

  function Run(m: Mesh, events: seq<Event>): Mesh
    requires Possible(m, events)
    decreases |events|
  {
    if events == [] then m else Run(Apply(m, events[0]), events[1..])
  }

  lemma {:induction false} RunKeepsInv(m: Mesh, events: seq<Event>)
    requires MeshInv(m) && Possible(m, events)
    ensures MeshInv(Run(m, events))
    decreases |events|
  {
    if events == [] {
    } else {
      StepKeepsInv(m, events[0]);
      RunKeepsInv(Apply(m, events[0]), events[1..]);
    }
  }

  function Connected(servers: set<Server>): Mesh {
    Mesh([], map v | v in servers :: map[], {}, 0)
  }

  /**
   In every run from an idle mesh: a search is in a server's table under its id exactly when
   the server is in its queried set, the two warnings are never logged, a search still active
   has called nobody back, and one that is done has called back once, with an answer its
   servers or its timer gave.
   */
  lemma SearchesAreAnswered(servers: set<Server>, events: seq<Event>)
    requires Possible(Connected(servers), events)
    ensures
      var m := Run(Connected(servers), events);
      && m.warnings == 0
      && (forall v, u, s: nat :: s in Waiting(m, v, u) <==> WaitsAt(m, v, u, s))
      && (forall s: nat :: s < |m.searches| ==>
            if s in m.active then m.searches[s].told == []
            else |m.searches[s].told| == 1 && Truthful(m.searches[s], m.searches[s].told[0]))
  {
    RunKeepsInv(Connected(servers), events);
    var m := Run(Connected(servers), events);
    forall s: nat | s < |m.searches|
      ensures
        if s in m.active then m.searches[s].told == []
        else |m.searches[s].told| == 1 && Truthful(m.searches[s], m.searches[s].told[0])
    {
      assert SearchOk(m.searches[s]);
    }
  }

  /** An active search can always be ended: by its timer while it asks, by the fetch after. */
  lemma NoSearchIsStuck(m: Mesh, s: nat)
    requires MeshInv(m) && s in m.active
    ensures Enabled(m, Timeout(s)) || Enabled(m, Fetched(s, false))
    ensures Enabled(m, Timeout(s)) ==> s !in Apply(m, Timeout(s)).active
    ensures forall got :: Enabled(m, Fetched(s, got)) ==> s !in Apply(m, Fetched(s, got)).active
  {
    assert SearchOk(m.searches[s]);
  }

  /** onSearchResult itself, which leaves the answering server's table to postResponse. */
  function Heard(m: Mesh, v: Server, u: string, s: nat, found: bool): Mesh
    requires s < |m.searches|
  {
    var x := m.searches[s];
    With(m, s, Answered(x, v, found), if found then Cleared(m.tables, x.queried - {v}, x.uuid, s) else m.tables)
      .(warnings := m.warnings + (if x.wasFound then 1 else 0) + (if x.uuid != u then 1 else 0))
  }

  /** The warnings and serverCompleted come first, then one of the two branches. */
  lemma HeardInSteps(m: Mesh, v: Server, u: string, s: nat, found: bool)
    requires s < |m.searches|
    ensures
      var m1 := Warned(m, v, u, s, found);
      var x := m1.searches[s];
      Heard(m, v, u, s, found)
      == if found then With(m1, s, Positive(x), Cleared(m1.tables, x.queried, x.uuid, s))
         else With(m1, s, Negative(x), m1.tables)
  {
    hide Cleared, Positive, Negative;
    var x := m.searches[s];
    assert m.searches[s := Noted(x, v, found)][s := Answered(x, v, found)] == m.searches[s := Answered(x, v, found)];
  }

  function Warned(m: Mesh, v: Server, u: string, s: nat, found: bool): (r: Mesh)
    requires s < |m.searches|
    ensures s < |r.searches| && r.searches[s].queried <= m.searches[s].queried && r.tables == m.tables
  {
    var x := m.searches[s];
    m.(searches := m.searches[s := Noted(x, v, found)],
       warnings := m.warnings + (if x.wasFound then 1 else 0) + (if x.uuid != u then 1 else 0))
  }

  function Holding(m: Mesh, v: Server, t: Table): Mesh {
    m.(tables := m.tables[v := t])
  }

  /** Whatever the answering server's table still holds, the rest of the mesh goes the same way. */
  lemma HeardIsResult(m: Mesh, v: Server, t: Table, u: string, s: nat, found: bool)
    requires s < |m.searches| && v in m.tables
    ensures Heard(Holding(m, v, t), v, u, s, found) == Holding(Result(m, v, u, s, found), v, t)
  {
    hide Answered, Left;
    var x := m.searches[s];
    if found {
      assert Cleared(m.tables[v := t], x.queried - {v}, x.uuid, s) == TablesAfter(m, v, u, s, found)[v := t];
    } else {
      assert m.tables[v := t] == TablesAfter(m, v, u, s, found)[v := t];
    }
  }

  lemma {:induction false} RespondSnoc(m: Mesh, v: Server, u: string, found: bool, order: seq<nat>, s: nat)
    requires forall i :: 0 <= i < |order| ==> order[i] < |m.searches|
    requires s < |m.searches|
    ensures |ApplyRespond(m, v, u, found, order).searches| == |m.searches|
    ensures ApplyRespond(m, v, u, found, order + [s])
         == Result(ApplyRespond(m, v, u, found, order), v, u, s, found)
    decreases |order|
  {
    if order == [] {
    } else {
      assert (order + [s])[1..] == order[1..] + [s];
      RespondSnoc(Result(m, v, u, order[0], found), v, u, found, order[1..], s);
    }
  }

  /** Part of the way through an answer: `order` has heard it, `todo` has not. */
  ghost predicate PartlyTold(
    before: Mesh, m: Mesh, v: Server, u: string, found: bool, order: seq<nat>, todo: set<nat>)
  {
    && MeshInv(m) && v in m.tables && v in before.tables
    && Waiting(m, v, u) == todo && m.tables[v] - {u} == before.tables[v] - {u}
    && |m.searches| == |before.searches|
    && (forall i :: 0 <= i < |order| ==> order[i] < |before.searches| && order[i] !in todo)
    && (forall i, j :: 0 <= i < j < |order| ==> order[i] != order[j])
    && (set s | s in order) + todo == Waiting(before, v, u)
    && m == ApplyRespond(before, v, u, found, order)
  }

  lemma StartTelling(m: Mesh, v: Server, u: string, found: bool)
    requires MeshInv(m) && v in m.tables
    ensures PartlyTold(m, m, v, u, found, [], if u in m.tables[v] then m.tables[v][u] else {})
  {
  }

  lemma TellOne(
    before: Mesh, m: Mesh, v: Server, u: string, found: bool, order: seq<nat>, todo: set<nat>, s: nat)
    requires PartlyTold(before, m, v, u, found, order, todo) && s in todo
    ensures s < |m.searches| && m.searches[s].queried <= m.tables.Keys && v in m.tables
    ensures v in Result(m, v, u, s, found).tables
    ensures PartlyTold(before, Result(m, v, u, s, found), v, u, found, order + [s], todo - {s})
  {
    hide MeshInv, Result, Waiting, ApplyRespond;
    WaitingIsKnown(m, v, u, s);
    RespondSnoc(before, v, u, found, order, s);
    ResultAtServer(m, v, u, s, found);
    ResultKeepsInv(m, v, u, s, found);
    assert (set r | r in order + [s]) == (set r | r in order) + {s};
  }

  lemma WaitingIsKnown(m: Mesh, v: Server, u: string, s: nat)
    requires MeshInv(m) && s in Waiting(m, v, u)
    ensures s < |m.searches| && m.searches[s].queried <= m.tables.Keys
  {
    assert WaitsAt(m, v, u, s);
  }

  /** When everyone has heard, dropping the server's entry gives the mesh after the answer. */
  lemma AllTold(before: Mesh, m: Mesh, v: Server, u: string, found: bool, order: seq<nat>)
    requires PartlyTold(before, m, v, u, found, order, {})
    ensures Enabled(before, Respond(v, u, found, order))
    ensures Holding(m, v, before.tables[v] - {u}) == Apply(before, Respond(v, u, found, order))
  {
    hide ApplyRespond, SearchesOk;
    assert u !in m.tables[v];
    assert m.tables[v] == m.tables[v] - {u};
    assert m.tables[v := before.tables[v] - {u}] == m.tables;
  }

  /** At the answering server only the set for the id changes. */
  lemma ResultAtServer(m: Mesh, v: Server, u: string, s: nat, found: bool)
    requires s < |m.searches| && v in m.tables
    ensures v in Result(m, v, u, s, found).tables
    ensures Result(m, v, u, s, found).tables[v] - {u} == m.tables[v] - {u}
  {
    var x := m.searches[s];
    assert Result(m, v, u, s, found).tables[v] == Left(m.tables[v], u, s);
  }

  /** The searches of one mesh member and the tables of its peers. */
  class MeshStorageBackend {
    var searches: seq<Search>
    var tables: map<Server, Table>
    var active: set<nat>
    var warnings: nat

    ghost function View(): Mesh
      reads this
    {
      Mesh(searches, tables, active, warnings)
    }

    constructor (servers: set<Server>)
      ensures View() == Connected(servers)
    {
      searches, tables, active, warnings := [], map v | v in servers :: map[], {}, 0;
    }

    /** A callback, then MeshStorageBackend::searchComplete. */
    method Finish(s: nat, told: Told)
      requires s < |searches|
      modifies `searches, `active
      ensures searches == old(searches)[s := Ended(old(searches)[s], told)]
      ensures active == old(active) - {s}
    {
      searches := searches[s := searches[s].(told := searches[s].told + [told], complete := true)];
      active := active - {s};
    }

    /** The peers are visited in some order, and those that are up and readable are asked. */
    method InitiateSearches(u: string, s: nat, visited: seq<Server>, up: set<Server>) returns (queried: set<Server>)
      requires forall v :: v in visited ==> v in tables
      modifies `tables
      ensures queried == Eligible(visited, up)
      ensures tables == Entered(old(tables), queried, u, s)
    {
      queried := {};
      for i := 0 to |visited|
        invariant queried == Eligible(visited[..i], up)
        invariant tables == Entered(old(tables), queried, u, s)
      {
        var v := visited[i];
        if v in up {
          assert v in queried ==> Joined(tables[v], u, s) == tables[v];
          tables := tables[v := Joined(tables[v], u, s)];
          queried := queried + {v};
        }
      }
      assert visited[..|visited|] == visited;
    }

    /** getAsset and assetExists: a search starts with performSearch. */
    method PerformSearch(u: string, full: bool, visited: seq<Server>, up: set<Server>) returns (s: nat)
      requires forall v :: v in visited ==> v in tables
      modifies this
      ensures s == |old(searches)|
      ensures View() == ApplyBegin(old(View()), u, full, Eligible(visited, up))
    {
      s := |searches|;
      active := active + {s};
      var queried := InitiateSearches(u, s, visited, up);
      var x := Search(u, full, queried, queried != {}, false, false, [], false, queried, {}, false, false);
      searches := searches + [x];
      if queried == {} {
        Finish(s, NegativeAnswer(full));
      }
      assert searches == old(searches) + [Started(u, full, queried)];
      assert old(active) + {s} - {s} == old(active) - {s};
      assert View() == ApplyBegin(old(View()), u, full, queried);
    }

    method CancelRemainingServers(s: nat)
      requires s < |searches| && searches[s].queried <= tables.Keys
      modifies `tables, `searches
      ensures searches == old(searches)[s := old(searches)[s].(queried := {})]
      ensures tables == Cleared(old(tables), old(searches)[s].queried, old(searches)[s].uuid, s)
    {
      var u, todo := searches[s].uuid, searches[s].queried;
      while todo != {}
        invariant todo <= old(searches)[s].queried && searches == old(searches)
        invariant tables == Cleared(old(tables), old(searches)[s].queried - todo, u, s)
        decreases |todo|
      {
        var v :| v in todo;
        tables := tables[v := Left(tables[v], u, s)];
        todo := todo - {v};
      }
      searches := searches[s := searches[s].(queried := {})];
    }

    method OnFound(s: nat)
      requires s < |searches| && searches[s].queried <= tables.Keys
      modifies this
      ensures
        var x := old(searches)[s];
        View() == With(old(View()), s, Positive(x), Cleared(old(tables), x.queried, x.uuid, s))
    {
      searches := searches[s := searches[s].(timer := false)];
      CancelRemainingServers(s);
      if searches[s].full {
        searches := searches[s := searches[s].(wasFound := true, fetching := true)];
      } else {
        Finish(s, Exists);
      }
      assert searches == old(searches)[s := Positive(old(searches)[s])];
    }

    method OnNotFound(s: nat)
      requires s < |searches|
      modifies this
      ensures View() == With(old(View()), s, Negative(old(searches)[s]), old(tables))
    {
      if searches[s].queried == {} {
        searches := searches[s := searches[s].(timer := false)];
        Finish(s, NegativeAnswer(searches[s].full));
      }
      assert searches == old(searches)[s := Negative(old(searches)[s])];
    }

    /** The answering server's own table still holds the search; postResponse drops the whole entry afterwards. */
    method OnSearchResult(v: Server, u: string, s: nat, found: bool)
      requires s < |searches| && searches[s].queried <= tables.Keys
      modifies this
      ensures View() == Heard(old(View()), v, u, s, found)
    {
      hide Cleared, Positive, Negative, Heard, With;
      var x := searches[s];
      if x.wasFound {
        warnings := warnings + 1;
      }
      if u != x.uuid {
        warnings := warnings + 1;
      }
      searches := searches[s := Noted(x, v, found)];
      assert View() == Warned(old(View()), v, u, s, found);
      HeardInSteps(old(View()), v, u, s, found);
      hide Warned, Noted;
      if found {
        OnFound(s);
      } else {
        OnNotFound(s);
      }
    }

    /** Everyone waiting at the server for the id hears the answer; then the whole entry goes. */
    method PostResponse(v: Server, u: string, found: bool) returns (ghost order: seq<nat>)
      requires MeshInv(View()) && v in tables
      modifies this
      ensures Enabled(old(View()), Respond(v, u, found, order))
      ensures View() == Apply(old(View()), Respond(v, u, found, order))
    {
      hide MeshInv, Waiting, Result, Heard, ApplyRespond, PartlyTold, Enabled;
      order := [];
      ghost var m, t := View(), tables[v];
      StartTelling(m, v, u, found);
      if u in tables[v] {
        var todo := tables[v][u];
        while todo != {}
          invariant PartlyTold(old(View()), m, v, u, found, order, todo)
          invariant v in m.tables && View() == Holding(m, v, t)
          decreases |todo|
        {
          var s: nat :| s in todo;
          TellOne(old(View()), m, v, u, found, order, todo, s);
          HeardIsResult(m, v, t, u, s, found);
          OnSearchResult(v, u, s, found);
          m, order, todo := Result(m, v, u, s, found), order + [s], todo - {s};
        }
        tables := tables[v := tables[v] - {u}];
      }
      AllTold(old(View()), m, v, u, found, order);
    }

    /** The timer fires and was not cancelled. */
    method OnTimeout(s: nat)
      requires s < |searches| && searches[s].queried <= tables.Keys
      modifies this
      ensures View() == ApplyTimeout(old(View()), s)
    {
      searches := searches[s := searches[s].(timer := false, expired := true)];
      if !searches[s].wasFound {
        CancelRemainingServers(s);
        Finish(s, NegativeAnswer(searches[s].full));
      }
      assert searches == old(searches)[s := Expired(old(searches)[s])];
    }

    method OnFullAssetRcvd(s: nat, got: bool)
      requires s < |searches|
      modifies this
      ensures View() == ApplyFetched(old(View()), s, got)
    {
      searches := searches[s := searches[s].(fetching := false)];
      Finish(s, Delivered(got));
    }
  }
}
