/** The server's shared state: two counters, four handle tables, the in-flight
    queries and the time each client was last seen. `Core` is its value; the functions
    on it are the critical sections the handlers are made of; the class `State`
    updates the fields in place. */
module PluginState {
  import opened Base

  type Instant = nat
  type Args = string

  datatype Kind = Publisher | Subscriber | Queryable | Querier
  datatype Entry = Entry(owner: ClientId, args: Args)
  datatype InFlight = InFlight(owner: ClientId, handle: Handle)
  type Table = map<Handle, Entry>
  type Queries = map<QueryId, InFlight>

  datatype Core = Core(
    nextHandle: Handle, nextQueryId: QueryId, live: map<ClientId, Instant>,
    publishers: Table, subscribers: Table, queryables: Table, queriers: Table,
    inflight: Queries)

  const Fresh := Core(1, 1, map[], map[], map[], map[], map[], map[])

  function TableOf(c: Core, k: Kind): Table {
    match k
    case Publisher => c.publishers
    case Subscriber => c.subscribers
    case Queryable => c.queryables
    case Querier => c.queriers
  }

  function WithTable(c: Core, k: Kind, t: Table): (r: Core)
    ensures r.nextHandle == c.nextHandle && r.nextQueryId == c.nextQueryId
    ensures r.live == c.live && r.inflight == c.inflight
    ensures forall j: Kind :: TableOf(r, j) == if j == k then t else TableOf(c, j)
  {
    match k
    case Publisher => c.(publishers := t)
    case Subscriber => c.(subscribers := t)
    case Queryable => c.(queryables := t)
    case Querier => c.(queriers := t)
  }

  // ---------- critical sections ----------

  function Touched(c: Core, client: ClientId, now: Instant): Core {
    c.(live := c.live[client := now])
  }

  function EnsureOwner(client: ClientId, owner: ClientId): Code {
    if client != owner then PermissionDenied else Ok
  }

  /** put, delete, get and events: look the handle up and check its owner. */
  function LookupCode(t: Table, client: ClientId, h: Handle): Code {
    if h !in t then NotFound else EnsureOwner(client, t[h].owner)
  }

  /** reply, reply_err, reply_delete and finish: owner and handle must both match. */
  function QueryCode(q: Queries, client: ClientId, h: Handle, id: QueryId): Code {
    if id !in q then NotFound
    else if EnsureOwner(client, q[id].owner) != Ok then PermissionDenied
    else if q[id].handle != h then PermissionDenied
    else Ok
  }

  function FinishQuery(q: Queries, client: ClientId, h: Handle, id: QueryId): Queries {
    if QueryCode(q, client, h, id).Ok? then q - {id} else q
  }

  function OwnedBy(t: Table, client: ClientId): set<Handle> {
    set h | h in t && t[h].owner == client
  }

  function NotOfHandle(q: Queries, h: Handle): Queries {
    map id | id in q && q[id].handle != h :: q[id]
  }

  function NotOfOwner(q: Queries, client: ClientId): Queries {
    map id | id in q && q[id].owner != client :: q[id]
  }

  /** Clients not heard from for a whole lease; the clock difference saturates at zero. */
  predicate Lapsed(live: map<ClientId, Instant>, lease: nat, now: Instant, client: ClientId) {
    client in live && (if now < live[client] then 0 else now - live[client]) >= lease
  }

  // ---------- the handlers, each run alone ----------

  /** `zenohOk` is the outcome of the zenoh operation the handler awaits. */
  datatype Request =
    | TouchClient(client: ClientId, now: Instant)
    | Declare(client: ClientId, kind: Kind, args: Args, now: Instant, zenohOk: bool)
    | Use(client: ClientId, kind: Kind, handle: Handle, now: Instant, zenohOk: bool)
    | Undeclare(client: ClientId, kind: Kind, handle: Handle, now: Instant, zenohOk: bool)
    | ReplyTo(client: ClientId, handle: Handle, query: QueryId, now: Instant, zenohOk: bool)
    | FinishTo(client: ClientId, handle: Handle, query: QueryId, now: Instant)
    | CleanupClient(client: ClientId)
    | QueryArrives(owner: ClientId, handle: Handle)   // the background task of a queryable

  /** A client's entries and queries gone, everybody else's untouched. */
  function Cleaned(c: Core, client: ClientId): Core {
    Core(c.nextHandle, c.nextQueryId, c.live - {client},
         c.publishers - OwnedBy(c.publishers, client), c.subscribers - OwnedBy(c.subscribers, client),
         c.queryables - OwnedBy(c.queryables, client), c.queriers - OwnedBy(c.queriers, client),
         NotOfOwner(c.inflight, client))
  }

  function Zenoh(code: Code, zenohOk: bool): Code {
    if code.Ok? && !zenohOk then Internal else code
  }

  function Handled(c: Core, r: Request): (Core, Code) {
    match r
    case TouchClient(client, now) => (Touched(c, client, now), Ok)
    case Declare(client, kind, args, now, zenohOk) =>
      var c1 := Touched(c, client, now).(nextHandle := c.nextHandle + 1);
      if !zenohOk then (c1, Internal)
      else (WithTable(c1, kind, TableOf(c1, kind)[c.nextHandle := Entry(client, args)]), Ok)
    case Use(client, kind, h, now, zenohOk) =>
      (Touched(c, client, now), Zenoh(LookupCode(TableOf(c, kind), client, h), zenohOk))
    case Undeclare(client, kind, h, now, zenohOk) =>
      var code := LookupCode(TableOf(c, kind), client, h);
      var c1 := WithTable(Touched(c, client, now), kind, TableOf(c, kind) - {h});   // before the owner check
      (if kind.Queryable? && code.Ok? then c1.(inflight := NotOfHandle(c1.inflight, h)) else c1,
       Zenoh(code, zenohOk))
    case ReplyTo(client, h, q, now, zenohOk) =>
      (Touched(c, client, now), Zenoh(QueryCode(c.inflight, client, h, q), zenohOk))
    case FinishTo(client, h, q, now) =>
      (Touched(c, client, now).(inflight := FinishQuery(c.inflight, client, h, q)),
       QueryCode(c.inflight, client, h, q))
    case CleanupClient(client) => (Cleaned(c, client), Ok)
    case QueryArrives(owner, h) =>
      (c.(nextQueryId := c.nextQueryId + 1, inflight := c.inflight[c.nextQueryId := InFlight(owner, h)]), Ok)
  }

  function HandledAll(c: Core, requests: seq<Request>): Core {
    if requests == [] then c
    else Handled(HandledAll(c, requests[..|requests| - 1]), requests[|requests| - 1]).0
  }

  /** Handles are below the counter and in one table only, query ids are below theirs. */
  ghost predicate Numbered(c: Core) {
    && (forall k: Kind, h :: h in TableOf(c, k) ==> h < c.nextHandle)
    && (forall j: Kind, k: Kind, h :: h in TableOf(c, j) && h in TableOf(c, k) ==> j == k)
    && (forall id :: id in c.inflight ==> id < c.nextQueryId)
  }

  /** Every owner of an entry is a live client, so a sweep can reach the entry. */
  ghost predicate OwnersLive(c: Core) {
    forall k: Kind, h :: h in TableOf(c, k) ==> TableOf(c, k)[h].owner in c.live
  }

  /** Where an entry comes from: it was there before, or this declare made it. */
  lemma EntryOrigin(c: Core, r: Request, k: Kind, h: Handle)
    requires h in TableOf(Handled(c, r).0, k)
    ensures
      || (&& h in TableOf(c, k) && TableOf(c, k)[h] == TableOf(Handled(c, r).0, k)[h]
          && (r.CleanupClient? ==> TableOf(c, k)[h].owner != r.client))
      || (r.Declare? && k == r.kind && h == c.nextHandle && TableOf(Handled(c, r).0, k)[h].owner == r.client)
  {
    var c' := Handled(c, r).0;
    match r
    case Declare(client, kind, args, now, zenohOk) => DeclaredTables(c, r, k);
    case Undeclare(client, kind, handle, now, zenohOk) => UndeclaredTables(c, r, k);
    case CleanupClient(client) =>
      assert TableOf(c', k) == TableOf(c, k) - OwnedBy(TableOf(c, k), client);
    case _ => assert TableOf(c', k) == TableOf(c, k);
  }

  lemma CountersGrow(c: Core, r: Request)
    ensures Handled(c, r).0.nextHandle == c.nextHandle + (if r.Declare? then 1 else 0)
    ensures Handled(c, r).0.nextQueryId == c.nextQueryId + (if r.QueryArrives? then 1 else 0)
    ensures Handled(c, r).0.live.Keys == if r.CleanupClient? then c.live.Keys - {r.client}
            else if r.QueryArrives? then c.live.Keys else c.live.Keys + {r.client}
  {
    match r case _ =>
  }

  lemma QueryOrigin(c: Core, r: Request, id: QueryId)
    requires id in Handled(c, r).0.inflight
    ensures id in c.inflight || (r.QueryArrives? && id == c.nextQueryId)
  {
    match r case _ =>
  }

  lemma HandledInv(c: Core, r: Request)
    requires Numbered(c) && OwnersLive(c)
    ensures Numbered(Handled(c, r).0) && OwnersLive(Handled(c, r).0)
  {
    var c' := Handled(c, r).0;
    CountersGrow(c, r);
    forall k: Kind, h | h in TableOf(c', k)
      ensures h < c'.nextHandle && TableOf(c', k)[h].owner in c'.live
    {
      EntryOrigin(c, r, k, h);
      assert h in TableOf(c, k) ==> TableOf(c, k)[h].owner in c.live.Keys;
      assert TableOf(c', k)[h].owner in c'.live.Keys;
    }
    forall id | id in c'.inflight ensures id < c'.nextQueryId { QueryOrigin(c, r, id); }
    forall j: Kind, k: Kind, h | h in TableOf(c', j) && h in TableOf(c', k) ensures j == k {
      EntryOrigin(c, r, j, h);
      EntryOrigin(c, r, k, h);
    }
  }

  /** With each handler run as one step, in any order and number: handles stay unique
      across the four tables, and the sweeper can reach every declared resource. */
  lemma {:induction false} AtomicHandlersReachable(requests: seq<Request>)
    ensures Numbered(HandledAll(Fresh, requests)) && OwnersLive(HandledAll(Fresh, requests))
  {
    if requests != [] {
      var n := |requests| - 1;
      AtomicHandlersReachable(requests[..n]);
      HandledInv(HandledAll(Fresh, requests[..n]), requests[n]);
    }
  }

  /** A put, delete, get, events, reply or finish, whatever its outcome, leaves everything but
      the caller's lease untouched, except for a finish that succeeds, which takes exactly its
      query; in particular a refused one changes nothing else. */
  lemma RefusalChangesNothing(c: Core, r: Request)
    requires r.Use? || r.ReplyTo? || r.FinishTo?
    ensures Handled(c, r).0 == Touched(c, r.client, r.now) <==> !(r.FinishTo? && Handled(c, r).1.Ok?)
    ensures r.FinishTo? && Handled(c, r).1.Ok? ==>
      && r.query in c.inflight && c.inflight[r.query] == InFlight(r.client, r.handle)
      && Handled(c, r).0 == Touched(c, r.client, r.now).(inflight := c.inflight - {r.query})
  {
    if r.FinishTo? && Handled(c, r).1.Ok? { assert r.query in c.inflight && r.query !in Handled(c, r).0.inflight; }
  }

  /** An undeclare is different: it removes the entry before it looks at the owner. What it
      changes beyond the lease is nothing exactly when the handle is unknown. */
  lemma RefusedUndeclare(c: Core, client: ClientId, k: Kind, h: Handle, now: Instant, zenohOk: bool)
    requires Numbered(c) && LookupCode(TableOf(c, k), client, h) != Ok
    ensures Handled(c, Undeclare(client, k, h, now, zenohOk)).0 == Touched(c, client, now)
            <==> LookupCode(TableOf(c, k), client, h) == NotFound
  {
    var t := TableOf(c, k);
    if h !in t { assert t - {h} == t; }
  }

  /** So another client's undeclare is refused and yet takes the owner's publisher away. */
  lemma ForeignUndeclare(owner: ClientId, other: ClientId, args: Args, now: Instant, zenohOk: bool) returns (c: Core)
    requires owner != other
    ensures c == HandledAll(Fresh, [Declare(owner, Publisher, args, now, true)])
    ensures c.publishers == map[1 := Entry(owner, args)]
    ensures var (c', code) := Handled(c, Undeclare(other, Publisher, 1, now, zenohOk));
      code == PermissionDenied && c'.publishers == map[]
  {
    var requests := [Declare(owner, Publisher, args, now, true)];
    assert requests[..0] == [] && HandledAll(Fresh, []) == Fresh;
    c := HandledAll(Fresh, requests);
    assert c == Handled(Fresh, requests[0]).0;
    assert LookupCode(TableOf(c, Publisher), other, 1) == PermissionDenied;
  }

  // ---------- what each whole handler does to each entry and query ----------

  /** The request takes the entry away: an undeclare of it by anybody, or a cleanup of its owner. */
  predicate TakesEntry(c: Core, r: Request, k: Kind, h: Handle)
    requires h in TableOf(c, k)
  {
    || (r.Undeclare? && r.kind == k && r.handle == h)
    || (r.CleanupClient? && r.client == TableOf(c, k)[h].owner)
  }

  /** The tables after a request, entry by entry: those it takes are gone, a declare that
      succeeds adds its own under the next handle, and all others stay as they are. */
  lemma EntriesAfter(c: Core, r: Request, k: Kind, h: Handle)
    ensures var t, t' := TableOf(c, k), TableOf(Handled(c, r).0, k);
      if r.Declare? && r.zenohOk && r.kind == k && h == c.nextHandle then h in t' && t'[h] == Entry(r.client, r.args)
      else (h in t' <==> h in t && !TakesEntry(c, r, k, h)) && (h in t' ==> t'[h] == t[h])
  {
    var c' := Handled(c, r).0;
    match r
    case Declare(client, kind, args, now, zenohOk) => DeclaredTables(c, r, k);
    case Undeclare(client, kind, handle, now, zenohOk) => UndeclaredTables(c, r, k);
    case CleanupClient(client) => CleanedEntries(c, client, k, h);
    case _ => assert TableOf(c', k) == TableOf(c, k);
  }

  lemma DeclaredTables(c: Core, r: Request, k: Kind)
    requires r.Declare?
    ensures TableOf(Handled(c, r).0, k) ==
      if r.zenohOk && r.kind == k then TableOf(c, k)[c.nextHandle := Entry(r.client, r.args)] else TableOf(c, k)
  {
  }

  lemma UndeclaredTables(c: Core, r: Request, k: Kind)
    requires r.Undeclare?
    ensures TableOf(Handled(c, r).0, k) == if r.kind == k then TableOf(c, k) - {r.handle} else TableOf(c, k)
  {
  }

  lemma CleanedEntries(c: Core, client: ClientId, k: Kind, h: Handle)
    ensures h in TableOf(Cleaned(c, client), k) <==> h in TableOf(c, k) && TableOf(c, k)[h].owner != client
    ensures h in TableOf(Cleaned(c, client), k) ==> TableOf(Cleaned(c, client), k)[h] == TableOf(c, k)[h]
  {
    match k case _ =>
  }

  /** The request ends the query: a finish by its owner with its handle, an undeclare of its
      queryable by the queryable's owner, or a cleanup of its owner. */
  predicate EndsQuery(c: Core, r: Request, q: QueryId)
    requires q in c.inflight
  {
    var f := c.inflight[q];
    || (r.FinishTo? && r.query == q && r.client == f.owner && r.handle == f.handle)
    || (r.Undeclare? && r.kind.Queryable? && r.handle == f.handle
        && r.handle in c.queryables && c.queryables[r.handle].owner == r.client)
    || (r.CleanupClient? && r.client == f.owner)
  }

  /** The in-flight queries after a request, one by one. */
  lemma QueriesAfter(c: Core, r: Request, q: QueryId)
    ensures var f, f' := c.inflight, Handled(c, r).0.inflight;
      if r.QueryArrives? && q == c.nextQueryId then q in f' && f'[q] == InFlight(r.owner, r.handle)
      else (q in f' <==> q in f && !EndsQuery(c, r, q)) && (q in f' ==> f'[q] == f[q])
  {
    match r case _ =>
  }

  /** What a request on a handle or query is answered: Ok exactly on an own live one when zenoh
      succeeds, NotFound exactly on an unknown one, PermissionDenied exactly on another's. */
  lemma AnswerExactly(c: Core, r: Request)
    ensures var code := Handled(c, r).1;
      && !IsDisconnect(code)
      && (r.Use? || r.Undeclare? ==>
            var t := TableOf(c, r.kind);
            && (code.Ok? <==> r.handle in t && t[r.handle].owner == r.client && r.zenohOk)
            && (code.NotFound? <==> r.handle !in t)
            && (code.PermissionDenied? <==> r.handle in t && t[r.handle].owner != r.client))
      && (r.ReplyTo? || r.FinishTo? ==>
            var own := r.query in c.inflight && c.inflight[r.query] == InFlight(r.client, r.handle);
            && (code.Ok? <==> own && (r.ReplyTo? ==> r.zenohOk))
            && (code.NotFound? <==> r.query !in c.inflight)
            && (code.PermissionDenied? <==> r.query in c.inflight && !own))
      && (r.Declare? ==> (code.Ok? <==> r.zenohOk))
  {
    match r case _ =>
  }

  // ---------- the fields, updated in place ----------

  class State {
    var nextHandle: Handle
    var nextQueryId: QueryId
    var live: map<ClientId, Instant>
    var publishers: Table
    var subscribers: Table
    var queryables: Table
    var queriers: Table
    var inflight: Queries
    const lease: nat

    ghost function View(): Core reads this {
      Core(nextHandle, nextQueryId, live, publishers, subscribers, queryables, queriers, inflight)
    }

    constructor (lease: nat)
      ensures View() == Fresh && this.lease == lease
    {
      nextHandle, nextQueryId, live := 1, 1, map[];
      publishers, subscribers, queryables, queriers, inflight := map[], map[], map[], map[], map[];
      this.lease := lease;
    }

    function GetTable(k: Kind): Table
      reads this
      ensures GetTable(k) == TableOf(View(), k)
    {
      match k
      case Publisher => publishers
      case Subscriber => subscribers
      case Queryable => queryables
      case Querier => queriers
    }

    method SetTable(k: Kind, t: Table)
      modifies this
      ensures View() == WithTable(old(View()), k, t)
    {
      match k
      case Publisher => publishers := t;
      case Subscriber => subscribers := t;
      case Queryable => queryables := t;
      case Querier => queriers := t;
    }

    method AllocHandle() returns (h: Handle)
      modifies this`nextHandle
      ensures h == old(nextHandle) && nextHandle == h + 1
    {
      h := nextHandle;
      nextHandle := nextHandle + 1;
    }

    method Touch(client: ClientId, now: Instant)
      modifies this`live
      ensures View() == Touched(old(View()), client, now)
    {
      live := live[client := now];
    }

    method DeclareEntry(client: ClientId, k: Kind, args: Args, now: Instant, zenohOk: bool)
      returns (code: Code, h: Handle)
      modifies this
      ensures (View(), code) == Handled(old(View()), Declare(client, k, args, now, zenohOk))
      ensures h == old(nextHandle)
    {
      Touch(client, now);
      h := AllocHandle();
      if !zenohOk { return Internal, h; }
      SetTable(k, GetTable(k)[h := Entry(client, args)]);
      return Ok, h;
    }

    method UseEntry(client: ClientId, k: Kind, h: Handle, now: Instant, zenohOk: bool) returns (code: Code)
      modifies this
      ensures (View(), code) == Handled(old(View()), Use(client, k, h, now, zenohOk))
    {
      Touch(client, now);
      if h !in GetTable(k) { return NotFound; }
      if GetTable(k)[h].owner != client { return PermissionDenied; }
      return if zenohOk then Ok else Internal;
    }

    method UndeclareEntry(client: ClientId, k: Kind, h: Handle, now: Instant, zenohOk: bool) returns (code: Code)
      modifies this
      ensures (View(), code) == Handled(old(View()), Undeclare(client, k, h, now, zenohOk))
    {
      Touch(client, now);
      if h !in GetTable(k) {
        assert GetTable(k) - {h} == GetTable(k);
        return NotFound;
      }
      var entry := GetTable(k)[h];
      SetTable(k, GetTable(k) - {h});
      if client != entry.owner { return PermissionDenied; }
      if k.Queryable? {
        inflight := map id | id in inflight && inflight[id].handle != h :: inflight[id];
      }
      return if zenohOk then Ok else Internal;
    }

    method ReplyQuery(client: ClientId, h: Handle, q: QueryId, now: Instant, zenohOk: bool) returns (code: Code)
      modifies this
      ensures (View(), code) == Handled(old(View()), ReplyTo(client, h, q, now, zenohOk))
    {
      Touch(client, now);
      if q !in inflight { return NotFound; }
      if client != inflight[q].owner { return PermissionDenied; }
      if inflight[q].handle != h { return PermissionDenied; }
      return if zenohOk then Ok else Internal;
    }

    method Finish(client: ClientId, h: Handle, q: QueryId, now: Instant) returns (code: Code)
      modifies this
      ensures (View(), code) == Handled(old(View()), FinishTo(client, h, q, now))
    {
      Touch(client, now);
      if q !in inflight { return NotFound; }
      if client != inflight[q].owner { return PermissionDenied; }
      if inflight[q].handle != h { return PermissionDenied; }
      inflight := inflight - {q};
      return Ok;
    }

    /** The body of a queryable's background task for one query. */
    method QueryArrived(owner: ClientId, h: Handle) returns (event: Option<QueryId>)
      requires Numbered(View())
      modifies this
      ensures View() == Handled(old(View()), QueryArrives(owner, h)).0
      ensures event == Some(old(nextQueryId)) && old(nextQueryId) !in old(inflight)
    {
      var q := nextQueryId;
      nextQueryId := nextQueryId + 1;
      inflight := inflight[q := InFlight(owner, h)];
      if q in inflight { event := Some(q); } else { event := None; }
    }

    /** Scans the map of live clients; exactly the lapsed ones are returned. */
    method CollectStaleClients(now: Instant) returns (stale: set<ClientId>)
      ensures forall c :: c in stale <==> Lapsed(live, lease, now, c)
    {
      stale := {};
      var todo := live.Keys;
      while todo != {}
        invariant todo <= live.Keys
        invariant forall c :: c in stale <==> c !in todo && Lapsed(live, lease, now, c)
        decreases todo
      {
        var c :| c in todo;
        if (if now < live[c] then 0 else now - live[c]) >= lease { stale := stale + {c}; }
        todo := todo - {c};
      }
    }

    /** One table: snapshot the client's handles, then remove them one at a time. */
    method RemoveOwned(k: Kind, client: ClientId)
      modifies this
      ensures View() == WithTable(old(View()), k, TableOf(old(View()), k) - OwnedBy(TableOf(old(View()), k), client))
    {
      var handles := OwnedBy(GetTable(k), client);
      ghost var owned := handles;
      assert TableOf(View(), k) - {} == TableOf(View(), k);
      while handles != {}
        invariant handles <= owned
        invariant View() == WithTable(old(View()), k, TableOf(old(View()), k) - (owned - handles))
        decreases handles
      {
        var h :| h in handles;
        RemoveStep(old(View()), k, owned, handles, h);
        SetTable(k, GetTable(k) - {h});
        handles := handles - {h};
      }
      assert owned - {} == owned;
    }

    static lemma RemoveStep(c: Core, k: Kind, owned: set<Handle>, handles: set<Handle>, h: Handle)
      requires h in handles && handles <= owned
      ensures TableOf(c, k) - (owned - handles) - {h} == TableOf(c, k) - (owned - (handles - {h}))
    {
      assert owned - handles + {h} == owned - (handles - {h});
    }

    method Cleanup(client: ClientId)
      modifies this
      ensures View() == Handled(old(View()), CleanupClient(client)).0
    {
      live := live - {client};
      RemoveOwned(Publisher, client);
      RemoveOwned(Subscriber, client);
      RemoveOwned(Queryable, client);
      RemoveOwned(Querier, client);
      inflight := map id | id in inflight && inflight[id].owner != client :: inflight[id];
    }
  }
}
