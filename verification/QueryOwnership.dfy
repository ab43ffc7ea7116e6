/** Who owes a received query its Finish command, through the three layers: the Rust query
    with its finish-once flag, the C layer's map of active queries, and the move-only C++
    object that names a query by owner pointer and id. */
module QueryOwnership {
  import opened Base

  type Token = nat   // one received query object
  type Ptr = nat     // a zgrpc_queryable_t
  type CppId = nat   // a live C++ Query object

  // ---------- the Rust query ----------

  datatype Query = Query(token: Token, finished: bool)

  /** `swap(true)` on the flag: the new query and whether the caller was first. */
  function MarkFinished(q: Query): (Query, bool) { (q.(finished := true), !q.finished) }

  /** Dropping a query enqueues a Finish unless the flag was already set. */
  function DropCommands(q: Query): multiset<Token> {
    if MarkFinished(q).1 then multiset{q.token} else multiset{}
  }

  /** `finish` consumes the query: it enqueues a Finish if it is first, and at the end of
      the call the query is dropped. */
  function FinishCommands(q: Query): multiset<Token> {
    (if MarkFinished(q).1 then multiset{q.token} else multiset{}) + DropCommands(MarkFinished(q).0)
  }

  lemma FinishedOnce(q: Query)
    requires !q.finished
    ensures FinishCommands(q) == multiset{q.token} && DropCommands(q) == multiset{q.token}
  {
  }

  // ---------- the queries of all layers ----------

  /** A query is held by a Rust application, or filed in a C queryable under its id. */
  datatype Place = Loose(t: Token) | Filed(p: Ptr, id: QueryId)

  /** A queryable handed to undeclare is `Closing`: its queries are finished one by one. */
  datatype Stage = Open | Closing | Freed

  datatype CppQuery = CppQuery(owner: Option<Ptr>, queryId: QueryId, autoFinish: bool)

  datatype Store = Store(
    held: map<Place, Query>,
    stages: map<Ptr, Stage>,
    enqueued: multiset<Token>,            // Finish commands pushed so far
    places: map<Token, Option<Place>>)    // history: where each received query is, None once gone

  /** `fault` records that a queryable was used after it was handed to undeclare. */
  datatype World = World(store: Store, cpps: map<CppId, CppQuery>, fault: bool)

  datatype Op =
    | RustRecv(t: Token) | RustFinish(t: Token) | RustDrop(t: Token)
    | CDeclare(p: Ptr) | CRecv(p: Ptr, id: QueryId, t: Token) | CFinish(p: Ptr, id: QueryId)
    | CUndeclare(p: Ptr) | CFinishNext(p: Ptr, id: QueryId) | CFree(p: Ptr)
    | CppNew(c: CppId, p: Ptr, id: QueryId) | CppDefault(c: CppId)
    | CppMove(dst: CppId, src: CppId) | CppFinish(c: CppId) | CppDestroy(c: CppId)

  const Empty := World(Store(map[], map[], multiset{}, map[]), map[], false)

  predicate Usable(s: Store, p: Ptr) { p in s.stages && s.stages[p].Open? }

  predicate Drained(s: Store, p: Ptr) { forall pl :: pl in s.held && pl.Filed? ==> pl.p != p }

  predicate Enabled(w: World, op: Op) {
    var s := w.store;
    match op
    case RustRecv(t) => t !in s.places
    case RustFinish(t) => Loose(t) in s.held
    case RustDrop(t) => Loose(t) in s.held
    case CDeclare(p) => p !in s.stages
    case CRecv(p, _, t) => t !in s.places
    case CFinish(_, _) => true
    case CUndeclare(_) => true
    case CFinishNext(p, id) => p in s.stages && s.stages[p].Closing? && Filed(p, id) in s.held
    case CFree(p) => p in s.stages && s.stages[p].Closing? && Drained(s, p)
    case CppNew(c, _, _) => c !in w.cpps
    case CppDefault(c) => c !in w.cpps
    case CppMove(dst, src) => dst in w.cpps && src in w.cpps
    case CppFinish(c) => c in w.cpps
    case CppDestroy(c) => c in w.cpps
  }

  /** The query at `pl`, if any, is taken out and finished, or merely dropped. */
  function Consumed(s: Store, pl: Place, finish: bool): Store {
    if pl in s.held then
      var q := s.held[pl];
      s.(held := s.held - {pl}, places := s.places[q.token := None],
         enqueued := s.enqueued + if finish then FinishCommands(q) else DropCommands(q))
    else s
  }

  function Put(s: Store, pl: Place, t: Token): Store {
    s.(held := s.held[pl := Query(t, false)], places := s.places[t := Some(pl)])
  }

  /** zgrpc_queryable_finish: remove_query, then finish; 0 exactly when the id was filed. */
  function FinishById(w: World, p: Ptr, id: QueryId): World {
    if Usable(w.store, p) then w.(store := Consumed(w.store, Filed(p, id), true)) else w.(fault := true)
  }

  function FinishCode(w: World, p: Ptr, id: QueryId): int {
    if Usable(w.store, p) && Filed(p, id) in w.store.held then 0 else -1
  }

  const NullQuery := CppQuery(None, 0, false)

  /** finish_noexcept: finish by id if this object still owns a query, then let go. */
  function FinishNoexcept(w: World, c: CppId): World
    requires c in w.cpps
  {
    var x := w.cpps[c];
    var w1 := if x.owner.Some? && x.autoFinish then FinishById(w, x.owner.value, x.queryId) else w;
    w1.(cpps := w.cpps[c := x.(owner := None, autoFinish := false)])
  }

  function Apply(w: World, op: Op): World
    requires Enabled(w, op)
  {
    var s := w.store;
    match op
    case RustRecv(t) => w.(store := Put(s, Loose(t), t))
    case RustFinish(t) => w.(store := Consumed(s, Loose(t), true))
    case RustDrop(t) => w.(store := Consumed(s, Loose(t), false))
    case CDeclare(p) => w.(store := s.(stages := s.stages[p := Open]))
    case CRecv(p, id, t) =>      // a query already filed under the id is dropped
      if Usable(s, p) then w.(store := Put(Consumed(s, Filed(p, id), false), Filed(p, id), t)) else w.(fault := true)
    case CFinish(p, id) => FinishById(w, p, id)
    case CUndeclare(p) => if Usable(s, p) then w.(store := s.(stages := s.stages[p := Closing])) else w.(fault := true)
    case CFinishNext(p, id) => w.(store := Consumed(s, Filed(p, id), true))
    case CFree(p) => w.(store := s.(stages := s.stages[p := Freed]))
    case CppNew(c, p, id) => w.(cpps := w.cpps[c := CppQuery(Some(p), id, true)])
    case CppDefault(c) => w.(cpps := w.cpps[c := NullQuery])
    case CppMove(dst, src) =>
      if dst == src then w
      else
        var w1 := FinishNoexcept(w, dst);
        w1.(cpps := w1.cpps[dst := w.cpps[src]][src := NullQuery])
    case CppFinish(c) =>
      var x := w.cpps[c];
      if x.owner.None? then w                     // throws
      else
        var w1 := FinishById(w, x.owner.value, x.queryId);
        if FinishCode(w, x.owner.value, x.queryId) != 0 then w1                    // throws
        else w1.(cpps := w.cpps[c := x.(owner := None, autoFinish := false)])
    case CppDestroy(c) => FinishNoexcept(w, c).(cpps := w.cpps - {c})
  }

  // ---------- what every operation keeps ----------

  /** Where the history says a query is, it is, unfinished. */
  predicate Sits(s: Store, t: Token) {
    t in s.places && s.places[t].Some? ==>
      s.places[t].value in s.held && s.held[s.places[t].value] == Query(t, false)
  }

  /** And what is held somewhere is on record there. */
  predicate Recorded(s: Store, pl: Place) {
    pl in s.held ==>
      && !s.held[pl].finished && s.held[pl].token in s.places && s.places[s.held[pl].token] == Some(pl)
      && (pl.Loose? ==> pl.t == s.held[pl].token)
  }

  /** One Finish for every query that is gone, none for the others. */
  predicate Settled(s: Store, t: Token) {
    s.enqueued[t] == if t in s.places && s.places[t].None? then 1 else 0
  }

  /** A filed query is in a queryable that has not been freed. */
  predicate Housed(s: Store, pl: Place) {
    pl in s.held && pl.Filed? ==> pl.p in s.stages && !s.stages[pl.p].Freed?
  }

  ghost predicate Inv(s: Store) {
    && (forall t :: Sits(s, t) && Settled(s, t))
    && (forall pl :: Recorded(s, pl) && Housed(s, pl))
  }

  lemma ConsumedKeeps(s: Store, pl: Place, finish: bool)
    requires Inv(s)
    ensures Inv(Consumed(s, pl, finish))
  {
    var s' := Consumed(s, pl, finish);
    assert Recorded(s, pl);
    if pl in s.held { FinishedOnce(s.held[pl]); }
    forall t ensures Sits(s', t) && Settled(s', t) { assert Sits(s, t) && Settled(s, t); }
    forall q ensures Recorded(s', q) && Housed(s', q) { assert Recorded(s, q) && Housed(s, q); }
  }

  lemma PutKeeps(s: Store, pl: Place, t: Token)
    requires Inv(s) && t !in s.places && pl !in s.held && (pl.Loose? ==> pl.t == t)
    requires pl.Filed? ==> pl.p in s.stages && !s.stages[pl.p].Freed?
    ensures Inv(Put(s, pl, t))
  {
    var s' := Put(s, pl, t);
    forall u ensures Sits(s', u) && Settled(s', u) { assert Sits(s, u) && Settled(s, u); }
    forall q ensures Recorded(s', q) && Housed(s', q) { assert Recorded(s, q) && Housed(s, q); }
  }

  lemma StagesKeep(s: Store, s': Store)
    requires Inv(s) && s' == s.(stages := s'.stages)
    requires forall p :: p in s.stages && !Drained(s, p) ==> p in s'.stages && (s'.stages[p].Freed? ==> s.stages[p].Freed?)
    ensures Inv(s')
  {
    forall t ensures Sits(s', t) && Settled(s', t) { assert Sits(s, t) && Settled(s, t); }
    forall q ensures Recorded(s', q) && Housed(s', q) { assert Recorded(s, q) && Housed(s, q); }
  }

  lemma CppKeeps(w: World, op: Op)
    requires Inv(w.store) && Enabled(w, op)
    ensures op.CppMove? || op.CppFinish? || op.CppDestroy? ==> Inv(Apply(w, op).store)
  {
    if op.CppMove? || op.CppFinish? || op.CppDestroy? {
      var c := if op.CppMove? then op.dst else op.c;
      var x := w.cpps[c];
      if x.owner.Some? { ConsumedKeeps(w.store, Filed(x.owner.value, x.queryId), true); }
    }
  }

  lemma StepKeeps(w: World, op: Op)
    requires Inv(w.store) && Enabled(w, op)
    ensures Inv(Apply(w, op).store)
  {
    var s := w.store;
    match op
    case RustRecv(t) =>
      assert Recorded(s, Loose(t));
      PutKeeps(s, Loose(t), t);
    case RustFinish(t) => ConsumedKeeps(s, Loose(t), true);
    case RustDrop(t) => ConsumedKeeps(s, Loose(t), false);
    case CRecv(p, id, t) =>
      ConsumedKeeps(s, Filed(p, id), false);
      assert Recorded(s, Filed(p, id));
      if Usable(s, p) { PutKeeps(Consumed(s, Filed(p, id), false), Filed(p, id), t); }
    case CFinish(p, id) => ConsumedKeeps(s, Filed(p, id), true);
    case CFinishNext(p, id) => ConsumedKeeps(s, Filed(p, id), true);
    case CDeclare(p) => StagesKeep(s, Apply(w, op).store);
    case CUndeclare(p) => if Usable(s, p) { StagesKeep(s, Apply(w, op).store); }
    case CFree(p) => StagesKeep(s, Apply(w, op).store);
    case CppNew(_, _, _) =>
    case CppDefault(_) =>
    case _ => CppKeeps(w, op);
  }

  ghost predicate Legal(w: World, ops: seq<Op>)
    decreases |ops|
  {
    ops == [] || (Enabled(w, ops[0]) && Legal(Apply(w, ops[0]), ops[1..]))
  }

  ghost function After(w: World, ops: seq<Op>): World
    requires Legal(w, ops)
    decreases |ops|
  {
    if ops == [] then w else After(Apply(w, ops[0]), ops[1..])
  }

  lemma {:induction false} RunKeeps(w: World, ops: seq<Op>)
    requires Inv(w.store) && Legal(w, ops)
    ensures Inv(After(w, ops).store)
    decreases |ops|
  {
    if ops != [] {
      StepKeeps(w, ops[0]);
      RunKeeps(Apply(w, ops[0]), ops[1..]);
    }
  }

  /** Whatever sequence of finishes, drops, map insertions and removals, undeclare sweeps,
      C++ moves and destructions: a query that is gone has had exactly one Finish enqueued,
      and a query that is not has had none and is held, unfinished, in one place. */
  lemma FinishExactlyOnce(ops: seq<Op>, t: Token)
    requires Legal(Empty, ops) && t in After(Empty, ops).store.places
    ensures var s := After(Empty, ops).store;
      && s.enqueued[t] == (if s.places[t].None? then 1 else 0)
      && (forall pl :: pl in s.held && s.held[pl].token == t <==> s.places[t] == Some(pl))
  {
    RunKeeps(Empty, ops);
    var s := After(Empty, ops).store;
    assert Sits(s, t) && Settled(s, t);
    forall pl ensures pl in s.held && s.held[pl].token == t <==> s.places[t] == Some(pl) {
      assert Recorded(s, pl);
    }
  }

  /** A queryable that has been freed has taken no query with it: every query that was ever
      filed there is gone, with its one Finish. */
  lemma UndeclareSweeps(ops: seq<Op>, p: Ptr, t: Token)
    requires Legal(Empty, ops) && t in After(Empty, ops).store.places
    requires p in After(Empty, ops).store.stages && After(Empty, ops).store.stages[p].Freed?
    ensures var s := After(Empty, ops).store;
      s.places[t].Some? && s.places[t].value.Filed? ==> s.places[t].value.p != p
  {
    RunKeeps(Empty, ops);
    var s := After(Empty, ops).store;
    assert Sits(s, t);
    if s.places[t].Some? { assert Housed(s, s.places[t].value); }
  }

  // ---------- which operations finish which query ----------

  /** The place whose query an operation uses up: the Rust query finished or dropped; the one
      filed under an id that is finished, swept or replaced; the one a C++ object owns and is
      to finish. */
  function Uses(w: World, op: Op): Option<Place> {
    match op
    case RustFinish(t) => Some(Loose(t))
    case RustDrop(t) => Some(Loose(t))
    case CRecv(p, id, _) => if Usable(w.store, p) then Some(Filed(p, id)) else None
    case CFinish(p, id) => if Usable(w.store, p) then Some(Filed(p, id)) else None
    case CFinishNext(p, id) => Some(Filed(p, id))
    case CppFinish(c) => if c in w.cpps then NamedBy(w, c) else None
    case CppDestroy(c) => if c in w.cpps && w.cpps[c].autoFinish then NamedBy(w, c) else None
    case CppMove(dst, src) => if dst != src && dst in w.cpps && w.cpps[dst].autoFinish then NamedBy(w, dst) else None
    case _ => None
  }

  /** The place that a C++ object names. */
  function NamedBy(w: World, c: CppId): Option<Place>
    requires c in w.cpps
  {
    var x := w.cpps[c];
    if x.owner.Some? && Usable(w.store, x.owner.value) then Some(Filed(x.owner.value, x.queryId)) else None
  }

  /** The query that an operation brings in, and where. */
  function Brings(w: World, op: Op): Option<(Place, Token)> {
    match op
    case RustRecv(t) => Some((Loose(t), t))
    case CRecv(p, id, t) => if Usable(w.store, p) then Some((Filed(p, id), t)) else None
    case _ => None
  }

  /** The effect of any operation on the queries: the one it uses up, if there is one, is gone
      with one more Finish; the one it brings in is held unfinished where it was put; every
      other query stays where it is, with no more Finish than before. */
  ghost predicate Effect(s: Store, s': Store, used: Option<Place>, brought: Option<(Place, Token)>) {
    && (forall pl :: pl in s'.held <==> (pl in s.held && used != Some(pl)) || (brought.Some? && brought.value.0 == pl))
    && (forall pl :: pl in s'.held ==>
          if brought.Some? && brought.value.0 == pl then s'.held[pl] == Query(brought.value.1, false)
          else pl in s.held && s'.held[pl] == s.held[pl])
    && s'.enqueued == s.enqueued +
         (if used.Some? && used.value in s.held then multiset{s.held[used.value].token} else multiset{})
    && (used.Some? && used.value in s.held ==>
          var t := s.held[used.value].token; t in s'.places && s'.places[t] == None)
    && (brought.Some? ==> brought.value.1 in s'.places && s'.places[brought.value.1] == Some(brought.value.0))
    && (forall t :: t in s.places ==> t in s'.places && (s'.places[t] == s.places[t] || s'.places[t] == None))
  }

  lemma ConsumedEffect(s: Store, pl: Place, finish: bool)
    requires Inv(s)
    ensures Effect(s, Consumed(s, pl, finish), Some(pl), None)
  {
    assert Recorded(s, pl);
    if pl in s.held { FinishedOnce(s.held[pl]); }
  }

  lemma OperationEffect(w: World, op: Op)
    requires Inv(w.store) && Enabled(w, op)
    ensures Effect(w.store, Apply(w, op).store, Uses(w, op), Brings(w, op))
  {
    var s := w.store;
    match op
    case RustFinish(t) => ConsumedEffect(s, Loose(t), true);
    case RustDrop(t) => ConsumedEffect(s, Loose(t), false);
    case CRecv(p, id, t) => if Usable(s, p) { ReplacedEffect(s, Filed(p, id), t); }
    case CFinish(p, id) => ConsumedEffect(s, Filed(p, id), true);
    case CFinishNext(p, id) => ConsumedEffect(s, Filed(p, id), true);
    case CppFinish(c) => NamedEffect(w, c);
    case CppDestroy(c) => NamedEffect(w, c);
    case CppMove(dst, _) => NamedEffect(w, dst);
    case _ =>
  }

  lemma ReplacedEffect(s: Store, pl: Place, t: Token)
    requires Inv(s) && t !in s.places
    ensures Effect(s, Put(Consumed(s, pl, false), pl, t), Some(pl), Some((pl, t)))
  {
    ConsumedEffect(s, pl, false);
    assert Recorded(s, pl);
  }

  lemma NamedEffect(w: World, c: CppId)
    requires Inv(w.store) && c in w.cpps
    ensures var x := w.cpps[c];
      && (x.owner.Some? ==> Effect(w.store, FinishById(w, x.owner.value, x.queryId).store, NamedBy(w, c), None))
      && Effect(w.store, w.store, None, None)
  {
    var x := w.cpps[c];
    if x.owner.Some? { ConsumedEffect(w.store, Filed(x.owner.value, x.queryId), true); }
  }

  lemma {:induction false} GoneStays(w: World, ops: seq<Op>, t: Token)
    requires Inv(w.store) && Legal(w, ops) && t in w.store.places && w.store.places[t].None?
    ensures t in After(w, ops).store.places && After(w, ops).store.places[t].None?
    decreases |ops|
  {
    if ops != [] {
      StepKeeps(w, ops[0]);
      GoneStep(w, ops[0], t);
      GoneStays(Apply(w, ops[0]), ops[1..], t);
    }
  }

  lemma GoneStep(w: World, op: Op, t: Token)
    requires Inv(w.store) && Enabled(w, op) && t in w.store.places && w.store.places[t].None?
    ensures t in Apply(w, op).store.places && Apply(w, op).store.places[t].None?
  {
    OperationEffect(w, op);
  }

  /** A query that was finished, dropped, swept, replaced, or finished by its C++ object has had
      its one Finish, ever after, and is held nowhere. */
  lemma UsedUpForGood(ops: seq<Op>, op: Op, later: seq<Op>, t: Token)
    requires Legal(Empty, ops) && Enabled(After(Empty, ops), op) && Legal(Apply(After(Empty, ops), op), later)
    requires var w := After(Empty, ops);
      Uses(w, op).Some? && Uses(w, op).value in w.store.held && w.store.held[Uses(w, op).value].token == t
    ensures var s := After(Apply(After(Empty, ops), op), later).store;
      s.enqueued[t] == 1 && forall pl :: pl in s.held ==> s.held[pl].token != t
  {
    RunKeeps(Empty, ops);
    var w := After(Empty, ops);
    OperationEffect(w, op);
    StepKeeps(w, op);
    GoneStays(Apply(w, op), later, t);
    RunKeeps(Apply(w, op), later);
    var s := After(Apply(w, op), later).store;
    assert Settled(s, t);
    forall pl | pl in s.held ensures s.held[pl].token != t { assert Recorded(s, pl); }
  }

  // ---------- one C++ owner at a time ----------

  /** What a C++ object names, whether or not it is to finish it. */
  function Named(x: CppQuery): Option<Place> {
    if x.owner.Some? then Some(Filed(x.owner.value, x.queryId)) else None
  }

  ghost predicate OneOwner(w: World) {
    forall c, d :: c in w.cpps && d in w.cpps && c != d && Named(w.cpps[c]).Some? ==>
      Named(w.cpps[c]) != Named(w.cpps[d])
  }

  function NamesNext(w: World, op: Op, c: CppId): Option<Place> {
    if op.CppNew? && op.c == c then Some(Filed(op.p, op.id))
    else if c !in w.cpps || (op.CppDefault? && op.c == c) then None
    else if op.CppMove? && op.dst != op.src && op.dst == c then
      if op.src in w.cpps then Named(w.cpps[op.src]) else None
    else if op.CppMove? && op.dst != op.src && op.src == c then None
    else if op.CppFinish? && op.c == c && NamedBy(w, c).Some? && NamedBy(w, c).value in w.store.held then None
    else Named(w.cpps[c])
  }

  /** What the C++ objects name after an operation: a new object names what it was created
      for; a move hands over what the source named, and the source then names nothing; an
      object that has finished its query, or is destroyed, names nothing; all else stays. */
  lemma NamesAfter(w: World, op: Op, c: CppId)
    requires Enabled(w, op)
    ensures var w' := Apply(w, op);
      && (c in w'.cpps <==> (c in w.cpps && op != CppDestroy(c)) || ((op.CppNew? || op.CppDefault?) && op.c == c))
      && (c in w'.cpps ==> (Named(w'.cpps[c]) == NamesNext(w, op, c)))
  {
    match op case _ =>
  }

  /** Queries are move-only: from a world in which no two C++ objects name the same query, an
      operation leads to another such world, unless it creates an object for a query that
      another object already names. */
  lemma OneOwnerStep(w: World, op: Op)
    requires OneOwner(w) && Enabled(w, op)
    ensures OneOwner(Apply(w, op)) <==>
      !(op.CppNew? && exists c :: c in w.cpps && Named(w.cpps[c]) == Some(Filed(op.p, op.id)))
  {
    var w' := Apply(w, op);
    forall c ensures c in w'.cpps ==> (c in w.cpps || ((op.CppNew? || op.CppDefault?) && op.c == c)) { NamesAfter(w, op, c); }
    if op.CppNew? {
      NamesAfter(w, op, op.c);
      forall c | c in w.cpps ensures c != op.c && c in w'.cpps && Named(w'.cpps[c]) == Named(w.cpps[c]) { NamesAfter(w, op, c); }
    } else {
      forall c, d | c in w'.cpps && d in w'.cpps && c != d && Named(w'.cpps[c]).Some?
        ensures Named(w'.cpps[c]) != Named(w'.cpps[d])
      {
        NamesAfter(w, op, c);
        NamesAfter(w, op, d);
      }
    }
  }

  /** A C++ object is to finish its query exactly as long as it has one. */
  ghost predicate Armed(w: World) {
    forall c :: c in w.cpps ==> w.cpps[c].autoFinish == w.cpps[c].owner.Some?
  }

  lemma {:induction false} AlwaysArmed(w: World, ops: seq<Op>)
    requires Armed(w) && Legal(w, ops)
    ensures Armed(After(w, ops))
    decreases |ops|
  {
    if ops != [] {
      ArmedStep(w, ops[0]);
      AlwaysArmed(Apply(w, ops[0]), ops[1..]);
    }
  }

  lemma ArmedStep(w: World, op: Op)
    requires Armed(w) && Enabled(w, op)
    ensures Armed(Apply(w, op))
  {
  }

  /** After any run, a query still filed does not outlive the C++ object that names it: the
      object's destruction, and any assignment to it, uses the query up. */
  lemma NotOutlived(ops: seq<Op>, c: CppId, src: CppId)
    requires Legal(Empty, ops) && c in After(Empty, ops).cpps && c != src
    ensures var w := After(Empty, ops);
      Uses(w, CppDestroy(c)) == NamedBy(w, c) && Uses(w, CppMove(c, src)) == NamedBy(w, c)
      && Uses(w, CppFinish(c)) == NamedBy(w, c)
  {
    AlwaysArmed(Empty, ops);
  }

  /** The stage of a queryable, if it was ever declared. */
  function StageOf(s: Store, p: Ptr): Option<Stage> { if p in s.stages then Some(s.stages[p]) else None }

  lemma FinishStage(w: World, q: Ptr, id: QueryId, p: Ptr)
    ensures StageOf(FinishById(w, q, id).store, p) == StageOf(w.store, p)
  {
  }

  lemma CppStage(w: World, op: Op, p: Ptr)
    requires Enabled(w, op)
    ensures op.CppMove? || op.CppFinish? || op.CppDestroy? ==> StageOf(Apply(w, op).store, p) == StageOf(w.store, p)
  {
    if op.CppMove? || op.CppFinish? || op.CppDestroy? {
      var x := w.cpps[if op.CppMove? then op.dst else op.c];
      if x.owner.Some? { FinishStage(w, x.owner.value, x.queryId, p); }
    }
  }

  /** A queryable can be used from its declaration until it is handed to undeclare, and is freed
      at the end of that. */
  lemma UsableAfter(w: World, op: Op, p: Ptr)
    requires Enabled(w, op)
    ensures StageOf(Apply(w, op).store, p) ==
      if op == CDeclare(p) then Some(Open)
      else if op == CUndeclare(p) && Usable(w.store, p) then Some(Closing)
      else if op == CFree(p) then Some(Freed)
      else StageOf(w.store, p)
  {
    match op
    case CDeclare(_) =>
    case CUndeclare(_) =>
    case CFree(_) =>
    case CppMove(_, _) => CppStage(w, op, p);
    case CppFinish(_) => CppStage(w, op, p);
    case CppDestroy(_) => CppStage(w, op, p);
    case CRecv(_, _, _) => CStage(w, op, p);
    case CFinish(_, _) => CStage(w, op, p);
    case CFinishNext(_, _) => CStage(w, op, p);
    case _ => RustStage(w, op, p);
  }

  lemma CStage(w: World, op: Op, p: Ptr)
    requires Enabled(w, op)
    ensures op.CRecv? || op.CFinish? || op.CFinishNext? ==> StageOf(Apply(w, op).store, p) == StageOf(w.store, p)
  {
  }

  lemma RustStage(w: World, op: Op, p: Ptr)
    requires Enabled(w, op)
    ensures op.RustRecv? || op.RustFinish? || op.RustDrop? || op.CppNew? || op.CppDefault? ==>
      StageOf(Apply(w, op).store, p) == StageOf(w.store, p)
  {
  }

  // ---------- dangling owners ----------

  /** Every C++ query that still has an owner points to a usable queryable. */
  ghost predicate NoDangling(w: World) {
    forall c :: c in w.cpps && w.cpps[c].owner.Some? ==> Usable(w.store, w.cpps[c].owner.value)
  }

  /** Nothing undeclared was used so far, and no C++ query could do so. */
  ghost predicate Safe(w: World) { !w.fault && NoDangling(w) }

  /** What a caller has to see to: receive, finish and undeclare on declared queryables only,
      and undeclare one only when no C++ query has it as its owner. */
  ghost predicate Guarded(w: World, op: Op) {
    match op
    case CRecv(p, _, _) => Usable(w.store, p)
    case CFinish(p, _) => Usable(w.store, p)
    case CppNew(_, p, _) => Usable(w.store, p)
    case CUndeclare(p) => Usable(w.store, p) && forall c :: c in w.cpps ==> w.cpps[c].owner != Some(p)
    case _ => true
  }

  lemma SafeCpp(w: World, op: Op)
    requires Safe(w) && Enabled(w, op)
    ensures op.CppMove? || op.CppFinish? || op.CppDestroy? ==> Safe(Apply(w, op))
  {
  }

  lemma SafeUndeclare(w: World, p: Ptr)
    requires Safe(w) && Enabled(w, CUndeclare(p))
    ensures Safe(Apply(w, CUndeclare(p))) <==> Guarded(w, CUndeclare(p))
  {
    var w' := Apply(w, CUndeclare(p));
    if Usable(w.store, p) { assert forall q :: Usable(w'.store, q) <==> Usable(w.store, q) && q != p; }
  }

  /** No C++ move, finish or destruction ever uses an undeclared queryable or leaves a
      dangling owner; of the other operations each does exactly when its guard fails. */
  lemma SafeStep(w: World, op: Op)
    requires Safe(w) && Enabled(w, op)
    ensures Safe(Apply(w, op)) <==> Guarded(w, op)
  {
    if op.CppMove? || op.CppFinish? || op.CppDestroy? {
      SafeCpp(w, op);
    } else if op.CUndeclare? {
      SafeUndeclare(w, op.p);
    } else if op.CppNew? {
      assert Apply(w, op).cpps[op.c].owner == Some(op.p);
    } else {
      assert forall q :: Usable(w.store, q) ==> Usable(Apply(w, op).store, q);
    }
  }

  ghost predicate AlwaysSafe(w: World, ops: seq<Op>)
    requires Legal(w, ops)
    decreases |ops|
  {
    Safe(w) && (ops != [] ==> AlwaysSafe(Apply(w, ops[0]), ops[1..]))
  }

  ghost predicate AllGuarded(w: World, ops: seq<Op>)
    requires Legal(w, ops)
    decreases |ops|
  {
    ops != [] ==> Guarded(w, ops[0]) && AllGuarded(Apply(w, ops[0]), ops[1..])
  }

  /** Over every sequence of operations: no queryable is used after undeclare and no owner
      ever dangles if and only if every operation met its guard. */
  lemma {:induction false} SafeRun(w: World, ops: seq<Op>)
    requires Safe(w) && Legal(w, ops)
    ensures AlwaysSafe(w, ops) <==> AllGuarded(w, ops)
    decreases |ops|
  {
    if ops != [] {
      SafeStep(w, ops[0]);
      if Safe(Apply(w, ops[0])) { SafeRun(Apply(w, ops[0]), ops[1..]); }
    }
  }

  /** Three operations suffice to go wrong: a C++ query is created for a queryable, the
      queryable is undeclared, and the query is destroyed; and so do two undeclares. */
  lemma DestroyedTooLate(p: Ptr, id: QueryId) returns (ops: seq<Op>, twice: seq<Op>)
    ensures Legal(Empty, ops) && After(Empty, ops).fault && !AllGuarded(Empty, ops)
    ensures Legal(Empty, twice) && After(Empty, twice).fault && !AllGuarded(Empty, twice)
  {
    ops := [CDeclare(p), CppNew(0, p, id), CUndeclare(p), CppDestroy(0)];
    var w1 := Apply(Empty, ops[0]);
    var w2 := Apply(w1, ops[1]);
    var w3 := Apply(w2, ops[2]);
    assert ops[1..][1..][1..][1..] == [] && ops[1..][1..][1..] == [CppDestroy(0)];
    var w4 := Apply(w3, CppDestroy(0));
    assert w4.fault && Legal(w4, []) && After(w4, []) == w4;
    assert Legal(w3, ops[1..][1..][1..]) && After(w3, ops[1..][1..][1..]).fault;
    assert Legal(w2, ops[1..][1..]) && After(w2, ops[1..][1..]).fault;
    assert w2.cpps[0].owner == Some(p) && !AllGuarded(w2, ops[1..][1..]);
    assert Legal(w1, ops[1..]) && After(w1, ops[1..]).fault && !AllGuarded(w1, ops[1..]);
    twice := [CDeclare(p), CUndeclare(p), CUndeclare(p)];
    var v2 := Apply(w1, twice[1]);
    assert twice[1..][1..][1..] == [] && twice[1..][1..] == [CUndeclare(p)];
    var v3 := Apply(v2, CUndeclare(p));
    assert v3.fault && Legal(v3, []) && After(v3, []) == v3;
    assert Legal(v2, twice[1..][1..]) && After(v2, twice[1..][1..]).fault && !AllGuarded(v2, twice[1..][1..]);
    assert Legal(w1, twice[1..]) && After(w1, twice[1..]).fault && !AllGuarded(w1, twice[1..]);
  }

  // ---------- the C and C++ objects, updated in place ----------

  /** The queryable's send queue, as far as Finish commands are concerned. */
  class Outbox {
    var enqueued: multiset<Token>
    constructor () ensures enqueued == multiset{} { enqueued := multiset{}; }
  }

  ghost function OwedIds(m: map<QueryId, Query>, t: Token): set<QueryId> {
    set id | id in m && m[id].token == t && !m[id].finished
  }

  /** How many Finish commands for `t` are owed by the queries of a map. */
  ghost function Owed(m: map<QueryId, Query>, t: Token): nat { |OwedIds(m, t)| }

  lemma OwedRemove(m: map<QueryId, Query>, id: QueryId, t: Token)
    requires id in m
    ensures Owed(m, t) == Owed(m - {id}, t) + FinishCommands(m[id])[t]
  {
    var b := OwedIds(m - {id}, t);
    if m[id].token == t && !m[id].finished {
      FinishedOnce(m[id]);
      assert OwedIds(m, t) == b + {id} && id !in b;
    } else {
      assert OwedIds(m, t) == b;
      assert m[id].finished || multiset{m[id].token}[t] == 0;
    }
  }

  class CQueryable {
    const outbox: Outbox
    var active: map<QueryId, Query>

    constructor (outbox: Outbox)
      ensures this.outbox == outbox && active == map[]
    {
      this.outbox := outbox;
      active := map[];
    }

    /** Inserting over an id drops the query filed there. */
    method RecvQueryIntoMap(id: QueryId, q: Query)
      modifies this`active, outbox
      ensures active == old(active)[id := q]
      ensures outbox.enqueued ==
        old(outbox.enqueued) + if id in old(active) then DropCommands(old(active)[id]) else multiset{}
    {
      var replaced := if id in active then Some(active[id]) else None;
      active := active[id := q];
      if replaced.Some? { DropQuery(replaced.value); }
    }

    method DropQuery(q: Query)
      modifies outbox
      ensures outbox.enqueued == old(outbox.enqueued) + DropCommands(q)
    {
      if !q.finished { outbox.enqueued := outbox.enqueued + multiset{q.token}; }
    }

    /** `finish(self)`: the flag decides, then the query is dropped. */
    method FinishQuery(q: Query)
      modifies outbox
      ensures outbox.enqueued == old(outbox.enqueued) + FinishCommands(q)
    {
      var first := !q.finished;
      if first { outbox.enqueued := outbox.enqueued + multiset{q.token}; }
      DropQuery(q.(finished := true));
    }

    method Finish(id: QueryId) returns (rc: int)
      modifies this`active, outbox
      ensures rc == if id in old(active) then 0 else -1
      ensures active == old(active) - {id}
      ensures outbox.enqueued ==
        old(outbox.enqueued) + if id in old(active) then FinishCommands(old(active)[id]) else multiset{}
    {
      if id !in active {
        assert active - {id} == active;
        return -1;
      }
      var q := active[id];
      active := active - {id};
      FinishQuery(q);
      return 0;
    }

    /** The undeclare sweep: the map is taken, and every query in it gets its Finish. */
    method FinishAllActiveQueries()
      modifies this`active, outbox
      ensures active == map[]
      ensures forall t :: outbox.enqueued[t] == old(outbox.enqueued)[t] + Owed(old(active), t)
    {
      var queries := active;
      active := map[];
      while queries != map[]
        invariant active == map[]
        invariant forall t :: outbox.enqueued[t] + Owed(queries, t) == old(outbox.enqueued)[t] + Owed(old(active), t)
        decreases |queries|
      {
        var id :| id in queries;
        forall t ensures Owed(queries, t) == Owed(queries - {id}, t) + FinishCommands(queries[id])[t] {
          OwedRemove(queries, id, t);
        }
        FinishQuery(queries[id]);
        assert (queries - {id}).Keys == queries.Keys - {id};
        queries := queries - {id};
      }
    }
  }

  class CppQueryObject {
    var owner: CQueryable?
    var queryId: QueryId
    var autoFinish: bool

    constructor (owner: CQueryable?, id: QueryId, autoFinish: bool)
      ensures this.owner == owner && queryId == id && this.autoFinish == autoFinish
    {
      this.owner, queryId, this.autoFinish := owner, id, autoFinish;
    }

    /** Lets go of the query; finishes it first if this object is to do so. */
    method FinishNoexcept()
      modifies this, if owner == null then {} else {owner, owner.outbox}
      ensures owner == null && !autoFinish && queryId == old(queryId)
      ensures old(owner) != null ==>
        if old(autoFinish) then
          && old(owner).active == old(owner.active) - {queryId}
          && old(owner).outbox.enqueued == old(owner.outbox.enqueued)
               + (if queryId in old(owner.active) then FinishCommands(old(owner.active)[queryId]) else multiset{})
        else old(owner).active == old(owner.active) && old(owner).outbox.enqueued == old(owner.outbox.enqueued)
    {
      if owner != null && autoFinish { var rc := owner.Finish(queryId); }
      owner := null;
      autoFinish := false;
    }

    /** Move assignment from another object: what this one owned is finished, what the
        other owned is now owned here and by nobody else. */
    method MoveFrom(other: CppQueryObject)
      requires other != this
      modifies this, other, if owner == null then {} else {owner, owner.outbox}
      ensures owner == old(other.owner) && queryId == old(other.queryId) && autoFinish == old(other.autoFinish)
      ensures other.owner == null && other.queryId == 0 && !other.autoFinish
      ensures old(owner) != null && old(autoFinish) ==>
        && old(owner).active == old(owner.active) - {old(queryId)}
        && old(owner).outbox.enqueued == old(owner.outbox.enqueued)
             + (if old(queryId) in old(owner.active) then FinishCommands(old(owner.active)[old(queryId)]) else multiset{})
      ensures old(owner) != null && !old(autoFinish) ==>
        old(owner).active == old(owner.active) && old(owner).outbox.enqueued == old(owner.outbox.enqueued)
    {
      FinishNoexcept();
      owner, queryId, autoFinish := other.owner, other.queryId, other.autoFinish;
      other.owner, other.queryId, other.autoFinish := null, 0, false;
    }

    /** An explicit finish: throws without an owner, or when the id is no longer filed, and
        then leaves the object as it was. */
    method Finish() returns (threw: bool)
      modifies this, if owner == null then {} else {owner, owner.outbox}
      ensures threw <==> old(owner) == null || queryId !in old(owner.active)
      ensures threw ==> owner == old(owner) && autoFinish == old(autoFinish)
      ensures !threw ==> owner == null && !autoFinish
      ensures queryId == old(queryId)
      ensures old(owner) != null ==>
        && old(owner).active == old(owner.active) - {queryId}
        && old(owner).outbox.enqueued == old(owner.outbox.enqueued)
             + (if queryId in old(owner.active) then FinishCommands(old(owner.active)[queryId]) else multiset{})
    {
      if owner == null { return true; }
      var rc := owner.Finish(queryId);
      if rc != 0 { return true; }
      owner := null;
      autoFinish := false;
      return false;
    }
  }
}
