/** The interleaved server together with any number of client-side objects (publishers,
    subscribers, queryables, queriers of any sessions): remote-handle bindings, the
    queryable's event worker with its drop-oldest inbox, and its command worker. Any RPC
    outcome may be lost; a handler whose answer was lost may still run on; every other
    client, including impostors, may send anything. One server lifetime. */
module Cluster {
  import opened Base
  import opened PluginState
  import opened Handlers
  import opened Bindings

  const RECV_QUEUE_CAPACITY: nat := 256

  /** The event worker of a queryable: between streams, holding a handle, reading the
      stream of a handle from a position of its broadcast, or pushing an event. */
  datatype Stream =
    | Off
    | Have(handle: Handle)
    | At(handle: Handle, pos: nat)
    | Got(handle: Handle, pos: nat, id: QueryId)

  datatype Obj = Obj(
    kind: Kind, client: ClientId, args: Args,
    binding: Option<Handle>,
    declaring: Option<OpId>,        // the binding lock is held across the declare call
    stream: Stream,
    inbox: seq<QueryIdentity>,      // the event queue
    active: map<QueryId, QueryIdentity>,
    stale: set<QueryIdentity>,
    waiting: set<QueryIdentity>,    // queries with a command submitted to the send queue
    // history
    held: set<Handle>,              // handles obtained so far
    current: Option<Handle>,        // the latest of them
    refused: set<Handle>,           // handles some request was answered stale for
    dead: set<QueryIdentity>,       // queries some command was answered stale for
    discarded: set<QueryIdentity>,  // queries some command was discarded for
    finished: set<QueryIdentity>,   // queries with a finish that was acknowledged
    denied: bool,                   // some own request was answered PermissionDenied
    received: seq<QueryIdentity>,   // queries handed to the application
    mark: nat,                      // above every id read from a stream so far
    log: Reading)

  /** History of the events read from the streams, and what became of them, by their positions:
      handed to the application, in the inbox, popped by an overflow, or cut off because the
      object was closed while the event was being pushed. */
  datatype Reading = Reading(
    read: seq<QueryIdentity>, taken: seq<nat>, queued: seq<nat>, popped: set<nat>, cut: set<nat>)

  datatype State = State(srv: Server, objs: map<ObjId, Obj>)

  /** What one object does. A command is submitted through the query object, which knows its
      identity, or by query id; the worker sends it, any number of times, or discards it when
      its query is marked stale. Touches are the server's `OnTouch`, at any time. */
  datatype ObjStep =
    | EnsureDeclare(op: OpId, now: Instant) | EnsureDone | EnsureLost | EnsureHit
    | Invalidate(handle: Handle) | TakeHandle
    | UseHandle(handle: Handle)
    | Subscribe | Read(index: nat) | Enqueue | PopOldest | Break | AppRecv
    | Submit(identity: QueryIdentity) | SubmitById(query: QueryId)
    | SendCommand(identity: QueryIdentity, finish: bool, answered: bool)
    | MarkStale(identity: QueryIdentity) | Discard(identity: QueryIdentity)

  datatype CStep =
    | Server(step: Handlers.Step)                                       // anyone else
    | Create(o: ObjId, kind: Kind, client: ClientId, args: Args)
    | Client(o: ObjId, c: ObjStep)

  const Init := State(Start, map[])

  function NewObj(kind: Kind, client: ClientId, args: Args): Obj {
    Obj(kind, client, args, None, None, Off, [], map[], {}, {}, {}, None, {}, {}, {}, {}, false, [], 0, Reading([], [], [], {}, {}))
  }

  predicate ObjEnabled(s: Handlers.Server, b: Obj, c: ObjStep) {
    match c
    case EnsureDeclare(op, _) => b.binding.None? && b.declaring.None? && b.stream.Off? && op !in s.ops
    case EnsureDone => b.declaring.Some? && b.declaring.value in s.ops && s.ops[b.declaring.value].Declared?
    case EnsureLost => b.declaring.Some?
    case EnsureHit => b.kind.Queryable? && b.declaring.None? && b.binding.Some? && b.stream.Off?
    case Invalidate(h) => b.declaring.None? && h in b.refused
    case TakeHandle => b.declaring.None?
    case UseHandle(h) => h in b.held
    case Subscribe => b.stream.Have?
    case Read(j) => b.stream.At? && b.stream.pos <= j < |LogOf(s, b.stream.handle)|
    case Enqueue => b.stream.Got? && |b.inbox| < RECV_QUEUE_CAPACITY
    case PopOldest => b.stream.Got? && |b.inbox| == RECV_QUEUE_CAPACITY
    case Break => true
    case AppRecv => b.inbox != []
    case Submit(identity) => identity in b.received
    case SubmitById(q) => q in b.active
    case SendCommand(identity, _, _) => identity in b.waiting && identity !in b.stale
    case MarkStale(identity) => identity in b.dead
    case Discard(identity) => identity in b.waiting && identity in b.stale
  }

  /** The request a client step puts to the server, if any. */
  function Request(b: Obj, o: ObjId, c: ObjStep): Option<Handlers.Step> {
    match c
    case EnsureDeclare(op, now) => Some(OnDeclare(op, Begin(b.kind, b.client, b.args, Some(o), now)))
    case SendCommand(identity, finish, _) => Some(OnQuery(b.client, identity.handle, identity.queryId, finish))
    case _ => None
  }

  predicate Enabled(s: State, step: CStep) {
    match step
    case Server(st) => Handlers.Enabled(s.srv, st) && !(st.OnDeclare? && st.d.Begin? && st.d.obj.Some?)
    case Create(o, _, _, _) => o !in s.objs
    case Client(o, c) => o in s.objs && ObjEnabled(s.srv, s.objs[o], c)
  }

  function Noted(b: Obj, h: Handle, code: Code): Obj {
    b.(refused := if IsStale(code) then b.refused + {h} else b.refused,
       denied := b.denied || code.PermissionDenied?)
  }

  function Identity(b: Obj): QueryIdentity
    requires b.stream.Got?
  {
    QueryIdentity(b.stream.handle, b.stream.id)
  }

  /** The position of the event read last. */
  function Last(b: Obj): nat { if b.log.read == [] then 0 else |b.log.read| - 1 }

  function Tail(s: seq<nat>): seq<nat> { if s == [] then [] else s[1..] }
  function Front(s: seq<nat>): set<nat> { if s == [] then {} else {s[0]} }

  function ObjDo(s: Handlers.Server, b: Obj, c: ObjStep): Obj
    requires ObjEnabled(s, b, c)
  {
    match c
    case EnsureDeclare(op, _) => b.(declaring := Some(op))
    case EnsureDone =>
      var h := s.ops[b.declaring.value].handle;
      b.(binding := Some(h), declaring := None, held := b.held + {h}, current := Some(h),
         stream := if b.kind.Queryable? then Have(h) else Off)
    case EnsureLost => b.(declaring := None)
    case EnsureHit => b.(stream := Have(b.binding.value))
    case Invalidate(h) => b.(binding := Cleared(b.binding, h))
    case TakeHandle => b.(binding := None)
    case UseHandle(h) => Noted(b, h, LookupCode(TableOf(s.core, b.kind), b.client, h))
    case Subscribe =>
      var h := b.stream.handle;
      var code := LookupCode(s.core.queryables, b.client, h);
      if code.Ok? then b.(stream := At(h, |LogOf(s, h)|)) else Noted(b, h, code).(stream := Off)
    case Read(j) =>
      var h := b.stream.handle;
      var id := LogOf(s, h)[j];
      b.(stream := Got(h, j + 1, id), mark := id + 1, log := b.log.(read := b.log.read + [QueryIdentity(h, id)]))
    case Enqueue =>
      b.(inbox := b.inbox + [Identity(b)], stream := At(b.stream.handle, b.stream.pos),
         log := b.log.(queued := b.log.queued + [Last(b)]))
    case PopOldest =>
      b.(inbox := b.inbox[1..], log := b.log.(queued := Tail(b.log.queued), popped := b.log.popped + Front(b.log.queued)))
    case Break => b.(stream := Off, log := b.log.(cut := if b.stream.Got? then b.log.cut + {Last(b)} else b.log.cut))
    case AppRecv =>
      b.(inbox := b.inbox[1..], received := b.received + [b.inbox[0]],
         active := b.active[b.inbox[0].queryId := b.inbox[0]],
         log := b.log.(queued := Tail(b.log.queued), taken := b.log.taken + b.log.queued[..|b.log.queued| - |Tail(b.log.queued)|]))
    case Submit(identity) => b.(waiting := b.waiting + {identity})
    case SubmitById(q) => b.(waiting := b.waiting + {b.active[q]})
    case SendCommand(identity, finish, answered) =>
      var code := QueryCode(s.core.inflight, b.client, identity.handle, identity.queryId);
      b.(dead := if IsStale(code) then b.dead + {identity} else b.dead, denied := b.denied || code.PermissionDenied?,
         active := if finish && answered && code.Ok? then b.active - {identity.queryId} else b.active,
         finished := if finish && answered && code.Ok? then b.finished + {identity} else b.finished)
    case MarkStale(identity) => b.(stale := b.stale + {identity}, active := b.active - {identity.queryId})
    case Discard(identity) => b.(discarded := b.discarded + {identity})
  }

  function ServerAfter(s: State, o: ObjId, c: ObjStep): Handlers.Server
    requires o in s.objs && ObjEnabled(s.srv, s.objs[o], c)
  {
    match Request(s.objs[o], o, c)
    case None => s.srv
    case Some(st) => if Handlers.Enabled(s.srv, st) then Handlers.Apply(s.srv, st) else s.srv
  }

  function Apply(s: State, step: CStep): State
    requires Enabled(s, step)
  {
    match step
    case Server(st) => s.(srv := Handlers.Apply(s.srv, st))
    case Create(o, kind, client, args) => s.(objs := s.objs[o := NewObj(kind, client, args)])
    case Client(o, c) => State(ServerAfter(s, o, c), s.objs[o := ObjDo(s.srv, s.objs[o], c)])
  }

  // ---------- bindings ----------

  /** `h` was declared by object `o` with its own kind, client and arguments. */
  predicate Mine(s: Handlers.Server, o: ObjId, b: Obj, h: Handle) {
    && h in s.decls && s.decls[h].kind == b.kind && s.decls[h].client == b.client
    && s.decls[h].args == b.args && s.decls[h].obj == Some(o)
  }

  /** The declare call in progress is this object's own. */
  predicate OwnCall(s: Handlers.Server, o: ObjId, b: Obj, op: OpId) {
    && op in s.ops
    && match s.ops[op]
       case Declaring(k, client, args, obj) => k == b.kind && client == b.client && args == b.args && obj == Some(o)
       case HasHandle(h) => Mine(s, o, b, h)
       case TaskUp(h) => Mine(s, o, b, h)
       case Declared(h) => Mine(s, o, b, h) && s.decls[h].inserted
       case DeclareFailed => true
       case _ => false
  }

  ghost predicate BindInv(s: Handlers.Server, o: ObjId, b: Obj) {
    && (forall h :: h in b.held ==> Mine(s, o, b, h) && s.decls[h].inserted)
    && (b.declaring.Some? ==> OwnCall(s, o, b, b.declaring.value))
    && (b.binding.Some? ==> b.binding.value in b.held)
    && (forall h :: h in b.refused ==> h in b.held && DeadHandle(s, h))
    && (!b.stream.Off? ==> b.stream.handle in b.held)
    && !b.denied
  }

  lemma MineStable(s: Handlers.Server, st: Handlers.Step, o: ObjId, b: Obj, h: Handle)
    requires Handlers.Inv(s) && Handlers.Enabled(s, st) && Mine(s, o, b, h)
    ensures Mine(Handlers.Apply(s, st), o, b, h)
    ensures s.decls[h].inserted ==> Handlers.Apply(s, st).decls[h].inserted
  {
    TablesStepAny(s, st);
  }

  lemma OwnCallStable(s: Handlers.Server, st: Handlers.Step, o: ObjId, b: Obj, op: OpId)
    requires Handlers.Inv(s) && Handlers.Enabled(s, st) && OwnCall(s, o, b, op)
    ensures OwnCall(Handlers.Apply(s, st), o, b, op)
  {
    TablesStepAny(s, st);
    if Actor(st) == Some(op) {
      assert OpOk(s, op, s.ops[op]);
      assert st.OnDeclare?;
      OwnCallMoves(s, st.d, o, b, op);
    } else {
      OpsElsewhere(s, st, op);
    }
  }

  lemma OwnCallMoves(s: Handlers.Server, d: DeclareStep, o: ObjId, b: Obj, op: OpId)
    requires Handlers.Inv(s) && DeclareEnabled(s, op, d) && OwnCall(s, o, b, op)
    ensures OwnCall(DeclareDo(s, op, d), o, b, op)
  {
  }

  lemma BindStable(s: Handlers.Server, st: Handlers.Step, o: ObjId, b: Obj)
    requires Handlers.Inv(s) && Handlers.Enabled(s, st) && BindInv(s, o, b)
    ensures BindInv(Handlers.Apply(s, st), o, b)
  {
    var s' := Handlers.Apply(s, st);
    forall h | h in b.held ensures Mine(s', o, b, h) && s'.decls[h].inserted { MineStable(s, st, o, b, h); }
    forall h | h in b.refused ensures DeadHandle(s', h) { DeadHandleStep(s, st, h); }
    if b.declaring.Some? { OwnCallStable(s, st, o, b, b.declaring.value); }
  }

  /** An own handle is answered Ok, or NotFound when it is gone for good. */
  lemma OwnLookup(s: Handlers.Server, o: ObjId, b: Obj, h: Handle)
    requires Handlers.Inv(s) && Mine(s, o, b, h) && s.decls[h].inserted
    ensures var code := LookupCode(TableOf(s.core, b.kind), b.client, h);
      && (code.Ok? || code.NotFound?)
      && (code.NotFound? ==> DeadHandle(s, h))
      && (code.Ok? ==> h in TableOf(s.core, b.kind) && TableOf(s.core, b.kind)[h] == Entry(b.client, b.args))
  {
    assert EntryOk(s, b.kind, h);
  }

  lemma BindClient(s: Handlers.Server, o: ObjId, b: Obj, c: ObjStep)
    requires Handlers.Inv(s) && BindInv(s, o, b) && ObjEnabled(s, b, c) && !c.EnsureDeclare? && !c.SendCommand?
    requires b.stream.Have? ==> b.kind.Queryable?
    ensures BindInv(s, o, ObjDo(s, b, c))
  {
    if c.EnsureDone? {
      BindBound(s, o, b);
    } else if c.UseHandle? {
      OwnLookup(s, o, b, c.handle);
    } else if c.Subscribe? {
      OwnLookup(s, o, b, b.stream.handle);
    } else {
      BindFrame(s, o, b, ObjDo(s, b, c));
    }
  }

  lemma BindBound(s: Handlers.Server, o: ObjId, b: Obj)
    requires BindInv(s, o, b) && ObjEnabled(s, b, EnsureDone)
    ensures BindInv(s, o, ObjDo(s, b, EnsureDone))
  {
    assert OwnCall(s, o, b, b.declaring.value);
  }

  /** Nothing but the binding, the call and the stream has changed, and those to what is held. */
  lemma BindFrame(s: Handlers.Server, o: ObjId, b: Obj, b': Obj)
    requires BindInv(s, o, b) && b'.kind == b.kind && b'.client == b.client && b'.args == b.args
    requires b'.held == b.held && b'.refused == b.refused && b'.denied == b.denied
    requires (b'.declaring == b.declaring || b'.declaring.None?) && (b'.binding == b.binding || b'.binding.None?)
    requires !b'.stream.Off? ==> b'.stream.handle in b.held
    ensures BindInv(s, o, b')
  {
    forall h | h in b'.held ensures Mine(s, o, b', h) { assert Mine(s, o, b, h); }
  }

  // ---------- streams ----------

  /** Where the object would go on reading its current handle's broadcast. */
  function Pos(s: Handlers.Server, b: Obj): nat {
    if b.stream.At? || b.stream.Got? then b.stream.pos
    else if b.current.Some? then |LogOf(s, b.current.value)| else 0
  }

  function CallHandle(s: Handlers.Server, b: Obj): Option<Handle> {
    if b.declaring.Some? && b.declaring.value in s.ops then
      match s.ops[b.declaring.value]
      case HasHandle(h) => Some(h)
      case TaskUp(h) => Some(h)
      case Declared(h) => Some(h)
      case _ => None
    else None
  }

  /** Nothing that can still be read is below the mark. */
  ghost predicate StreamInv(s: Handlers.Server, b: Obj) {
    && b.mark <= s.core.nextQueryId
    && (b.binding.Some? ==> b.current == b.binding)
    && (!b.stream.Off? ==> b.kind.Queryable? && b.current == Some(b.stream.handle))
    && (b.declaring.Some? ==> b.stream.Off?)
    && (b.stream.At? || b.stream.Got? ==> b.stream.pos <= |LogOf(s, b.stream.handle)|)
    && (b.current.Some? ==> Ahead(s, b.current.value, Pos(s, b), b.mark))
    && (CallHandle(s, b).Some? ==> Ahead(s, CallHandle(s, b).value, 0, b.mark))
  }

  lemma StreamStable(s: Handlers.Server, st: Handlers.Step, o: ObjId, b: Obj)
    requires Handlers.Inv(s) && Handlers.Enabled(s, st) && StreamInv(s, b)
    requires b.declaring.Some? ==> OwnCall(s, o, b, b.declaring.value)
    ensures StreamInv(Handlers.Apply(s, st), b)
  {
    var s' := Handlers.Apply(s, st);
    if b.current.Some? {
      var h := b.current.value;
      LogGrows(s, st, h);
      AheadStable(s, st, h, Pos(s, b), b.mark);
      assert Ahead(s', h, Pos(s', b), b.mark);
    }
    MarkStable(s, st, b.mark);
    CallStable(s, st, o, b);
  }

  lemma MarkStable(s: Handlers.Server, st: Handlers.Step, mark: nat)
    requires Handlers.Inv(s) && Handlers.Enabled(s, st) && mark <= s.core.nextQueryId
    ensures mark <= Handlers.Apply(s, st).core.nextQueryId
  {
    if st.OnTask? { match st.t { case _ => } } else { ShrinkStep(s, st); }
  }

  /** A handle allocated for the call in progress starts above everything read so far. */
  lemma CallStable(s: Handlers.Server, st: Handlers.Step, o: ObjId, b: Obj)
    requires Handlers.Inv(s) && Handlers.Enabled(s, st)
    requires b.declaring.Some? ==> OwnCall(s, o, b, b.declaring.value)
    requires b.mark <= s.core.nextQueryId
    requires CallHandle(s, b).Some? ==> Ahead(s, CallHandle(s, b).value, 0, b.mark)
    ensures var h := CallHandle(Handlers.Apply(s, st), b); h.Some? ==> Ahead(Handlers.Apply(s, st), h.value, 0, b.mark)
  {
    var s' := Handlers.Apply(s, st);
    if CallHandle(s, b).Some? { AheadStable(s, st, CallHandle(s, b).value, 0, b.mark); }
    if b.declaring.Some? {
      var op := b.declaring.value;
      if Actor(st) == Some(op) {
        assert st.OnDeclare?;
        CallMoves(s, st.d, op, b);
      } else {
        OpsElsewhere(s, st, op);
      }
    }
  }

  lemma CallMoves(s: Handlers.Server, d: DeclareStep, op: OpId, b: Obj)
    requires Handlers.Inv(s) && op in s.ops && DeclareEnabled(s, op, d) && b.declaring == Some(op)
    requires b.mark <= s.core.nextQueryId
    ensures var s' := DeclareDo(s, op, d);
      CallHandle(s', b).Some? ==>
        CallHandle(s', b) == CallHandle(s, b) || Ahead(s', CallHandle(s', b).value, 0, b.mark)
  {
    assert TaskOk(s, s.core.nextHandle);
  }

  lemma StreamClient(s: Handlers.Server, o: ObjId, b: Obj, c: ObjStep)
    requires Handlers.Inv(s) && BindInv(s, o, b) && StreamInv(s, b) && ObjEnabled(s, b, c) && !c.EnsureDeclare?
    ensures StreamInv(s, ObjDo(s, b, c))
  {
    if c.Read? {
      StreamRead(s, b, c.index);
    } else if c.EnsureDone? {
      StreamBound(s, b);
    } else {
      StreamFrame(s, b, ObjDo(s, b, c));
    }
  }

  /** The stream goes on where it was, or will begin anew at the end of the broadcast. */
  lemma StreamFrame(s: Handlers.Server, b: Obj, b': Obj)
    requires StreamInv(s, b) && b'.kind == b.kind && b'.current == b.current && b'.mark == b.mark
    requires (b'.binding == b.binding || b'.binding.None?) && (b'.declaring == b.declaring || b'.declaring.None?)
    requires
      || b'.stream == b.stream || b'.stream.Off?
      || (b'.kind.Queryable? && b.declaring.None? && b.current == Some(b'.stream.handle)
          && (b'.stream.Have? || (Pos(s, b') == Pos(s, b) <= |LogOf(s, b'.stream.handle)|)))
    ensures StreamInv(s, b')
  {
    assert CallHandle(s, b') == CallHandle(s, b) || CallHandle(s, b').None?;
    if b.current.Some? {
      var h := b.current.value;
      assert Pos(s, b') == Pos(s, b) || Pos(s, b') == |LogOf(s, h)|;
      assert Ahead(s, h, Pos(s, b), b.mark);
    }
  }

  lemma StreamBound(s: Handlers.Server, b: Obj)
    requires StreamInv(s, b) && ObjEnabled(s, b, EnsureDone)
    ensures StreamInv(s, ObjDo(s, b, EnsureDone))
  {
    assert CallHandle(s, b).Some?;
  }

  lemma StreamRead(s: Handlers.Server, b: Obj, j: nat)
    requires Handlers.Inv(s) && StreamInv(s, b) && ObjEnabled(s, b, Read(j))
    ensures StreamInv(s, ObjDo(s, b, Read(j)))
  {
    var h := b.stream.handle;
    var log := LogOf(s, h);
    assert TaskOk(s, h);
    assert log[j] in log;
  }

  // ---------- what the application receives ----------

  ghost predicate Rising(q: seq<QueryIdentity>) {
    forall i, j :: 0 <= i < j < |q| ==> q[i].queryId < q[j].queryId
  }

  /** Received, then queued, then being pushed: the order in which ids were read. */
  function Trail(b: Obj): seq<QueryIdentity> {
    b.received + b.inbox + if b.stream.Got? then [Identity(b)] else []
  }

  /** The query was received, and announced, by the queryable of this very handle. */
  predicate Known(s: Handlers.Server, b: Obj, identity: QueryIdentity) {
    && identity.handle in b.held && identity.queryId in s.origin
    && s.origin[identity.queryId] == identity.handle
    && identity.queryId in LogOf(s, identity.handle)
  }

  lemma KnownStable(s: Handlers.Server, st: Handlers.Step, b: Obj, identity: QueryIdentity)
    requires Handlers.Inv(s) && Handlers.Enabled(s, st) && Known(s, b, identity)
    ensures Known(Handlers.Apply(s, st), b, identity)
  {
    OriginGrows(s, st, identity.queryId);
    LogGrows(s, st, identity.handle);
  }

  ghost predicate TrailInv(s: Handlers.Server, b: Obj) {
    && Rising(Trail(b))
    && (forall i :: 0 <= i < |Trail(b)| ==> Known(s, b, Trail(b)[i]) && Trail(b)[i].queryId < b.mark)
  }

  lemma TrailStable(s: Handlers.Server, st: Handlers.Step, b: Obj)
    requires Handlers.Inv(s) && Handlers.Enabled(s, st) && TrailInv(s, b)
    ensures TrailInv(Handlers.Apply(s, st), b)
  {
    forall i | 0 <= i < |Trail(b)| ensures Known(Handlers.Apply(s, st), b, Trail(b)[i]) {
      KnownStable(s, st, b, Trail(b)[i]);
    }
  }

  lemma TrailClient(s: Handlers.Server, o: ObjId, b: Obj, c: ObjStep)
    requires Handlers.Inv(s) && BindInv(s, o, b) && StreamInv(s, b) && TrailInv(s, b) && ObjEnabled(s, b, c)
    ensures TrailInv(s, ObjDo(s, b, c))
  {
    match c
    case Read(j) => TrailRead(s, b, j);
    case Enqueue => assert Trail(ObjDo(s, b, c)) == Trail(b);
    case PopOldest => TrailPop(s, b);
    case AppRecv => TrailRecv(s, b);
    case EnsureDone => TrailPrefix(s, b, ObjDo(s, b, c));
    case EnsureHit => TrailPrefix(s, b, ObjDo(s, b, c));
    case Subscribe => TrailPrefix(s, b, ObjDo(s, b, c));
    case Break => TrailPrefix(s, b, ObjDo(s, b, c));
    case UseHandle(_) => TrailPrefix(s, b, ObjDo(s, b, c));
    case _ => assert Trail(ObjDo(s, b, c)) == Trail(b);
  }

  lemma TrailPrefix(s: Handlers.Server, b: Obj, b': Obj)
    requires TrailInv(s, b) && b'.received == b.received && b'.inbox == b.inbox && b'.mark == b.mark
    requires b.held <= b'.held && (b'.stream == b.stream || !b'.stream.Got?)
    ensures TrailInv(s, b')
  {
    assert Trail(b') == Trail(b)[..|Trail(b')|];
    forall i | 0 <= i < |Trail(b')| ensures Known(s, b', Trail(b')[i]) { assert Known(s, b, Trail(b)[i]); }
  }

  lemma TrailRead(s: Handlers.Server, b: Obj, j: nat)
    requires Handlers.Inv(s) && StreamInv(s, b) && TrailInv(s, b) && ObjEnabled(s, b, Read(j))
    requires b.stream.handle in b.held
    ensures TrailInv(s, ObjDo(s, b, Read(j)))
  {
    var b' := ObjDo(s, b, Read(j));
    var h := b.stream.handle;
    assert TaskOk(s, h);
    assert LogOf(s, h)[j] in LogOf(s, h) && LogOf(s, h)[j] >= b.mark;
    assert Trail(b') == Trail(b) + [Identity(b')];
    forall i | 0 <= i < |Trail(b)| ensures Known(s, b', Trail(b)[i]) { assert Known(s, b, Trail(b)[i]); }
  }

  lemma TrailRecv(s: Handlers.Server, b: Obj)
    requires TrailInv(s, b) && ObjEnabled(s, b, AppRecv)
    ensures TrailInv(s, ObjDo(s, b, AppRecv))
  {
    var b' := ObjDo(s, b, AppRecv);
    assert [b.inbox[0]] + b.inbox[1..] == b.inbox;
    assert Trail(b') == Trail(b);
    forall i | 0 <= i < |Trail(b)| ensures Known(s, b', Trail(b)[i]) { assert Known(s, b, Trail(b)[i]); }
  }

  lemma TrailPop(s: Handlers.Server, b: Obj)
    requires TrailInv(s, b) && ObjEnabled(s, b, PopOldest)
    ensures TrailInv(s, ObjDo(s, b, PopOldest))
  {
    var b' := ObjDo(s, b, PopOldest);
    var n, t, t' := |b.received|, Trail(b), Trail(b');
    forall i | 0 <= i < |t'| ensures t'[i] == t[if i < n then i else i + 1] { }
    forall i | 0 <= i < |t'| ensures Known(s, b', t'[i]) && t'[i].queryId < b.mark {
      assert Known(s, b, t[if i < n then i else i + 1]);
    }
  }

  // ---------- every event read is accounted for ----------

  function One(b: bool): nat { if b then 1 else 0 }

  /** In how many of the five ways the event at position `i` is accounted for. */
  function Ways(b: Obj, i: nat): nat {
    One(i in b.log.taken) + One(i in b.log.queued) + One(i in b.log.popped) + One(i in b.log.cut)
    + One(b.stream.Got? && i == Last(b))
  }

  ghost predicate Contents(b: Obj) {
    var l := b.log;
    && |l.queued| == |b.inbox| <= RECV_QUEUE_CAPACITY && |l.taken| == |b.received|
    && Increasing(l.taken) && Increasing(l.queued)
    && (forall i :: 0 <= i < |l.queued| ==> l.queued[i] < |l.read| && b.inbox[i] == l.read[l.queued[i]])
    && (forall i :: 0 <= i < |l.taken| ==> l.taken[i] < |l.read| && b.received[i] == l.read[l.taken[i]])
    && (forall i, j :: 0 <= i < |l.taken| && 0 <= j < |l.queued| ==> l.taken[i] < l.queued[j])
    && (b.stream.Got? ==> l.read != [] && l.read[|l.read| - 1] == Identity(b))
    && (b.declaring.Some? ==> b.stream.Off?)
  }

  /** Each event read is accounted for in exactly one way; one that an overflow popped is older
      than all in the inbox and was followed by at least a whole queue of later events. */
  ghost predicate Accounted(b: Obj) {
    && (forall i :: 0 <= i < |b.log.read| ==> Ways(b, i) == 1)
    && (forall i :: i in b.log.popped ==> i + RECV_QUEUE_CAPACITY < |b.log.read|)
    && (forall i, j :: i in b.log.popped && 0 <= j < |b.log.queued| ==> i < b.log.queued[j])
    && (forall i :: i in b.log.cut ==> i < |b.log.read|)
  }

  lemma {:induction false} Climbs(s: seq<nat>, n: nat)
    requires Increasing(s) && n < |s|
    ensures s[0] + n <= s[n]
  {
    if n > 0 { Climbs(s, n - 1); }
  }

  /** No event is accounted for twice, so what is being pushed is not in the inbox yet. */
  lemma PushedLast(b: Obj, i: nat)
    requires Contents(b) && Accounted(b) && b.stream.Got? && i < |b.log.queued|
    ensures b.log.queued[i] < Last(b)
  {
    assert b.log.queued[i] in b.log.queued;
    assert Ways(b, Last(b)) == 1;
  }

  lemma AccountRead(s: Handlers.Server, b: Obj, j: nat)
    requires Contents(b) && Accounted(b) && ObjEnabled(s, b, Read(j))
    ensures Contents(ObjDo(s, b, Read(j))) && Accounted(ObjDo(s, b, Read(j)))
  {
    var b' := ObjDo(s, b, Read(j));
    var n := |b.log.read|;
    forall i | 0 <= i < |b'.log.read| ensures Ways(b', i) == 1 {
      if i < n { assert Ways(b, i) == 1; } else { assert i !in b.log.taken && i !in b.log.queued; }
    }
  }

  lemma AccountEnqueue(s: Handlers.Server, b: Obj)
    requires Contents(b) && Accounted(b) && ObjEnabled(s, b, Enqueue)
    ensures Contents(ObjDo(s, b, Enqueue)) && Accounted(ObjDo(s, b, Enqueue))
  {
    var b' := ObjDo(s, b, Enqueue);
    forall i | 0 <= i < |b.log.queued| ensures b.log.queued[i] < Last(b) { PushedLast(b, i); }
    forall i | 0 <= i < |b.log.taken| ensures b.log.taken[i] < Last(b) {
      assert b.log.taken[i] in b.log.taken && Ways(b, Last(b)) == 1;
    }
    forall i | 0 <= i < |b.log.read| ensures Ways(b', i) == 1 {
      assert Ways(b, i) == 1;
      assert i in b'.log.queued <==> i in b.log.queued || i == Last(b);
    }
  }

  lemma TailOf(s: seq<nat>, i: nat)
    requires Increasing(s) && s != []
    ensures (i in s[1..] <==> i in s && i != s[0]) && Increasing(s[1..])
  {
    if i in s && i != s[0] {
      var k :| 0 <= k < |s| && s[k] == i;
      assert s[1..][k - 1] == i;
    }
  }

  lemma AccountPop(s: Handlers.Server, b: Obj)
    requires Contents(b) && Accounted(b) && ObjEnabled(s, b, PopOldest)
    ensures Contents(ObjDo(s, b, PopOldest)) && Accounted(ObjDo(s, b, PopOldest))
  {
    var b' := ObjDo(s, b, PopOldest);
    var q := b.log.queued;
    forall i | 0 <= i < |b.log.read| ensures Ways(b', i) == 1 {
      assert Ways(b, i) == 1;
      TailOf(q, i);
    }
    TailOf(q, 0);
    Climbs(q, RECV_QUEUE_CAPACITY - 1);
    PushedLast(b, RECV_QUEUE_CAPACITY - 1);
  }

  lemma AccountRecv(s: Handlers.Server, b: Obj)
    requires Contents(b) && Accounted(b) && ObjEnabled(s, b, AppRecv)
    ensures Contents(ObjDo(s, b, AppRecv)) && Accounted(ObjDo(s, b, AppRecv))
  {
    RecvContents(s, b);
    var b' := ObjDo(s, b, AppRecv);
    var q := b.log.queued;
    assert q[..1] == [q[0]] && b'.log.queued == q[1..] && b'.log.taken == b.log.taken + [q[0]];
    forall i | 0 <= i < |b.log.read| ensures Ways(b', i) == 1 {
      assert Ways(b, i) == 1;
      TailOf(q, i);
    }
  }

  lemma RecvContents(s: Handlers.Server, b: Obj)
    requires Contents(b) && ObjEnabled(s, b, AppRecv)
    ensures Contents(ObjDo(s, b, AppRecv))
  {
    var q := b.log.queued;
    TailOf(q, 0);
    assert q[..1] == [q[0]];
  }

  lemma AccountBreak(s: Handlers.Server, b: Obj)
    requires Contents(b) && Accounted(b)
    ensures Contents(ObjDo(s, b, Break)) && Accounted(ObjDo(s, b, Break))
  {
    var b' := ObjDo(s, b, Break);
    forall i | 0 <= i < |b.log.read| ensures Ways(b', i) == 1 { assert Ways(b, i) == 1; }
  }

  lemma AccountFrame(b: Obj, b': Obj)
    requires Contents(b) && Accounted(b) && b'.log == b.log && b'.inbox == b.inbox && b'.received == b.received
    requires b'.stream == b.stream || (!b.stream.Got? && !b'.stream.Got?)
    requires b'.declaring.Some? ==> b'.stream.Off?
    ensures Contents(b') && Accounted(b')
  {
    forall i | 0 <= i < |b.log.read| ensures Ways(b', i) == 1 { assert Ways(b, i) == 1; }
  }

  lemma AccountStep(s: Handlers.Server, b: Obj, c: ObjStep)
    requires Contents(b) && Accounted(b) && ObjEnabled(s, b, c)
    ensures Contents(ObjDo(s, b, c)) && Accounted(ObjDo(s, b, c))
  {
    if c.Read? {
      AccountRead(s, b, c.index);
    } else if c.Enqueue? {
      AccountEnqueue(s, b);
    } else if c.PopOldest? {
      AccountPop(s, b);
    } else if c.AppRecv? {
      AccountRecv(s, b);
    } else if c.Break? {
      AccountBreak(s, b);
    } else {
      AccountFrame(b, ObjDo(s, b, c));
    }
  }

  // ---------- commands on queries ----------

  ghost predicate CommandInv(s: Handlers.Server, b: Obj) {
    && (forall i :: i in b.dead ==> i in b.received && DeadQuery(s, i.queryId))
    && b.stale <= b.dead && b.discarded <= b.stale
    && (forall i :: i in b.waiting ==> i in b.received) && (forall i :: i in b.finished ==> i in b.received)
    && (forall i :: i in b.received ==> (i.queryId in b.active <==> i !in b.stale && i !in b.finished))
    && (forall q :: q in b.active ==> b.active[q] in b.received && b.active[q].queryId == q)
  }

  lemma CommandStable(s: Handlers.Server, st: Handlers.Step, b: Obj)
    requires Handlers.Inv(s) && Handlers.Enabled(s, st) && CommandInv(s, b)
    ensures CommandInv(Handlers.Apply(s, st), b)
  {
    forall i | i in b.dead ensures DeadQuery(Handlers.Apply(s, st), i.queryId) {
      DeadQueryStep(s, st, i.queryId);
    }
  }

  /** An own command is answered Ok, or NotFound when its query is gone for good. */
  lemma OwnCommand(s: Handlers.Server, o: ObjId, b: Obj, identity: QueryIdentity)
    requires Handlers.Inv(s) && BindInv(s, o, b) && Known(s, b, identity)
    ensures var code := QueryCode(s.core.inflight, b.client, identity.handle, identity.queryId);
      (code.Ok? || code.NotFound?) && (code.NotFound? ==> DeadQuery(s, identity.queryId))
  {
    assert TaskOk(s, identity.handle);
    assert QueryOk(s, identity.queryId);
    assert Mine(s, o, b, identity.handle);
  }

  lemma ReceivedKnown(s: Handlers.Server, b: Obj, identity: QueryIdentity)
    requires TrailInv(s, b) && identity in b.received
    ensures Known(s, b, identity)
  {
    var i :| 0 <= i < |b.received| && b.received[i] == identity;
    assert Trail(b)[i] == identity;
  }

  lemma CommandClient(s: Handlers.Server, o: ObjId, b: Obj, c: ObjStep)
    requires Handlers.Inv(s) && BindInv(s, o, b) && TrailInv(s, b) && CommandInv(s, b) && ObjEnabled(s, b, c)
    ensures CommandInv(s, ObjDo(s, b, c))
    ensures c.SendCommand? ==> BindInv(s, o, ObjDo(s, b, c))
  {
    if c.SendCommand? {
      CommandSent(s, o, b, c);
    } else if c.AppRecv? {
      CommandRecv(s, b);
    } else if c.MarkStale? {
      CommandStale(s, b, c.identity);
    } else {
      CommandOther(s, b, c);
    }
  }

  lemma CommandOther(s: Handlers.Server, b: Obj, c: ObjStep)
    requires CommandInv(s, b) && ObjEnabled(s, b, c) && !c.SendCommand? && !c.AppRecv? && !c.MarkStale?
    ensures CommandInv(s, ObjDo(s, b, c))
  {
    CommandFrame(s, b, ObjDo(s, b, c));
  }

  lemma CommandStale(s: Handlers.Server, b: Obj, identity: QueryIdentity)
    requires TrailInv(s, b) && CommandInv(s, b) && ObjEnabled(s, b, MarkStale(identity))
    ensures CommandInv(s, ObjDo(s, b, MarkStale(identity)))
  {
    SameIds(s, b, identity);
  }

  lemma CommandFrame(s: Handlers.Server, b: Obj, b': Obj)
    requires CommandInv(s, b) && b'.received == b.received && b'.dead == b.dead && b'.stale == b.stale
    requires b'.active == b.active && b'.finished == b.finished
    requires (forall i :: i in b'.waiting ==> i in b.received) && b'.discarded <= b.stale
    ensures CommandInv(s, b')
  {
  }

  /** A query received is known by its id alone. */
  lemma SameIds(s: Handlers.Server, b: Obj, i: QueryIdentity)
    requires TrailInv(s, b) && i in b.received
    ensures forall j :: j in b.received && j.queryId == i.queryId ==> j == i
  {
    var m :| 0 <= m < |b.received| && b.received[m] == i;
    forall j | j in b.received && j.queryId == i.queryId ensures j == i {
      var n :| 0 <= n < |b.received| && b.received[n] == j;
      assert Trail(b)[m] == i && Trail(b)[n] == j;
    }
  }

  lemma CommandRecv(s: Handlers.Server, b: Obj)
    requires TrailInv(s, b) && CommandInv(s, b) && ObjEnabled(s, b, AppRecv)
    ensures CommandInv(s, ObjDo(s, b, AppRecv))
  {
    var x, n := b.inbox[0], |b.received|;
    assert Trail(b)[n] == x;
    forall i | i in b.received ensures i.queryId < x.queryId {
      var m :| 0 <= m < n && b.received[m] == i;
      assert Trail(b)[m] == i;
    }
  }

  lemma CommandSent(s: Handlers.Server, o: ObjId, b: Obj, c: ObjStep)
    requires Handlers.Inv(s) && BindInv(s, o, b) && TrailInv(s, b) && CommandInv(s, b) && ObjEnabled(s, b, c)
    requires c.SendCommand?
    ensures CommandInv(s, ObjDo(s, b, c)) && BindInv(s, o, ObjDo(s, b, c))
  {
    ReceivedKnown(s, b, c.identity);
    OwnCommand(s, o, b, c.identity);
    SameIds(s, b, c.identity);
  }

  // ---------- every reachable state ----------

  ghost predicate ObjInv(s: Handlers.Server, o: ObjId, b: Obj) {
    BindInv(s, o, b) && StreamInv(s, b) && TrailInv(s, b) && CommandInv(s, b)
  }

  ghost predicate Inv(s: State) {
    Handlers.Inv(s.srv) && forall o :: o in s.objs ==> ObjInv(s.srv, o, s.objs[o])
  }

  lemma ObjStable(s: Handlers.Server, st: Handlers.Step, o: ObjId, b: Obj)
    requires Handlers.Inv(s) && Handlers.Enabled(s, st) && ObjInv(s, o, b)
    ensures ObjInv(Handlers.Apply(s, st), o, b)
  {
    BindStable(s, st, o, b);
    StreamStable(s, st, o, b);
    TrailStable(s, st, b);
    CommandStable(s, st, b);
  }

  lemma ObjClient(s: Handlers.Server, o: ObjId, b: Obj, c: ObjStep)
    requires Handlers.Inv(s) && ObjInv(s, o, b) && ObjEnabled(s, b, c) && !c.EnsureDeclare?
    ensures ObjInv(s, o, ObjDo(s, b, c))
  {
    CommandClient(s, o, b, c);
    if !c.SendCommand? { BindClient(s, o, b, c); }
    StreamClient(s, o, b, c);
    TrailClient(s, o, b, c);
  }

  lemma ObjDeclares(s: Handlers.Server, o: ObjId, b: Obj, op: OpId, now: Instant)
    requires Handlers.Inv(s) && ObjInv(s, o, b) && ObjEnabled(s, b, EnsureDeclare(op, now))
    ensures var st := OnDeclare(op, Begin(b.kind, b.client, b.args, Some(o), now));
      Handlers.Enabled(s, st) && ObjInv(Handlers.Apply(s, st), o, b.(declaring := Some(op)))
  {
    var st := OnDeclare(op, Begin(b.kind, b.client, b.args, Some(o), now));
    ObjStable(s, st, o, b);
    var s', b' := Handlers.Apply(s, st), b.(declaring := Some(op));
    assert OwnCall(s', o, b', op);
    assert Trail(b') == Trail(b);
    TrailPrefix(s', b, b');
    assert forall h :: Mine(s', o, b', h) <==> Mine(s', o, b, h);
  }

  lemma NewObjInv(s: Handlers.Server, o: ObjId, kind: Kind, client: ClientId, args: Args)
    requires Handlers.Inv(s)
    ensures ObjInv(s, o, NewObj(kind, client, args))
  {
  }

  lemma StepInv(s: State, step: CStep)
    requires Inv(s) && Enabled(s, step)
    ensures Inv(Apply(s, step))
  {
    match step
    case Server(st) => ServerKeeps(s, st);
    case Create(o, kind, client, args) => NewObjInv(s.srv, o, kind, client, args);
    case Client(o, c) => ClientKeeps(s, o, c);
  }

  lemma ServerKeeps(s: State, st: Handlers.Step)
    requires Inv(s) && Handlers.Enabled(s.srv, st)
    ensures Inv(s.(srv := Handlers.Apply(s.srv, st)))
  {
    Handlers.StepInv(s.srv, st);
    forall o | o in s.objs ensures ObjInv(Handlers.Apply(s.srv, st), o, s.objs[o]) {
      ObjStable(s.srv, st, o, s.objs[o]);
    }
  }

  lemma ClientKeeps(s: State, o: ObjId, c: ObjStep)
    requires Inv(s) && o in s.objs && ObjEnabled(s.srv, s.objs[o], c)
    ensures Inv(State(ServerAfter(s, o, c), s.objs[o := ObjDo(s.srv, s.objs[o], c)]))
  {
    var b := s.objs[o];
    var b' := ObjDo(s.srv, b, c);
    if c.EnsureDeclare? {
      ObjDeclares(s.srv, o, b, c.op, c.now);
    } else {
      ObjClient(s.srv, o, b, c);
    }
    if Request(b, o, c).Some? {
      var st := Request(b, o, c).value;
      assert Handlers.Enabled(s.srv, st);
      ServerKeeps(s, st);
      if !c.EnsureDeclare? { ObjStable(s.srv, st, o, b'); }
    }
  }

  ghost predicate Legal(s: State, run: seq<CStep>)
    decreases |run|
  {
    run == [] || (Enabled(s, run[0]) && Legal(Apply(s, run[0]), run[1..]))
  }

  ghost function After(s: State, run: seq<CStep>): State
    requires Legal(s, run)
    decreases |run|
  {
    if run == [] then s else After(Apply(s, run[0]), run[1..])
  }

  lemma InitInv()
    ensures Inv(Init)
  {
    StartInv();
  }

  lemma {:induction false} RunInv(s: State, run: seq<CStep>)
    requires Inv(s) && Legal(s, run)
    ensures Inv(After(s, run))
    decreases |run|
  {
    if run != [] {
      StepInv(s, run[0]);
      RunInv(Apply(s, run[0]), run[1..]);
    }
  }

  // ---------- main results ----------

  /** The ids of the queries an application receives from one queryable strictly increase,
      over every run of stream breaks, lost answers, evictions, redeclarations and inbox
      overflows; so no query is handed out twice. */
  lemma ReceivedIdsIncrease(run: seq<CStep>, o: ObjId)
    requires Legal(Init, run) && o in After(Init, run).objs
    ensures Rising(After(Init, run).objs[o].received)
  {
    InitInv();
    RunInv(Init, run);
    var b := After(Init, run).objs[o];
    assert ObjInv(After(Init, run).srv, o, b);
    assert forall i :: 0 <= i < |b.received| ==> Trail(b)[i] == b.received[i];
  }

  /** No mis-binding: a request the server accepts on a handle that an object obtained acts
      on the entry declared by that object, with its own arguments; two objects never
      obtain the same handle; and no own request is ever answered PermissionDenied. */
  lemma NoMisbinding(run: seq<CStep>, o: ObjId, p: ObjId, h: Handle)
    requires Legal(Init, run)
    ensures var s := After(Init, run);
      && (o in s.objs && h in s.objs[o].held ==>
            && Mine(s.srv, o, s.objs[o], h)
            && !LookupCode(TableOf(s.srv.core, s.objs[o].kind), s.objs[o].client, h).PermissionDenied?
            && (LookupCode(TableOf(s.srv.core, s.objs[o].kind), s.objs[o].client, h).Ok? ==>
                  TableOf(s.srv.core, s.objs[o].kind)[h] == Entry(s.objs[o].client, s.objs[o].args)))
      && (o in s.objs && p in s.objs && h in s.objs[o].held && h in s.objs[p].held ==> o == p)
      && (o in s.objs ==> !s.objs[o].denied)
  {
    InitInv();
    RunInv(Init, run);
    var s := After(Init, run);
    if o in s.objs {
      assert ObjInv(s.srv, o, s.objs[o]);
      if h in s.objs[o].held { OwnLookup(s.srv, o, s.objs[o], h); }
    }
    if p in s.objs { assert ObjInv(s.srv, p, s.objs[p]); }
  }

  /** A stale report, however late, clears only a binding whose entry is gone for good; a
      binding whose entry is still in its table survives every report. */
  lemma LateReportsAreHarmless(run: seq<CStep>, o: ObjId, h: Handle)
    requires Legal(Init, run) && Enabled(After(Init, run), Client(o, Invalidate(h)))
    ensures var s := After(Init, run); var b := s.objs[o];
      && DeadHandle(s.srv, h)
      && (b.binding.Some? && b.binding.value in TableOf(s.srv.core, b.kind) ==>
            Apply(s, Client(o, Invalidate(h))).objs[o].binding == b.binding)
  {
    InitInv();
    RunInv(Init, run);
    var s := After(Init, run);
    assert ObjInv(s.srv, o, s.objs[o]);
  }

  /** Stale marks are sound: once an identity is in the stale set, and whatever happens
      afterwards, its query is not in flight, so every command that the worker discards
      for it could only have been answered NotFound, whoever sent it. */
  lemma StaleMarksAreSound(run: seq<CStep>, later: seq<CStep>, o: ObjId, identity: QueryIdentity,
                           client: ClientId, h: Handle)
    requires Legal(Init, run) && Legal(After(Init, run), later)
    requires o in After(Init, run).objs && identity in After(Init, run).objs[o].stale
    ensures var s' := After(After(Init, run), later);
      && DeadQuery(s'.srv, identity.queryId)
      && QueryCode(s'.srv.core.inflight, client, h, identity.queryId) == NotFound
  {
    InitInv();
    RunInv(Init, run);
    var s := After(Init, run);
    assert ObjInv(s.srv, o, s.objs[o]);
    StaysDead(s, later, identity.queryId);
  }

  /** So a discard is sound: whenever the worker discards a command of its queue, then and ever
      after a reply or finish on that query, from anyone, is answered NotFound. */
  lemma DiscardsAreSound(run: seq<CStep>, later: seq<CStep>, o: ObjId, identity: QueryIdentity, client: ClientId, h: Handle)
    requires Legal(Init, run) && Legal(After(Init, run), later) && o in After(Init, run).objs
    requires ObjEnabled(After(Init, run).srv, After(Init, run).objs[o], Discard(identity))
          || identity in After(Init, run).objs[o].discarded
    ensures var s, s' := After(Init, run), After(After(Init, run), later);
      && QueryCode(s.srv.core.inflight, client, h, identity.queryId) == NotFound
      && QueryCode(s'.srv.core.inflight, client, h, identity.queryId) == NotFound
      && identity in s.objs[o].received
  {
    InitInv();
    RunInv(Init, run);
    var s := After(Init, run);
    assert ObjInv(s.srv, o, s.objs[o]);
    StaysDead(s, later, identity.queryId);
  }

  lemma {:induction false} StaysDead(s: State, run: seq<CStep>, q: QueryId)
    requires Inv(s) && Legal(s, run) && DeadQuery(s.srv, q)
    ensures DeadQuery(After(s, run).srv, q)
    decreases |run|
  {
    if run != [] {
      StepInv(s, run[0]);
      DeadAcross(s, run[0], q);
      StaysDead(Apply(s, run[0]), run[1..], q);
    }
  }

  lemma DeadAcross(s: State, step: CStep, q: QueryId)
    requires Inv(s) && Enabled(s, step) && DeadQuery(s.srv, q)
    ensures DeadQuery(Apply(s, step).srv, q)
  {
    match step
    case Server(st) => DeadQueryStep(s.srv, st, q);
    case Create(_, _, _, _) =>
    case Client(o, c) =>
      var r := Request(s.objs[o], o, c);
      if r.Some? && Handlers.Enabled(s.srv, r.value) { DeadQueryStep(s.srv, r.value, q); }
  }

  // ---------- what becomes of the events, over every run ----------

  datatype Sort = Reads | Pushes | Pops | Recvs | Breaks

  predicate Does(step: CStep, o: ObjId, sort: Sort) {
    step.Client? && step.o == o &&
    match sort
    case Reads => step.c.Read?
    case Pushes => step.c.Enqueue?
    case Pops => step.c.PopOldest?
    case Recvs => step.c.AppRecv?
    case Breaks => step.c.Break?
  }

  /** How often object `o` does this in the run. */
  function Count(run: seq<CStep>, o: ObjId, sort: Sort): nat {
    if run == [] then 0 else One(Does(run[0], o, sort)) + Count(run[1..], o, sort)
  }

  /** How many events are on record for it. */
  function Tally(s: State, o: ObjId, sort: Sort): nat {
    if o !in s.objs then 0
    else
      var l := s.objs[o].log;
      match sort
      case Reads => |l.read|
      case Pushes => |l.taken| + |l.queued| + |l.popped|
      case Pops => |l.popped|
      case Recvs => |l.taken|
      case Breaks => |l.cut|
  }

  ghost predicate AllAccounted(s: State) {
    forall o :: o in s.objs ==> Contents(s.objs[o]) && Accounted(s.objs[o])
  }

  lemma AllAccountedStep(s: State, step: CStep)
    requires AllAccounted(s) && Enabled(s, step)
    ensures AllAccounted(Apply(s, step))
  {
    match step
    case Server(_) =>
    case Create(o, kind, client, args) => assert Contents(NewObj(kind, client, args)) && Accounted(NewObj(kind, client, args));
    case Client(o, c) => AccountStep(s.srv, s.objs[o], c);
  }

  lemma TallyStep(s: State, step: CStep, o: ObjId, sort: Sort)
    requires AllAccounted(s) && Enabled(s, step)
    ensures var n, n' := Tally(s, o, sort), Tally(Apply(s, step), o, sort);
      if sort.Breaks? then n' <= n + One(Does(step, o, sort)) else n' == n + One(Does(step, o, sort))
  {
    if step.Client? && step.o == o {
      TallyClient(s.srv, s.objs[o], step.c);
    }
  }

  lemma TallyClient(s: Handlers.Server, b: Obj, c: ObjStep)
    requires Contents(b) && Accounted(b) && ObjEnabled(s, b, c)
    ensures var l, l' := b.log, ObjDo(s, b, c).log;
      && |l'.read| == |l.read| + One(c.Read?) && |l'.popped| == |l.popped| + One(c.PopOldest?)
      && |l'.taken| == |l.taken| + One(c.AppRecv?) && |l'.cut| <= |l.cut| + One(c.Break?)
      && |l'.queued| == |l.queued| + One(c.Enqueue?) - One(c.AppRecv?) - One(c.PopOldest?)
  {
    if c.PopOldest? {
      var i := b.log.queued[0];
      assert i in b.log.queued && Ways(b, i) == 1;
    }
  }

  lemma {:induction false} TallyRun(s: State, run: seq<CStep>, o: ObjId, sort: Sort)
    requires AllAccounted(s) && Legal(s, run)
    ensures AllAccounted(After(s, run))
    ensures var n, n' := Tally(s, o, sort), Tally(After(s, run), o, sort);
      if sort.Breaks? then n' <= n + Count(run, o, sort) else n' == n + Count(run, o, sort)
    decreases |run|
  {
    if run != [] {
      AllAccountedStep(s, run[0]);
      TallyStep(s, run[0], o, sort);
      TallyRun(Apply(s, run[0]), run[1..], o, sort);
    }
  }

  /** Over every run, each event that a queryable has read is in exactly one place: handed to
      the application in order, in the inbox, which is what was pushed last, being pushed,
      popped by an overflow with at least a whole queue of later events after it, or cut off
      by a break. There are as many of each as the run has reads, receives, pushes and pops,
      and no more cut off than it has breaks. */
  lemma EventsAccounted(run: seq<CStep>, o: ObjId)
    requires Legal(Init, run) && o in After(Init, run).objs
    ensures var b := After(Init, run).objs[o];
      && Contents(b) && Accounted(b)
      && |b.log.read| == Count(run, o, Reads) && |b.received| == Count(run, o, Recvs)
      && |b.log.popped| == Count(run, o, Pops) && |b.log.cut| <= Count(run, o, Breaks)
      && |b.inbox| == Count(run, o, Pushes) - Count(run, o, Recvs) - Count(run, o, Pops)
  {
    TallyRun(Init, run, o, Reads);
    TallyRun(Init, run, o, Recvs);
    TallyRun(Init, run, o, Pops);
    TallyRun(Init, run, o, Breaks);
    TallyRun(Init, run, o, Pushes);
  }

  // ---------- subscriptions, bindings and commands do something ----------

  /** A queryable that subscribes with a handle whose entry is there gets a stream on which,
      as long as it is not broken, every event announced from then on can be read, whatever
      the rest of the world does. */
  lemma SubscriberSeesAll(run: seq<CStep>, o: ObjId, later: seq<CStep>, j: nat)
    requires Legal(Init, run) && Enabled(After(Init, run), Client(o, Subscribe))
    requires var s := After(Init, run); s.objs[o].stream.handle in s.srv.core.queryables
    requires var s1 := Apply(After(Init, run), Client(o, Subscribe));
      Legal(s1, later) && forall i :: 0 <= i < |later| ==> !later[i].Client? || later[i].o != o
    requires var h := After(Init, run).objs[o].stream.handle;
      |LogOf(After(Init, run).srv, h)| <= j < |LogOf(After(Apply(After(Init, run), Client(o, Subscribe)), later).srv, h)|
    ensures Enabled(After(Apply(After(Init, run), Client(o, Subscribe)), later), Client(o, Read(j)))
  {
    Subscribed(run, o);
    LeftAlone(Apply(After(Init, run), Client(o, Subscribe)), later, o);
  }

  lemma Subscribed(run: seq<CStep>, o: ObjId)
    requires Legal(Init, run) && Enabled(After(Init, run), Client(o, Subscribe))
    requires var s := After(Init, run); s.objs[o].stream.handle in s.srv.core.queryables
    ensures var s := After(Init, run);
      var h := s.objs[o].stream.handle;
      Apply(s, Client(o, Subscribe)).objs[o].stream == At(h, |LogOf(s.srv, h)|)
  {
    InitInv();
    RunInv(Init, run);
    var s := After(Init, run);
    assert ObjInv(s.srv, o, s.objs[o]);
    OwnLookup(s.srv, o, s.objs[o], s.objs[o].stream.handle);
  }

  lemma {:induction false} LeftAlone(s: State, run: seq<CStep>, o: ObjId)
    requires Legal(s, run) && o in s.objs
    requires forall i :: 0 <= i < |run| ==> !run[i].Client? || run[i].o != o
    ensures o in After(s, run).objs && After(s, run).objs[o] == s.objs[o]
    decreases |run|
  {
    if run != [] {
      assert run[0] == run[0] && forall i :: 0 <= i < |run| - 1 ==> run[1..][i] == run[i + 1];
      LeftAlone(Apply(s, run[0]), run[1..], o);
    }
  }

  /** The binding after each step of an object: a declare call that has been answered binds the
      handle it was granted, whose entry was inserted for this very object; a stale report for
      the bound handle unbinds it, as does taking it; nothing else changes it. A queryable that
      has ensured its handle goes on to subscribe with that handle. */
  lemma BindingAfter(run: seq<CStep>, o: ObjId, c: ObjStep)
    requires Legal(Init, run) && Enabled(After(Init, run), Client(o, c))
    ensures var s := After(Init, run); var b, b' := s.objs[o], Apply(s, Client(o, c)).objs[o];
      if c.EnsureDone? then
        b'.binding.Some? && s.srv.ops[b.declaring.value] == Declared(b'.binding.value)
        && Mine(s.srv, o, b, b'.binding.value) && s.srv.decls[b'.binding.value].inserted
      else if c.TakeHandle? || (c.Invalidate? && b.binding == Some(c.handle)) then b'.binding.None?
      else b'.binding == b.binding && (c.EnsureHit? ==> b'.binding.Some? && b'.stream == Have(b'.binding.value))
    ensures var b' := Apply(After(Init, run), Client(o, c)).objs[o];
      c.EnsureDone? && b'.kind.Queryable? ==> b'.binding.Some? && b'.stream == Have(b'.binding.value)
  {
    InitInv();
    RunInv(Init, run);
    var s := After(Init, run);
    var b := s.objs[o];
    assert ObjInv(s.srv, o, b);
    if c.EnsureDone? { assert OwnCall(s.srv, o, b, b.declaring.value); }
  }

  /** A command that the worker sends reaches the server: a finish ends exactly its own query
      if that is still in flight, and a reply leaves every query where it is. */
  lemma CommandReaches(run: seq<CStep>, o: ObjId, identity: QueryIdentity, finish: bool, answered: bool, q: QueryId)
    requires Legal(Init, run) && Enabled(After(Init, run), Client(o, SendCommand(identity, finish, answered)))
    ensures var s := After(Init, run);
      var s' := Apply(s, Client(o, SendCommand(identity, finish, answered)));
      q in s'.srv.core.inflight <==> q in s.srv.core.inflight && !(finish && q == identity.queryId)
  {
    InitInv();
    RunInv(Init, run);
    var s := After(Init, run);
    var b := s.objs[o];
    assert ObjInv(s.srv, o, b);
    ReceivedKnown(s.srv, b, identity);
    OwnCommand(s.srv, o, b, identity);
    QueryChanges(s.srv, OnQuery(b.client, identity.handle, identity.queryId, finish), q);
  }

  /** The book of active queries: a received query can be answered by its id exactly until its
      finish is acknowledged or it is marked stale, and the command then carries the identity
      it was received with. */
  lemma ActiveExactly(run: seq<CStep>, o: ObjId, i: QueryIdentity)
    requires Legal(Init, run) && o in After(Init, run).objs && i in After(Init, run).objs[o].received
    ensures var s := After(Init, run); var b := s.objs[o];
      && (Enabled(s, Client(o, SubmitById(i.queryId))) <==> i !in b.stale && i !in b.finished)
      && (i.queryId in b.active ==> b.active[i.queryId] == i && i in Apply(s, Client(o, SubmitById(i.queryId))).objs[o].waiting)
  {
    InitInv();
    RunInv(Init, run);
    var s := After(Init, run);
    assert ObjInv(s.srv, o, s.objs[o]);
    SameIds(s.srv, s.objs[o], i);
  }

  /** The step is a request on the handle that finds no entry. */
  predicate FindsGone(s: Handlers.Server, b: Obj, c: ObjStep, h: Handle) {
    || (c == UseHandle(h) && h !in TableOf(s.core, b.kind))
    || (c.Subscribe? && b.stream.Have? && b.stream.handle == h && h !in s.core.queryables)
  }

  /** What an object may report: a handle counts as refused exactly once a request on it has
      found its entry gone, a query as dead exactly once a command on it has found it gone;
      and a mark makes exactly its own identity stale. */
  lemma ReportsFollowAnswers(run: seq<CStep>, o: ObjId, c: ObjStep, h: Handle, i: QueryIdentity)
    requires Legal(Init, run) && Enabled(After(Init, run), Client(o, c))
    ensures var s := After(Init, run); var b, b' := s.objs[o], Apply(s, Client(o, c)).objs[o];
      && (h in b'.refused <==> h in b.refused || FindsGone(s.srv, b, c, h))
      && (i in b'.dead <==> i in b.dead || (c.SendCommand? && c.identity == i && i.queryId !in s.srv.core.inflight))
      && (i in b'.stale <==> i in b.stale || c == MarkStale(i))
  {
    InitInv();
    RunInv(Init, run);
    var s := After(Init, run);
    assert ObjInv(s.srv, o, s.objs[o]);
    RefusedAfter(s.srv, o, s.objs[o], c, h);
    DeadAfter(s.srv, o, s.objs[o], c, i);
  }

  lemma RefusedAfter(s: Handlers.Server, o: ObjId, b: Obj, c: ObjStep, h: Handle)
    requires Handlers.Inv(s) && ObjInv(s, o, b) && ObjEnabled(s, b, c)
    ensures h in ObjDo(s, b, c).refused <==> h in b.refused || FindsGone(s, b, c, h)
  {
    if c.UseHandle? {
      OwnLookup(s, o, b, c.handle);
    } else if c.Subscribe? {
      OwnLookup(s, o, b, b.stream.handle);
    } else {
      assert ObjDo(s, b, c).refused == b.refused;
    }
  }

  lemma DeadAfter(s: Handlers.Server, o: ObjId, b: Obj, c: ObjStep, i: QueryIdentity)
    requires Handlers.Inv(s) && ObjInv(s, o, b) && ObjEnabled(s, b, c)
    ensures var b' := ObjDo(s, b, c);
      && (i in b'.dead <==> i in b.dead || (c.SendCommand? && c.identity == i && i.queryId !in s.core.inflight))
      && (i in b'.stale <==> i in b.stale || c == MarkStale(i))
  {
    if c.SendCommand? {
      ReceivedKnown(s, b, c.identity);
      OwnCommand(s, o, b, c.identity);
    } else {
      assert ObjDo(s, b, c).dead == b.dead;
    }
  }

  /** What can be read next. After an event has been read and pushed, exactly the events
      announced after it; after a break, nothing until the next subscription. */
  lemma ReadableNext(s: Handlers.Server, b: Obj, j: nat, i: nat)
    requires ObjEnabled(s, b, Read(j))
    ensures var b1 := ObjDo(s, b, Read(j));
      && (ObjEnabled(s, b1, Enqueue) ==>
            (ObjEnabled(s, ObjDo(s, b1, Enqueue), Read(i)) <==> j < i < |LogOf(s, b.stream.handle)|))
      && (ObjEnabled(s, b1, Enqueue) || ObjEnabled(s, b1, PopOldest) || |b.inbox| > RECV_QUEUE_CAPACITY)
      && !ObjEnabled(s, ObjDo(s, b, Break), Read(i)) && !ObjEnabled(s, ObjDo(s, b1, Break), Read(i))
  {
  }

  /** Commands wait for the worker exactly once submitted, and stay the objects' own. */
  lemma WaitingAfter(s: Handlers.Server, b: Obj, c: ObjStep, i: QueryIdentity)
    requires ObjEnabled(s, b, c)
    ensures i in ObjDo(s, b, c).waiting <==>
      i in b.waiting || c == Submit(i) || (c.SubmitById? && c.query in b.active && b.active[c.query] == i)
    ensures i in b.waiting ==> ObjEnabled(s, b, Discard(i)) || ObjEnabled(s, b, SendCommand(i, true, true))
  {
  }

  /** An object is what it was created as: its kind, client and arguments never change. */
  lemma CreatedAs(s: State, step: CStep, o: ObjId)
    requires Enabled(s, step) && o in Apply(s, step).objs
    ensures var b' := Apply(s, step).objs[o];
      if o in s.objs then b'.kind == s.objs[o].kind && b'.client == s.objs[o].client && b'.args == s.objs[o].args
      else step == Create(o, b'.kind, b'.client, b'.args)
  {
  }
}
