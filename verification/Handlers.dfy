/** The server under every interleaving: declare, undeclare and cleanup handlers take one
    lock at a time, background tasks number and announce queries, and every critical
    section of any of them may fall between two sections of another. Every handler begins
    by touching its client, under a lock of its own: a declare in `Begin`, the others by an
    `OnTouch` that any steps may separate from the rest. The network is absent here: any
    client may send any request at any moment. */
module Handlers {
  import opened Base
  import opened PluginState

  type OpId = nat    // one handler invocation
  type ObjId = nat   // one client-side object

  /** History of a handle: what was asked for when it was allocated, by which handler run
      on behalf of which client-side object, and whether its entry was ever inserted. */
  datatype Decl = Decl(kind: Kind, client: ClientId, args: Args, obj: Option<ObjId>, op: OpId, inserted: bool)

  /** The background task of a queryable, and as history the ids it has broadcast. */
  datatype TaskPc = Waiting | Allocated(id: QueryId) | Stored(id: QueryId) | Ended
  datatype Task = Task(pc: TaskPc, log: seq<QueryId>)

  datatype Op =
    | Declaring(kind: Kind, client: ClientId, args: Args, obj: Option<ObjId>)
    | HasHandle(handle: Handle)
    | TaskUp(handle: Handle)       // declared with zenoh, entry not yet in its table
    | Declared(handle: Handle)     // about to answer with the handle
    | DeclareFailed
    | Removed(kind: Kind, client: ClientId, handle: Handle, owner: ClientId)
    | Undeclared
    | Cleaning(client: ClientId, table: nat, scanned: bool, todo: set<Handle>, seen: seq<set<Handle>>)
    | Cleaned(client: ClientId, seen: seq<set<Handle>>)

  datatype Server = Server(
    core: Core, decls: map<Handle, Decl>, tasks: map<Handle, Task>, ops: map<OpId, Op>,
    origin: map<QueryId, Handle>)   // history: which queryable's task allocated the id

  datatype DeclareStep =
    | Begin(kind: Kind, client: ClientId, args: Args, obj: Option<ObjId>, now: Instant)
    | Alloc | Zenoh(ok: bool) | Insert
  datatype UndeclareStep = Remove(kind: Kind, client: ClientId, handle: Handle) | Retain
  datatype CleanStep = BeginClean(client: ClientId) | Scan | RemoveOne(handle: Handle) | NextTable | RetainOthers
  datatype TaskStep = AllocId | StoreQuery | SendEvent | EndTask

  datatype Step =
    | OnDeclare(op: OpId, d: DeclareStep)
    | OnUndeclare(op: OpId, u: UndeclareStep)
    | OnCleanup(op: OpId, c: CleanStep)
    | OnTask(handle: Handle, t: TaskStep)
    | OnQuery(client: ClientId, handle: Handle, query: QueryId, finish: bool)
    | OnTouch(client: ClientId, now: Instant)

  const Start := Server(Fresh, map[], map[], map[], map[])

  /** The order in which `cleanup_client` visits the tables. */
  function KindAt(i: nat): Kind {
    if i == 0 then Publisher else if i == 1 then Subscriber else if i == 2 then Queryable else Querier
  }

  predicate DeclareEnabled(s: Server, o: OpId, d: DeclareStep) {
    match d
    case Begin(_, _, _, _, _) => o !in s.ops
    case Alloc => o in s.ops && s.ops[o].Declaring?
    case Zenoh(_) => o in s.ops && s.ops[o].HasHandle? && s.ops[o].handle in s.decls
    case Insert => o in s.ops && s.ops[o].TaskUp? && s.ops[o].handle in s.decls
  }

  predicate UndeclareEnabled(s: Server, o: OpId, u: UndeclareStep) {
    match u
    case Remove(_, _, _) => o !in s.ops
    case Retain => o in s.ops && s.ops[o].Removed?
  }

  predicate CleanEnabled(s: Server, o: OpId, c: CleanStep) {
    match c
    case BeginClean(_) => o !in s.ops
    case Scan => o in s.ops && s.ops[o].Cleaning? && s.ops[o].table < 4 && !s.ops[o].scanned
    case RemoveOne(h) => o in s.ops && s.ops[o].Cleaning? && s.ops[o].scanned && h in s.ops[o].todo
    case NextTable => o in s.ops && s.ops[o].Cleaning? && s.ops[o].scanned && s.ops[o].todo == {}
    case RetainOthers => o in s.ops && s.ops[o].Cleaning? && s.ops[o].table == 4
  }

  predicate TaskEnabled(s: Server, h: Handle, t: TaskStep) {
    && h in s.tasks && h in s.decls
    && match t
       case AllocId => s.tasks[h].pc.Waiting?
       case StoreQuery => s.tasks[h].pc.Allocated?
       case SendEvent => s.tasks[h].pc.Stored?
       case EndTask => s.tasks[h].pc.Waiting?
  }

  predicate Enabled(s: Server, step: Step) {
    match step
    case OnDeclare(o, d) => DeclareEnabled(s, o, d)
    case OnUndeclare(o, u) => UndeclareEnabled(s, o, u)
    case OnCleanup(o, c) => CleanEnabled(s, o, c)
    case OnTask(h, t) => TaskEnabled(s, h, t)
    case OnQuery(_, _, _, _) => true
    case OnTouch(_, _) => true
  }

  function OpTo(s: Server, o: OpId, op: Op): Server {
    s.(ops := s.ops[o := op])
  }

  function DeclareDo(s: Server, o: OpId, d: DeclareStep): Server
    requires DeclareEnabled(s, o, d)
  {
    match d
    case Begin(k, client, args, obj, now) =>
      OpTo(s, o, Declaring(k, client, args, obj)).(core := Touched(s.core, client, now))
    case Alloc =>
      var h, op := s.core.nextHandle, s.ops[o];
      OpTo(s, o, HasHandle(h))
        .(core := s.core.(nextHandle := h + 1),
          decls := s.decls[h := Decl(op.kind, op.client, op.args, op.obj, o, false)])
    case Zenoh(ok) =>
      var h := s.ops[o].handle;
      if !ok then OpTo(s, o, DeclareFailed)
      else OpTo(s, o, TaskUp(h))
             .(tasks := if s.decls[h].kind.Queryable? then s.tasks[h := Task(Waiting, [])] else s.tasks)
    case Insert =>
      var h := s.ops[o].handle;
      var decl := s.decls[h];
      OpTo(s, o, Declared(h))
        .(decls := s.decls[h := decl.(inserted := true)],
          core := WithTable(s.core, decl.kind, TableOf(s.core, decl.kind)[h := Entry(decl.client, decl.args)]))
  }

  function UndeclareDo(s: Server, o: OpId, u: UndeclareStep): Server
    requires UndeclareEnabled(s, o, u)
  {
    match u
    case Remove(k, client, h) =>
      if h !in TableOf(s.core, k) then OpTo(s, o, Undeclared)      // not found
      else
        OpTo(s, o, Removed(k, client, h, TableOf(s.core, k)[h].owner))
          .(core := WithTable(s.core, k, TableOf(s.core, k) - {h}))
    case Retain =>
      var op := s.ops[o];
      OpTo(s, o, Undeclared)
        .(core := if op.kind.Queryable? && EnsureOwner(op.client, op.owner).Ok?
                  then s.core.(inflight := NotOfHandle(s.core.inflight, op.handle)) else s.core)
  }

  function CleanDo(s: Server, o: OpId, c: CleanStep): Server
    requires CleanEnabled(s, o, c)
  {
    match c
    case BeginClean(client) =>
      OpTo(s, o, Cleaning(client, 0, false, {}, [])).(core := s.core.(live := s.core.live - {client}))
    case Scan =>
      var op := s.ops[o];
      var owned := OwnedBy(TableOf(s.core, KindAt(op.table)), op.client);
      OpTo(s, o, op.(scanned := true, todo := owned, seen := op.seen + [owned]))
    case RemoveOne(h) =>
      var op := s.ops[o];
      var k := KindAt(op.table);
      OpTo(s, o, op.(todo := op.todo - {h})).(core := WithTable(s.core, k, TableOf(s.core, k) - {h}))
    case NextTable => OpTo(s, o, s.ops[o].(table := s.ops[o].table + 1, scanned := false))
    case RetainOthers =>
      var op := s.ops[o];
      OpTo(s, o, Cleaned(op.client, op.seen))
        .(core := s.core.(inflight := NotOfOwner(s.core.inflight, op.client)))
  }

  function TaskDo(s: Server, h: Handle, t: TaskStep): Server
    requires TaskEnabled(s, h, t)
  {
    var task := s.tasks[h];
    match t
    case AllocId =>
      var id := s.core.nextQueryId;
      s.(core := s.core.(nextQueryId := id + 1), origin := s.origin[id := h],
         tasks := s.tasks[h := task.(pc := Allocated(id))])
    case StoreQuery =>
      s.(core := s.core.(inflight := s.core.inflight[task.pc.id := InFlight(s.decls[h].client, h)]),
         tasks := s.tasks[h := task.(pc := Stored(task.pc.id))])
    case SendEvent =>
      s.(tasks := s.tasks[h := Task(Waiting, if task.pc.id in s.core.inflight then task.log + [task.pc.id] else task.log)])
    case EndTask => s.(tasks := s.tasks[h := task.(pc := Ended)])
  }

  function Apply(s: Server, step: Step): Server
    requires Enabled(s, step)
  {
    match step
    case OnDeclare(o, d) => DeclareDo(s, o, d)
    case OnUndeclare(o, u) => UndeclareDo(s, o, u)
    case OnCleanup(o, c) => CleanDo(s, o, c)
    case OnTask(h, t) => TaskDo(s, h, t)
    case OnQuery(client, h, q, finish) =>
      if finish then s.(core := s.core.(inflight := FinishQuery(s.core.inflight, client, h, q))) else s
    case OnTouch(client, now) => s.(core := Touched(s.core, client, now))
  }

  // ---------- handles ----------

  /** An entry is the one its handle was allocated for, with the owner and arguments of
      that declare. */
  ghost predicate EntryOk(s: Server, k: Kind, h: Handle) {
    h in TableOf(s.core, k) ==>
      && h in s.decls && s.decls[h].inserted && s.decls[h].kind == k
      && TableOf(s.core, k)[h] == Entry(s.decls[h].client, s.decls[h].args)
  }

  ghost predicate EntriesOk(s: Server) {
    && (forall h :: h in s.decls ==> 1 <= h < s.core.nextHandle)
    && (forall k: Kind, h :: EntryOk(s, k, h))
    && s.core.nextHandle >= 1
  }

  /** `h` was inserted into table `k` on behalf of `client`, once. */
  predicate InsertedFor(s: Server, h: Handle, k: Kind, client: ClientId) {
    h in s.decls && s.decls[h].inserted && s.decls[h].kind == k && s.decls[h].client == client
  }

  /** The tables a cleanup has finished are free of everything it saw in them. */
  ghost predicate SeenGone(s: Server, client: ClientId, seen: seq<set<Handle>>, done: nat) {
    forall j, h :: 0 <= j < |seen| && h in seen[j] ==>
      InsertedFor(s, h, KindAt(j), client) && (j < done ==> h !in TableOf(s.core, KindAt(j)))
  }

  ghost predicate OpOk(s: Server, o: OpId, op: Op) {
    match op
    case HasHandle(h) => h in s.decls && !s.decls[h].inserted && s.decls[h].op == o && h !in s.tasks
    case TaskUp(h) => h in s.decls && !s.decls[h].inserted && s.decls[h].op == o
    case Declared(h) => h in s.decls && s.decls[h].inserted && s.decls[h].op == o
    case Removed(k, _, h, owner) => InsertedFor(s, h, k, owner)
    case Cleaning(client, i, scanned, todo, seen) =>
      && i <= 4 && (scanned ==> i < 4) && |seen| == i + (if scanned then 1 else 0)
      && SeenGone(s, client, seen, i)
      && (forall h :: h in todo ==> scanned && h in seen[i])
      && (scanned ==> forall h :: h in seen[i] && h !in todo ==> h !in TableOf(s.core, KindAt(i)))
    case Cleaned(client, seen) => |seen| == 4 && SeenGone(s, client, seen, 4)
    case _ => true
  }

  ghost predicate OpsOk(s: Server) {
    forall o :: o in s.ops ==> OpOk(s, o, s.ops[o])
  }

  ghost predicate HandleInv(s: Server) {
    EntriesOk(s) && OpsOk(s)
  }

  /** What a step does to the tables and to the record of handles: the record only grows,
      and only the handler that allocated a handle inserts its entry or starts its task. */
  ghost predicate TablesStep(s: Server, s': Server, actor: Option<OpId>) {
    && s.core.nextHandle <= s'.core.nextHandle
    && (forall h :: h in s.decls ==> h in s'.decls && SameDecl(s.decls[h], s'.decls[h], actor))
    && (forall k: Kind, h :: h in TableOf(s'.core, k) && h !in TableOf(s.core, k) ==>
          h in s.decls && !s.decls[h].inserted && s.decls[h].kind == k && actor == Some(s.decls[h].op))
    && (forall h :: h in s'.tasks && h !in s.tasks ==> h in s.decls && actor == Some(s.decls[h].op))
  }

  predicate SameDecl(d: Decl, d': Decl, actor: Option<OpId>) {
    d' == d || (d' == d.(inserted := true) && actor == Some(d.op))
  }

  function Actor(step: Step): Option<OpId> {
    if step.OnDeclare? || step.OnUndeclare? || step.OnCleanup? then Some(step.op) else None
  }

  lemma TablesStepDeclare(s: Server, o: OpId, d: DeclareStep)
    requires HandleInv(s) && DeclareEnabled(s, o, d)
    ensures TablesStep(s, DeclareDo(s, o, d), Some(o))
  {
    if o in s.ops { assert OpOk(s, o, s.ops[o]); }
  }

  lemma TablesStepUndeclare(s: Server, o: OpId, u: UndeclareStep)
    requires UndeclareEnabled(s, o, u)
    ensures TablesStep(s, UndeclareDo(s, o, u), Some(o))
  {
  }

  lemma TablesStepClean(s: Server, o: OpId, c: CleanStep)
    requires CleanEnabled(s, o, c)
    ensures TablesStep(s, CleanDo(s, o, c), Some(o))
  {
  }

  lemma TablesStepAny(s: Server, step: Step)
    requires HandleInv(s) && Enabled(s, step)
    ensures TablesStep(s, Apply(s, step), Actor(step))
  {
    match step
    case OnDeclare(o, d) => TablesStepDeclare(s, o, d);
    case OnUndeclare(o, u) => TablesStepUndeclare(s, o, u);
    case OnCleanup(o, c) => TablesStepClean(s, o, c);
    case OnTask(h, t) => TablesStepTask(s, h, t);
    case OnQuery(_, _, _, _) => TablesFrame(s, Apply(s, step));
    case OnTouch(_, _) => TablesFrame(s, Apply(s, step));
  }

  lemma TablesFrame(s: Server, s': Server)
    requires s'.decls == s.decls && s'.tasks.Keys == s.tasks.Keys && s'.core.nextHandle == s.core.nextHandle
    requires forall k: Kind :: TableOf(s'.core, k) == TableOf(s.core, k)
    ensures TablesStep(s, s', None)
  {
    assert forall h :: h in s'.tasks <==> h in s'.tasks.Keys;
  }

  lemma TablesStepTask(s: Server, h: Handle, t: TaskStep)
    requires TaskEnabled(s, h, t)
    ensures TablesStep(s, TaskDo(s, h, t), None)
  {
    var s' := TaskDo(s, h, t);
    assert s'.decls == s.decls && s'.tasks.Keys == s.tasks.Keys && s'.core.nextHandle == s.core.nextHandle;
    assert forall k: Kind :: TableOf(s'.core, k) == TableOf(s.core, k);
    TablesFrame(s, s');
  }

  lemma SeenStable(s: Server, s': Server, actor: Option<OpId>, client: ClientId, seen: seq<set<Handle>>, done: nat)
    requires TablesStep(s, s', actor) && SeenGone(s, client, seen, done)
    ensures SeenGone(s', client, seen, done)
  {
    forall j, h | 0 <= j < |seen| && h in seen[j]
      ensures InsertedFor(s', h, KindAt(j), client) && (j < done ==> h !in TableOf(s'.core, KindAt(j)))
    {
      assert InsertedFor(s, h, KindAt(j), client);
    }
  }

  /** Nobody else's step disturbs what a handler relies on. */
  lemma OpStable(s: Server, s': Server, actor: Option<OpId>, o: OpId)
    requires TablesStep(s, s', actor) && actor != Some(o)
    requires o in s.ops && OpOk(s, o, s.ops[o])
    ensures OpOk(s', o, s.ops[o])
  {
    match s.ops[o]
    case Cleaning(client, i, scanned, todo, seen) =>
      SeenStable(s, s', actor, client, seen, i);
      if scanned {
        forall h | h in seen[i] && h !in todo ensures h !in TableOf(s'.core, KindAt(i)) {
          assert InsertedFor(s, h, KindAt(i), client);
        }
      }
    case Cleaned(client, seen) => SeenStable(s, s', actor, client, seen, 4);
    case _ =>
  }

  lemma EntriesStep(s: Server, step: Step)
    requires HandleInv(s) && Enabled(s, step)
    ensures EntriesOk(Apply(s, step))
  {
    match step
    case OnDeclare(o, d) => EntriesDeclare(s, o, d);
    case OnUndeclare(o, u) => EntriesUndeclare(s, o, u);
    case OnCleanup(o, c) => EntriesClean(s, o, c);
    case OnTask(h, t) => EntriesFrame(s, TaskDo(s, h, t));
    case _ => EntriesFrame(s, Apply(s, step));
  }

  lemma EntriesFrame(s: Server, s': Server)
    requires EntriesOk(s) && s'.decls == s.decls && s'.core.nextHandle == s.core.nextHandle
    requires forall k: Kind :: TableOf(s'.core, k) == TableOf(s.core, k)
    ensures EntriesOk(s')
  {
    forall k: Kind, h ensures EntryOk(s', k, h) { assert EntryOk(s, k, h); }
  }

  lemma EntriesDeclare(s: Server, o: OpId, d: DeclareStep)
    requires HandleInv(s) && DeclareEnabled(s, o, d)
    ensures EntriesOk(DeclareDo(s, o, d))
  {
    if o in s.ops { assert OpOk(s, o, s.ops[o]); }
    forall k: Kind, h ensures EntryOk(DeclareDo(s, o, d), k, h) { assert EntryOk(s, k, h); }
  }

  lemma EntriesUndeclare(s: Server, o: OpId, u: UndeclareStep)
    requires HandleInv(s) && UndeclareEnabled(s, o, u)
    ensures EntriesOk(UndeclareDo(s, o, u))
  {
    forall k: Kind, h ensures EntryOk(UndeclareDo(s, o, u), k, h) { assert EntryOk(s, k, h); }
  }

  lemma EntriesClean(s: Server, o: OpId, c: CleanStep)
    requires HandleInv(s) && CleanEnabled(s, o, c)
    ensures EntriesOk(CleanDo(s, o, c))
  {
    forall k: Kind, h ensures EntryOk(CleanDo(s, o, c), k, h) { assert EntryOk(s, k, h); }
  }

  /** The handler that moves ends where its own contract says. */
  lemma OwnOpDeclare(s: Server, o: OpId, d: DeclareStep)
    requires HandleInv(s) && TasksDeclared(s) && DeclareEnabled(s, o, d)
    ensures var s' := DeclareDo(s, o, d); OpOk(s', o, s'.ops[o])
  {
    if o in s.ops { assert OpOk(s, o, s.ops[o]); }
  }

  lemma OwnOpUndeclare(s: Server, o: OpId, u: UndeclareStep)
    requires HandleInv(s) && UndeclareEnabled(s, o, u)
    ensures var s' := UndeclareDo(s, o, u); OpOk(s', o, s'.ops[o])
  {
    if u.Remove? { assert EntryOk(s, u.kind, u.handle); }
  }

  lemma OwnOpScan(s: Server, o: OpId)
    requires HandleInv(s) && CleanEnabled(s, o, Scan)
    ensures var s' := CleanDo(s, o, Scan); OpOk(s', o, s'.ops[o])
  {
    var op, s' := s.ops[o], CleanDo(s, o, Scan);
    assert OpOk(s, o, op);
    var seen' := s'.ops[o].seen;
    forall j, h | 0 <= j < |seen'| && h in seen'[j]
      ensures InsertedFor(s', h, KindAt(j), op.client) && (j < op.table ==> h !in TableOf(s'.core, KindAt(j)))
    {
      if j == op.table { assert EntryOk(s, KindAt(j), h); } else { assert h in op.seen[j]; }
    }
  }

  lemma OwnOpRemoveOne(s: Server, o: OpId, h: Handle)
    requires HandleInv(s) && CleanEnabled(s, o, RemoveOne(h))
    ensures var s' := CleanDo(s, o, RemoveOne(h)); OpOk(s', o, s'.ops[o])
  {
    var op, s' := s.ops[o], CleanDo(s, o, RemoveOne(h));
    assert OpOk(s, o, op);
    TablesStepClean(s, o, RemoveOne(h));
    SeenStable(s, s', Some(o), op.client, op.seen, op.table);
  }

  lemma OwnOpClean(s: Server, o: OpId, c: CleanStep)
    requires HandleInv(s) && CleanEnabled(s, o, c)
    ensures var s' := CleanDo(s, o, c); OpOk(s', o, s'.ops[o])
  {
    match c
    case BeginClean(_) =>
    case Scan => OwnOpScan(s, o);
    case RemoveOne(h) => OwnOpRemoveOne(s, o, h);
    case NextTable => OwnOpNext(s, o);
    case RetainOthers => OwnOpRetain(s, o);
  }

  lemma OwnOpNext(s: Server, o: OpId)
    requires HandleInv(s) && CleanEnabled(s, o, NextTable)
    ensures var s' := CleanDo(s, o, NextTable); OpOk(s', o, s'.ops[o])
  {
    var op, s' := s.ops[o], CleanDo(s, o, NextTable);
    assert OpOk(s, o, op);
    forall j, h | 0 <= j < |op.seen| && h in op.seen[j]
      ensures InsertedFor(s', h, KindAt(j), op.client) && h !in TableOf(s'.core, KindAt(j))
    {
      assert InsertedFor(s, h, KindAt(j), op.client);
    }
  }

  lemma OwnOpRetain(s: Server, o: OpId)
    requires HandleInv(s) && CleanEnabled(s, o, RetainOthers)
    ensures var s' := CleanDo(s, o, RetainOthers); OpOk(s', o, s'.ops[o])
  {
    var op, s' := s.ops[o], CleanDo(s, o, RetainOthers);
    assert OpOk(s, o, op);
    TablesStepClean(s, o, RetainOthers);
    SeenStable(s, s', Some(o), op.client, op.seen, 4);
  }

  ghost predicate TasksDeclared(s: Server) {
    forall h :: h in s.tasks ==> h in s.decls
  }

  lemma HandleInvStep(s: Server, step: Step)
    requires HandleInv(s) && TasksDeclared(s) && Enabled(s, step)
    ensures HandleInv(Apply(s, step))
  {
    var s' := Apply(s, step);
    TablesStepAny(s, step);
    EntriesStep(s, step);
    OthersOk(s, step);
    match step
    case OnDeclare(o, d) => OwnOpDeclare(s, o, d);
    case OnUndeclare(o, u) => OwnOpUndeclare(s, o, u);
    case OnCleanup(o, c) => OwnOpClean(s, o, c);
    case _ =>
  }

  lemma OthersOk(s: Server, step: Step)
    requires OpsOk(s) && Enabled(s, step) && TablesStep(s, Apply(s, step), Actor(step))
    ensures forall o :: o in Apply(s, step).ops && Actor(step) != Some(o) ==>
      OpOk(Apply(s, step), o, Apply(s, step).ops[o])
  {
    var s' := Apply(s, step);
    forall o | o in s'.ops && Actor(step) != Some(o) ensures OpOk(s', o, s'.ops[o]) {
      OpsElsewhere(s, step, o);
      OpStable(s, s', Actor(step), o);
    }
  }

  lemma OpsElsewhere(s: Server, step: Step, o: OpId)
    requires Enabled(s, step) && Actor(step) != Some(o)
    ensures o in Apply(s, step).ops <==> o in s.ops
    ensures o in s.ops ==> Apply(s, step).ops[o] == s.ops[o]
  {
    match step
    case OnDeclare(_, d) => match d { case _ => }
    case OnUndeclare(_, u) => match u { case _ => }
    case OnCleanup(_, c) => match c { case _ => }
    case OnTask(_, t) => match t { case _ => }
    case _ =>
  }

  // ---------- queries ----------

  /** The ids a task still has to announce are above those it has announced. */
  ghost predicate TaskOk(s: Server, h: Handle) {
    h in s.tasks ==>
      var task := s.tasks[h];
      && h in s.decls && s.decls[h].kind.Queryable?
      && Increasing(task.log)
      && (forall id :: id in task.log ==> id in s.origin && s.origin[id] == h)
      && (task.pc.Allocated? || task.pc.Stored? ==>
            && task.pc.id in s.origin && s.origin[task.pc.id] == h
            && (forall id :: id in task.log ==> id < task.pc.id))
      && (task.pc.Allocated? ==> task.pc.id !in s.core.inflight)
  }

  /** An in-flight query belongs to the queryable whose task received it. */
  ghost predicate QueryOk(s: Server, q: QueryId) {
    q in s.core.inflight ==>
      && q in s.origin && s.origin[q] in s.decls
      && s.core.inflight[q] == InFlight(s.decls[s.origin[q]].client, s.origin[q])
  }

  ghost predicate QueryInv(s: Server) {
    && 1 <= s.core.nextQueryId
    && (forall q :: q in s.origin ==> 1 <= q < s.core.nextQueryId && s.origin[q] in s.tasks && s.origin[q] in s.decls)
    && (forall h :: TaskOk(s, h))
    && (forall q :: q in s.core.inflight ==> QueryOk(s, q))
  }

  /** A step that is not a task's only takes queries away; it may start one new task. */
  ghost predicate QueriesShrink(s: Server, s': Server) {
    && s'.origin == s.origin && s'.core.nextQueryId == s.core.nextQueryId
    && (forall q :: q in s'.core.inflight ==> q in s.core.inflight && s'.core.inflight[q] == s.core.inflight[q])
    && (forall h :: h in s.tasks ==> h in s'.tasks && s'.tasks[h] == s.tasks[h])
    && (forall h :: h in s'.tasks && h !in s.tasks ==>
          s'.tasks[h] == Task(Waiting, []) && h in s'.decls && s'.decls[h].kind.Queryable?)
  }

  lemma ShrinkStep(s: Server, step: Step)
    requires HandleInv(s) && Enabled(s, step) && !step.OnTask?
    ensures QueriesShrink(s, Apply(s, step))
  {
    match step
    case OnDeclare(o, d) => ShrinkDeclare(s, o, d);
    case OnUndeclare(o, u) => ShrinkUndeclare(s, o, u);
    case OnCleanup(o, c) => ShrinkClean(s, o, c);
    case _ =>
  }

  lemma ShrinkUndeclare(s: Server, o: OpId, u: UndeclareStep)
    requires UndeclareEnabled(s, o, u)
    ensures QueriesShrink(s, UndeclareDo(s, o, u))
  {
    match u case _ =>
  }

  lemma ShrinkClean(s: Server, o: OpId, c: CleanStep)
    requires CleanEnabled(s, o, c)
    ensures QueriesShrink(s, CleanDo(s, o, c))
  {
    match c case _ =>
  }

  lemma ShrinkDeclare(s: Server, o: OpId, d: DeclareStep)
    requires HandleInv(s) && DeclareEnabled(s, o, d)
    ensures QueriesShrink(s, DeclareDo(s, o, d))
  {
    if o in s.ops { assert OpOk(s, o, s.ops[o]); }
  }

  lemma QueryInvShrink(s: Server, s': Server, actor: Option<OpId>)
    requires QueryInv(s) && TablesStep(s, s', actor) && QueriesShrink(s, s')
    ensures QueryInv(s')
  {
    forall h ensures TaskOk(s', h) { assert TaskOk(s, h); }
    forall q | q in s'.core.inflight ensures QueryOk(s', q) { assert QueryOk(s, q); }
  }

  lemma QueryInvTask(s: Server, h: Handle, t: TaskStep)
    requires QueryInv(s) && TaskEnabled(s, h, t)
    ensures QueryInv(TaskDo(s, h, t))
  {
    var s' := TaskDo(s, h, t);
    assert TaskOk(s, h);
    forall q | q in s'.core.inflight ensures QueryOk(s', q) { if q in s.core.inflight { assert QueryOk(s, q); } }
    forall g ensures TaskOk(s', g) {
      if g == h { OwnTask(s, h, t); } else { OtherTask(s, h, t, g); }
    }
  }

  lemma OwnTask(s: Server, h: Handle, t: TaskStep)
    requires QueryInv(s) && TaskEnabled(s, h, t)
    ensures TaskOk(TaskDo(s, h, t), h)
  {
    assert TaskOk(s, h);
    var log := s.tasks[h].log;
    if t.SendEvent? { assert forall i :: 0 <= i < |log| ==> log[i] in log; }
  }

  lemma OtherTask(s: Server, h: Handle, t: TaskStep, g: Handle)
    requires QueryInv(s) && TaskEnabled(s, h, t) && g != h
    ensures TaskOk(TaskDo(s, h, t), g)
  {
    assert TaskOk(s, g) && TaskOk(s, h);
  }

  // ---------- every reachable state of the server ----------

  ghost predicate Inv(s: Server) {
    HandleInv(s) && QueryInv(s)
  }

  lemma StartInv()
    ensures Inv(Start)
  {
    assert forall k: Kind :: TableOf(Start.core, k) == map[];
  }

  lemma StepInv(s: Server, step: Step)
    requires Inv(s) && Enabled(s, step)
    ensures Inv(Apply(s, step))
    ensures TablesStep(s, Apply(s, step), Actor(step))
  {
    assert TasksDeclared(s) by {
      forall h | h in s.tasks ensures h in s.decls { assert TaskOk(s, h); }
    }
    HandleInvStep(s, step);
    TablesStepAny(s, step);
    if step.OnTask? {
      QueryInvTask(s, step.handle, step.t);
    } else {
      ShrinkStep(s, step);
      QueryInvShrink(s, Apply(s, step), Actor(step));
    }
  }

  ghost predicate Legal(s: Server, run: seq<Step>)
    decreases |run|
  {
    run == [] || (Enabled(s, run[0]) && Legal(Apply(s, run[0]), run[1..]))
  }

  ghost function After(s: Server, run: seq<Step>): Server
    requires Legal(s, run)
    decreases |run|
  {
    if run == [] then s else After(Apply(s, run[0]), run[1..])
  }

  lemma {:induction false} RunInv(s: Server, run: seq<Step>)
    requires Inv(s) && Legal(s, run)
    ensures Inv(After(s, run))
    decreases |run|
  {
    if run != [] {
      StepInv(s, run[0]);
      RunInv(Apply(s, run[0]), run[1..]);
    }
  }

  /** The events broadcast so far on the channel of a queryable. */
  function LogOf(s: Server, h: Handle): seq<QueryId> {
    if h in s.tasks then s.tasks[h].log else []
  }

  /** From position `p` on, everything the task of `h` announces has an id of `b` or more. */
  ghost predicate Ahead(s: Server, h: Handle, p: nat, b: nat) {
    && b <= s.core.nextQueryId
    && (forall j :: p <= j < |LogOf(s, h)| ==> LogOf(s, h)[j] >= b)
    && (h in s.tasks && (s.tasks[h].pc.Allocated? || s.tasks[h].pc.Stored?) ==> s.tasks[h].pc.id >= b)
  }

  lemma LogGrows(s: Server, step: Step, h: Handle)
    requires Inv(s) && Enabled(s, step)
    ensures var log, log' := LogOf(s, h), LogOf(Apply(s, step), h);
      || log' == log
      || (step == OnTask(h, SendEvent) && h in s.tasks && s.tasks[h].pc.Stored? && log' == log + [s.tasks[h].pc.id])
  {
    if step.OnTask? { match step.t { case _ => } } else { ShrinkStep(s, step); }
  }

  lemma AheadStable(s: Server, step: Step, h: Handle, p: nat, b: nat)
    requires Inv(s) && Enabled(s, step) && Ahead(s, h, p, b)
    ensures Ahead(Apply(s, step), h, p, b)
  {
    LogGrows(s, step, h);
    if step.OnTask? { match step.t { case _ => } } else { ShrinkStep(s, step); }
  }

  lemma OriginGrows(s: Server, step: Step, q: QueryId)
    requires Inv(s) && Enabled(s, step) && q in s.origin
    ensures q in Apply(s, step).origin && Apply(s, step).origin[q] == s.origin[q]
  {
    if step.OnTask? { match step.t { case _ => } } else { ShrinkStep(s, step); }
  }

  /** A query id that has left the in-flight table, or never reached it. */
  predicate DeadQuery(s: Server, q: QueryId) {
    && q in s.origin && q !in s.core.inflight
    && s.origin[q] in s.tasks && s.tasks[s.origin[q]].pc != Allocated(q)
  }

  /** A handle whose entry was inserted and has been removed. */
  predicate DeadHandle(s: Server, h: Handle) {
    h in s.decls && s.decls[h].inserted && h !in TableOf(s.core, s.decls[h].kind)
  }

  lemma DeadQueryStep(s: Server, step: Step, q: QueryId)
    requires Inv(s) && Enabled(s, step) && DeadQuery(s, q)
    ensures DeadQuery(Apply(s, step), q)
  {
    if step.OnTask? {
      var h := step.handle;
      assert TaskOk(s, h);
      match step.t { case _ => }
    } else {
      ShrinkStep(s, step);
    }
  }

  lemma DeadHandleStep(s: Server, step: Step, h: Handle)
    requires Inv(s) && Enabled(s, step) && DeadHandle(s, h)
    ensures DeadHandle(Apply(s, step), h)
  {
    TablesStepAny(s, step);
  }

  lemma {:induction false} DeadForever(s: Server, run: seq<Step>, q: QueryId, h: Handle)
    requires Inv(s) && Legal(s, run)
    ensures DeadQuery(s, q) ==> DeadQuery(After(s, run), q)
    ensures DeadHandle(s, h) ==> DeadHandle(After(s, run), h)
    decreases |run|
  {
    if run != [] {
      StepInv(s, run[0]);
      if DeadQuery(s, q) { DeadQueryStep(s, run[0], q); }
      if DeadHandle(s, h) { DeadHandleStep(s, run[0], h); }
      DeadForever(Apply(s, run[0]), run[1..], q, h);
    }
  }

  // ---------- main results ----------

  /** Handles are unique across the four tables, and an entry never changes hands: as long
      as the record of a handle exists, its table holds the entry it was declared with, or
      no entry at all. */
  lemma HandlesUniqueAndFixed(run: seq<Step>, later: seq<Step>, j: Kind, k: Kind, h: Handle)
    requires Legal(Start, run) && Legal(After(Start, run), later)
    ensures var s, s' := After(Start, run), After(After(Start, run), later);
      && (h in TableOf(s.core, j) && h in TableOf(s.core, k) ==> j == k)
      && (h in TableOf(s.core, k) && h in TableOf(s'.core, j) ==>
            j == k && TableOf(s'.core, j)[h] == TableOf(s.core, k)[h])
      && (h in s.decls && s.decls[h].inserted && h !in TableOf(s.core, s.decls[h].kind) ==> h !in TableOf(s'.core, j))
  {
    StartInv();
    RunInv(Start, run);
    var s := After(Start, run);
    RunInv(s, later);
    var s' := After(s, later);
    DeclsForever(s, later);
    DeadForever(s, later, 0, h);
    assert EntryOk(s, j, h) && EntryOk(s, k, h) && EntryOk(s', j, h);
  }

  lemma {:induction false} DeclsForever(s: Server, run: seq<Step>)
    requires Inv(s) && Legal(s, run)
    ensures forall h :: h in s.decls ==>
      h in After(s, run).decls && (After(s, run).decls[h] == s.decls[h] || After(s, run).decls[h] == s.decls[h].(inserted := true))
    decreases |run|
  {
    if run != [] {
      StepInv(s, run[0]);
      DeclsForever(Apply(s, run[0]), run[1..]);
    }
  }

  /** `cleanup_client` under interleaving: whatever ran between its snapshot and its
      removals, a removal takes only an entry of the client being cleaned, and a finished
      cleanup has left nothing of what it saw in any of the four tables. */
  lemma CleanupSafe(run: seq<Step>, o: OpId)
    requires Legal(Start, run) && o in After(Start, run).ops
    ensures var s := After(Start, run); var op := s.ops[o];
      && (op.Cleaning? ==> forall h :: h in op.todo && h in TableOf(s.core, KindAt(op.table)) ==>
            TableOf(s.core, KindAt(op.table))[h].owner == op.client)
      && (op.Cleaned? ==> |op.seen| == 4 && forall j, h :: 0 <= j < 4 && h in op.seen[j] ==>
            h !in TableOf(s.core, KindAt(j)) && DeadHandle(s, h))
  {
    StartInv();
    RunInv(Start, run);
    var s := After(Start, run);
    var op := s.ops[o];
    assert OpOk(s, o, op);
    if op.Cleaning? {
      forall h | h in op.todo && h in TableOf(s.core, KindAt(op.table))
        ensures TableOf(s.core, KindAt(op.table))[h].owner == op.client
      {
        assert InsertedFor(s, h, KindAt(op.table), op.client);
        assert EntryOk(s, KindAt(op.table), h);
      }
    }
  }

  /** No cleanup step, wherever it falls, touches an entry of another client. */
  lemma CleanupSparesOthers(run: seq<Step>, o: OpId, c: CleanStep, k: Kind, h: Handle)
    requires Legal(Start, run) && CleanEnabled(After(Start, run), o, c)
    requires h in TableOf(After(Start, run).core, k)
    requires h !in TableOf(CleanDo(After(Start, run), o, c).core, k)
    ensures var s := After(Start, run);
      o in s.ops && s.ops[o].Cleaning? && TableOf(s.core, k)[h].owner == s.ops[o].client
  {
    assert !c.BeginClean?;
    CleanupSafe(run, o);
  }

  /** In-flight provenance: every in-flight query carries the client and the handle of the
      queryable whose task received it, so a reply or finish is accepted exactly from that
      client with that handle, while the query is in flight. */
  lemma Provenance(run: seq<Step>, client: ClientId, h: Handle, q: QueryId)
    requires Legal(Start, run)
    ensures var s := After(Start, run);
      QueryCode(s.core.inflight, client, h, q).Ok? <==>
        q in s.core.inflight && q in s.origin && h == s.origin[q] && h in s.decls && client == s.decls[h].client
  {
    StartInv();
    RunInv(Start, run);
    var s := After(Start, run);
    if q in s.core.inflight { assert QueryOk(s, q); }
  }

  /** A finish takes effect once: after one has succeeded, every later reply or finish on
      that query, from anyone, is answered NotFound and changes no query. */
  lemma FinishOnce(run: seq<Step>, first: Step, later: seq<Step>, client: ClientId, h: Handle)
    requires Legal(Start, run) && first.OnQuery? && first.finish
    requires QueryCode(After(Start, run).core.inflight, first.client, first.handle, first.query).Ok?
    requires Legal(Apply(After(Start, run), first), later)
    ensures var s' := After(Apply(After(Start, run), first), later);
      && QueryCode(s'.core.inflight, client, h, first.query) == NotFound
      && FinishQuery(s'.core.inflight, client, h, first.query) == s'.core.inflight
  {
    StartInv();
    RunInv(Start, run);
    var s := After(Start, run);
    assert QueryOk(s, first.query);
    assert TaskOk(s, s.origin[first.query]);
    StepInv(s, first);
    assert DeadQuery(Apply(s, first), first.query);
    DeadForever(Apply(s, first), later, first.query, 0);
  }

  // ---------- what each section does to each entry and query ----------

  /** The section removes the entry: an undeclare of it, by anybody, or a cleanup's removal. */
  predicate Removes(s: Server, step: Step, k: Kind, h: Handle) {
    || (step.OnUndeclare? && step.u.Remove? && step.u.kind == k && step.u.handle == h)
    || (step.OnCleanup? && step.c == RemoveOne(h) && step.op in s.ops && s.ops[step.op].Cleaning?
        && KindAt(s.ops[step.op].table) == k)
  }

  /** The section inserts the entry declared under `h`. */
  predicate Inserts(s: Server, step: Step, k: Kind, h: Handle) {
    step.OnDeclare? && step.d.Insert? && step.op in s.ops && s.ops[step.op] == TaskUp(h) && h in s.decls && s.decls[h].kind == k
  }

  /** The tables after a section, entry by entry. */
  lemma EntryChanges(s: Server, step: Step, k: Kind, h: Handle)
    requires Inv(s) && Enabled(s, step)
    ensures var t, t' := TableOf(s.core, k), TableOf(Apply(s, step).core, k);
      && (h in t' <==> Inserts(s, step, k, h) || (h in t && !Removes(s, step, k, h)))
      && (h in t' ==> t'[h] == if Inserts(s, step, k, h) then Entry(s.decls[h].client, s.decls[h].args) else t[h])
  {
    match step
    case OnDeclare(o, d) => EntryDeclare(s, o, d, k, h);
    case OnUndeclare(o, u) => EntryUndeclare(s, o, u, k, h);
    case OnCleanup(o, c) => EntryClean(s, o, c, k, h);
    case OnTask(g, t) => assert TableOf(TaskDo(s, g, t).core, k) == TableOf(s.core, k);
    case _ =>
  }

  lemma EntryDeclare(s: Server, o: OpId, d: DeclareStep, k: Kind, h: Handle)
    requires DeclareEnabled(s, o, d)
    ensures var t, t', inserts := TableOf(s.core, k), TableOf(DeclareDo(s, o, d).core, k), Inserts(s, OnDeclare(o, d), k, h);
      && (h in t' <==> inserts || h in t)
      && (h in t' ==> t'[h] == if inserts then Entry(s.decls[h].client, s.decls[h].args) else t[h])
  {
    match d case _ =>
  }

  lemma EntryUndeclare(s: Server, o: OpId, u: UndeclareStep, k: Kind, h: Handle)
    requires UndeclareEnabled(s, o, u)
    ensures var t, t' := TableOf(s.core, k), TableOf(UndeclareDo(s, o, u).core, k);
      (h in t' <==> h in t && !Removes(s, OnUndeclare(o, u), k, h)) && (h in t' ==> t'[h] == t[h])
  {
    match u case _ =>
  }

  lemma EntryClean(s: Server, o: OpId, c: CleanStep, k: Kind, h: Handle)
    requires CleanEnabled(s, o, c)
    ensures var t, t' := TableOf(s.core, k), TableOf(CleanDo(s, o, c).core, k);
      (h in t' <==> h in t && !Removes(s, OnCleanup(o, c), k, h)) && (h in t' ==> t'[h] == t[h])
  {
    match c case _ =>
  }

  /** The section ends the query: a finish by its owner with its handle, the last section of a
      cleanup of its owner, or the last section of an undeclare of its queryable by its owner. */
  predicate Ends(s: Server, step: Step, q: QueryId)
    requires q in s.core.inflight
  {
    var f := s.core.inflight[q];
    match step
    case OnQuery(client, h, query, finish) => finish && query == q && client == f.owner && h == f.handle
    case OnCleanup(o, c) => c.RetainOthers? && o in s.ops && s.ops[o].Cleaning? && s.ops[o].client == f.owner
    case OnUndeclare(o, u) =>
      u.Retain? && o in s.ops && s.ops[o].Removed? && s.ops[o].handle == f.handle && s.ops[o].client == f.owner
    case _ => false
  }

  predicate Stores(s: Server, step: Step, q: QueryId) {
    step.OnTask? && step.t.StoreQuery? && step.handle in s.tasks && s.tasks[step.handle].pc == Allocated(q)
  }

  /** The in-flight queries after a section, one by one: a query enters exactly when the task of
      its queryable stores it, leaves exactly when a section ends it, and does not change. */
  lemma QueryChanges(s: Server, step: Step, q: QueryId)
    requires Inv(s) && Enabled(s, step)
    ensures var f, f' := s.core.inflight, Apply(s, step).core.inflight;
      && (q in f' <==> Stores(s, step, q) || (q in f && !Ends(s, step, q)))
      && (Stores(s, step, q) ==> f'[q] == InFlight(s.decls[step.handle].client, step.handle))
      && (q in f' && !Stores(s, step, q) ==> f'[q] == f[q])
  {
    match step
    case OnUndeclare(o, u) => QueryUndeclare(s, o, u, q);
    case OnCleanup(o, c) => QueryClean(s, o, c, q);
    case OnTask(h, t) => QueryTask(s, h, t, q);
    case OnDeclare(o, d) => assert DeclareDo(s, o, d).core.inflight == s.core.inflight;
    case _ =>
  }

  lemma QueryClean(s: Server, o: OpId, c: CleanStep, q: QueryId)
    requires CleanEnabled(s, o, c)
    ensures var f, f' := s.core.inflight, CleanDo(s, o, c).core.inflight;
      (q in f' <==> q in f && !Ends(s, OnCleanup(o, c), q)) && (q in f' ==> f'[q] == f[q])
  {
    match c case _ =>
  }

  lemma QueryTask(s: Server, h: Handle, t: TaskStep, q: QueryId)
    requires TaskEnabled(s, h, t)
    ensures var f, f', stores := s.core.inflight, TaskDo(s, h, t).core.inflight, Stores(s, OnTask(h, t), q);
      && (q in f' <==> stores || q in f)
      && (q in f' ==> f'[q] == if stores then InFlight(s.decls[h].client, h) else f[q])
  {
    match t case _ =>
  }

  lemma QueryUndeclare(s: Server, o: OpId, u: UndeclareStep, q: QueryId)
    requires Inv(s) && UndeclareEnabled(s, o, u)
    ensures var f, f' := s.core.inflight, UndeclareDo(s, o, u).core.inflight;
      (q in f' <==> q in f && !Ends(s, OnUndeclare(o, u), q)) && (q in f' ==> f'[q] == f[q])
  {
    if u.Retain? {
      assert OpOk(s, o, s.ops[o]);
      if q in s.core.inflight {
        assert QueryOk(s, q);
        assert TaskOk(s, s.core.inflight[q].handle);
      }
    }
  }

  /** In every reachable state a query leaves exactly in these ways. */
  lemma QueriesLeaveOnly(run: seq<Step>, step: Step, q: QueryId)
    requires Legal(Start, run) && Enabled(After(Start, run), step) && q in After(Start, run).core.inflight
    ensures var s := After(Start, run);
      q !in Apply(s, step).core.inflight <==> Ends(s, step, q)
  {
    StartInv();
    RunInv(Start, run);
    var s := After(Start, run);
    QueryChanges(s, step, q);
    assert QueryOk(s, q);
    if step.OnTask? { assert TaskOk(s, step.handle); }
  }

  /** A task announces a query exactly when, at its third section, the query is still in
      flight; nothing else is ever announced on its channel. */
  lemma LogExactly(s: Server, step: Step, h: Handle)
    requires Inv(s) && Enabled(s, step)
    ensures var log, log' := LogOf(s, h), LogOf(Apply(s, step), h);
      if step == OnTask(h, SendEvent) && s.tasks[h].pc.id in s.core.inflight then log' == log + [s.tasks[h].pc.id]
      else log' == log
  {
    LogGrows(s, step, h);
    if step.OnTask? { match step.t { case _ => } }
  }

  /** The time a section gives a client: touches and declares begin with it, a cleanup begins by
      forgetting, and nothing else moves the lease. */
  lemma LiveChanges(s: Server, step: Step, client: ClientId)
    requires Enabled(s, step)
    ensures var live, live' := s.core.live, Apply(s, step).core.live;
      if (step.OnTouch? && step.client == client) then client in live' && live'[client] == step.now
      else if (step.OnDeclare? && step.d.Begin? && step.d.client == client) then client in live' && live'[client] == step.d.now
      else if step.OnCleanup? && step.c == BeginClean(client) then client !in live'
      else (client in live' <==> client in live) && (client in live ==> live'[client] == live[client])
  {
    match step
    case OnDeclare(o, d) => match d { case _ => }
    case OnUndeclare(o, u) => assert UndeclareDo(s, o, u).core.live == s.core.live;
    case OnCleanup(o, c) => match c { case _ => }
    case OnTask(h, t) => assert TaskDo(s, h, t).core.live == s.core.live;
    case _ =>
  }

  /** A task whose queryable is gone from zenoh takes no further query. */
  lemma {:induction false} EndedForGood(s: Server, run: seq<Step>, h: Handle)
    requires Inv(s) && Legal(s, run) && h in s.tasks && s.tasks[h].pc.Ended?
    ensures h in After(s, run).tasks && After(s, run).tasks[h] == s.tasks[h]
    decreases |run|
  {
    if run != [] {
      StepInv(s, run[0]);
      EndedStep(s, run[0], h);
      EndedForGood(Apply(s, run[0]), run[1..], h);
    }
  }

  lemma EndedStep(s: Server, step: Step, h: Handle)
    requires Inv(s) && Enabled(s, step) && h in s.tasks
    ensures s.tasks[h].pc.Ended? ==> h in Apply(s, step).tasks && Apply(s, step).tasks[h] == s.tasks[h]
    ensures step == OnTask(h, EndTask) ==> Apply(s, step).tasks[h].pc.Ended?
  {
    if step.OnTask? { match step.t { case _ => } } else { ShrinkStep(s, step); }
  }

  // ---------- a cleanup finds everything ----------

  /** What a cleanup has seen stays on its record. */
  lemma SeenKept(s: Server, step: Step, o: OpId)
    requires Enabled(s, step) && o in s.ops && (s.ops[o].Cleaning? || s.ops[o].Cleaned?)
    ensures var s' := Apply(s, step);
      && o in s'.ops && (s'.ops[o].Cleaning? || s'.ops[o].Cleaned?)
      && |s.ops[o].seen| <= |s'.ops[o].seen| && s'.ops[o].seen[..|s.ops[o].seen|] == s.ops[o].seen
  {
    if Actor(step) == Some(o) {
      assert step.OnCleanup?;
      match step.c case _ =>
    } else {
      OpsElsewhere(s, step, o);
    }
  }

  lemma {:induction false} SeenForever(s: Server, run: seq<Step>, o: OpId)
    requires Legal(s, run) && o in s.ops && (s.ops[o].Cleaning? || s.ops[o].Cleaned?)
    ensures var s' := After(s, run);
      && o in s'.ops && (s'.ops[o].Cleaning? || s'.ops[o].Cleaned?)
      && |s.ops[o].seen| <= |s'.ops[o].seen| && s'.ops[o].seen[..|s.ops[o].seen|] == s.ops[o].seen
    decreases |run|
  {
    if run != [] {
      SeenKept(s, run[0], o);
      SeenForever(Apply(s, run[0]), run[1..], o);
      var a, b, c := s.ops[o].seen, Apply(s, run[0]).ops[o].seen, After(s, run).ops[o].seen;
      assert c[..|a|] == c[..|b|][..|a|];
    }
  }

  /** Every entry that the client owns when its table is scanned is gone, for good, when the
      cleanup is over, whatever else runs in between. */
  lemma CleanupTakesAll(run: seq<Step>, o: OpId, later: seq<Step>, h: Handle)
    requires Legal(Start, run) && CleanEnabled(After(Start, run), o, Scan)
    requires Legal(Apply(After(Start, run), OnCleanup(o, Scan)), later)
    requires var s := After(Start, run); var t := TableOf(s.core, KindAt(s.ops[o].table));
      h in t && t[h].owner == s.ops[o].client
    ensures var s' := After(Apply(After(Start, run), OnCleanup(o, Scan)), later);
      o in s'.ops && (s'.ops[o].Cleaned? ==> DeadHandle(s', h) && forall k: Kind :: h !in TableOf(s'.core, k))
  {
    StartInv();
    RunInv(Start, run);
    var s := After(Start, run);
    assert OpOk(s, o, s.ops[o]);
    var s1 := Apply(s, OnCleanup(o, Scan));
    StepInv(s, OnCleanup(o, Scan));
    var n := |s.ops[o].seen|;
    assert |s1.ops[o].seen| == n + 1 && h in s1.ops[o].seen[n];
    SeenForever(s1, later, o);
    RunInv(s1, later);
    var s' := After(s1, later);
    assert s'.ops[o].seen[n] == s'.ops[o].seen[..n + 1][n];
    assert OpOk(s', o, s'.ops[o]);
    if s'.ops[o].Cleaned? {
      assert InsertedFor(s', h, KindAt(n), s'.ops[o].client);
      forall k: Kind ensures h !in TableOf(s'.core, k) { assert EntryOk(s', k, h); }
    }
  }

  // ---------- which resources the sweeper can still reach ----------

  function IndexOf(k: Kind): nat {
    match k case Publisher => 0 case Subscriber => 1 case Queryable => 2 case Querier => 3
  }

  /** A cleanup of `client` that has yet to take an entry `h` of table `k`. */
  predicate WillTake(op: Op, client: ClientId, k: Kind, h: Handle) {
    && op.Cleaning? && op.client == client
    && (IndexOf(k) > op.table || (IndexOf(k) == op.table && (!op.scanned || h in op.todo)))
  }

  /** The owner is live, so a later sweep can select it, or a cleanup is on its way. */
  ghost predicate InReach(s: Server, client: ClientId, k: Kind, h: Handle) {
    client in s.core.live || exists o :: o in s.ops && WillTake(s.ops[o], client, k, h)
  }

  ghost predicate AllInReach(s: Server) {
    forall k: Kind, h :: h in TableOf(s.core, k) ==> InReach(s, TableOf(s.core, k)[h].owner, k, h)
  }

  /** A declare handler inserts its entry although its client was evicted in between and
      no cleanup of the client has the table still before it. */
  ghost predicate LostInsert(s: Server, step: Step) {
    && step.OnDeclare? && step.d.Insert? && DeclareEnabled(s, step.op, step.d)
    && var h := s.ops[step.op].handle;
       !InReach(s, s.decls[h].client, s.decls[h].kind, h)
  }

  lemma ReachKept(s: Server, step: Step, client: ClientId, k: Kind, h: Handle)
    requires Inv(s) && Enabled(s, step) && InReach(s, client, k, h)
    requires h in TableOf(Apply(s, step).core, k) && TableOf(Apply(s, step).core, k)[h].owner == client
    ensures InReach(Apply(s, step), client, k, h)
  {
    var s' := Apply(s, step);
    if client in s.core.live {
      if client !in s'.core.live {
        LiveLost(s, step, client);
        assert WillTake(s'.ops[step.op], client, k, h);
      }
    } else {
      var o :| o in s.ops && WillTake(s.ops[o], client, k, h);
      if Actor(step) == Some(o) {
        CleanerKeeps(s, step, o, client, k, h);
      } else {
        OpsElsewhere(s, step, o);
      }
      assert o in s'.ops && WillTake(s'.ops[o], client, k, h);
    }
  }

  lemma LiveLost(s: Server, step: Step, client: ClientId)
    requires Enabled(s, step) && client in s.core.live
    ensures client in Apply(s, step).core.live || (step.OnCleanup? && step.c == BeginClean(client))
  {
    match step
    case OnDeclare(o, d) => LiveDeclare(s, o, d);
    case OnUndeclare(o, u) => LiveUndeclare(s, o, u);
    case OnCleanup(o, c) => match c { case _ => }
    case OnTask(h, t) => assert TaskDo(s, h, t).core.live == s.core.live;
    case _ =>
  }

  lemma LiveDeclare(s: Server, o: OpId, d: DeclareStep)
    requires DeclareEnabled(s, o, d)
    ensures s.core.live.Keys <= DeclareDo(s, o, d).core.live.Keys
  {
  }

  lemma LiveUndeclare(s: Server, o: OpId, u: UndeclareStep)
    requires UndeclareEnabled(s, o, u)
    ensures s.core.live.Keys <= UndeclareDo(s, o, u).core.live.Keys
    ensures forall k: Kind, h :: h in TableOf(UndeclareDo(s, o, u).core, k) ==> h in TableOf(s.core, k)
  {
  }

  lemma CleanRemoves(s: Server, o: OpId, c: CleanStep)
    requires CleanEnabled(s, o, c)
    ensures forall k: Kind, h :: h in TableOf(CleanDo(s, o, c).core, k) ==> h in TableOf(s.core, k)
  {
  }

  lemma CleanerKeeps(s: Server, step: Step, o: OpId, client: ClientId, k: Kind, h: Handle)
    requires Inv(s) && Enabled(s, step) && Actor(step) == Some(o)
    requires o in s.ops && WillTake(s.ops[o], client, k, h)
    requires h in TableOf(Apply(s, step).core, k) && TableOf(Apply(s, step).core, k)[h].owner == client
    ensures o in Apply(s, step).ops && WillTake(Apply(s, step).ops[o], client, k, h)
  {
    assert OpOk(s, o, s.ops[o]);
    assert step.OnCleanup?;
    var s' := CleanDo(s, o, step.c);
    match step.c
    case Scan => assert TableOf(s'.core, k) == TableOf(s.core, k) && KindAt(IndexOf(k)) == k;
    case RemoveOne(g) => if g == h { assert KindAt(IndexOf(k)) == k; }
    case NextTable =>
    case RetainOthers =>
  }

  /** From a state in which the sweeper can reach every entry, one step spoils that exactly
      when it is a lost insert. */
  lemma EntryReachStep(s: Server, step: Step)
    requires Inv(s) && Enabled(s, step) && AllInReach(s)
    ensures AllInReach(Apply(s, step)) <==> !LostInsert(s, step)
  {
    var s' := Apply(s, step);
    if LostInsert(s, step) {
      InsertOutOfReach(s, step);
    } else {
      TablesStepAny(s, step);
      StepInv(s, step);
      forall k: Kind, h | h in TableOf(s'.core, k) ensures InReach(s', TableOf(s'.core, k)[h].owner, k, h) {
        assert EntryOk(s', k, h) && EntryOk(s, k, h);
        if h !in TableOf(s.core, k) { OnlyInsertAdds(s, step, k, h); }
        ReachKept(s, step, TableOf(s'.core, k)[h].owner, k, h);
      }
    }
  }

  lemma OnlyInsertAdds(s: Server, step: Step, k: Kind, h: Handle)
    requires Inv(s) && Enabled(s, step) && h !in TableOf(s.core, k)
    ensures h in TableOf(Apply(s, step).core, k) ==>
      && step.OnDeclare? && step.d.Insert? && step.op in s.ops && s.ops[step.op] == TaskUp(h)
      && h in s.decls && s.decls[h].kind == k && TableOf(Apply(s, step).core, k)[h].owner == s.decls[h].client
  {
    match step
    case OnDeclare(o, d) =>
      if o in s.ops { assert OpOk(s, o, s.ops[o]); }
      assert !d.Insert? ==> TableOf(DeclareDo(s, o, d).core, k) == TableOf(s.core, k);
    case OnUndeclare(o, u) => LiveUndeclare(s, o, u);
    case OnCleanup(o, c) => CleanRemoves(s, o, c);
    case OnTask(g, t) => assert TableOf(TaskDo(s, g, t).core, k) == TableOf(s.core, k);
    case _ =>
  }

  lemma InsertOutOfReach(s: Server, step: Step)
    requires Inv(s) && LostInsert(s, step)
    ensures !AllInReach(Apply(s, step))
  {
    var s' := Apply(s, step);
    var h := s.ops[step.op].handle;
    var client, k := s.decls[h].client, s.decls[h].kind;
    assert h in TableOf(s'.core, k) && TableOf(s'.core, k)[h].owner == client;
    forall o | o in s'.ops ensures !WillTake(s'.ops[o], client, k, h) {
      if o != step.op { assert s'.ops[o] == s.ops[o]; }
    }
  }

  /** The owner of an in-flight query is live, or a cleanup of it is on its way, whose last
      section will take the query. */
  ghost predicate QueryInReach(s: Server, client: ClientId) {
    client in s.core.live || exists o :: o in s.ops && s.ops[o].Cleaning? && s.ops[o].client == client
  }

  ghost predicate QueriesInReach(s: Server) {
    forall q :: q in s.core.inflight ==> QueryInReach(s, s.core.inflight[q].owner)
  }

  /** A background task stores a query although its queryable's client was evicted and no
      cleanup of the client is under way. */
  ghost predicate LostStore(s: Server, step: Step) {
    step.OnTask? && step.t.StoreQuery? && TaskEnabled(s, step.handle, step.t)
    && !QueryInReach(s, s.decls[step.handle].client)
  }

  lemma QueryReachKept(s: Server, step: Step, q: QueryId)
    requires Enabled(s, step) && q in Apply(s, step).core.inflight
    requires QueryInReach(s, Apply(s, step).core.inflight[q].owner)
    ensures QueryInReach(Apply(s, step), Apply(s, step).core.inflight[q].owner)
  {
    var s' := Apply(s, step);
    var client := s'.core.inflight[q].owner;
    if client in s.core.live {
      LiveLost(s, step, client);
      if client !in s'.core.live { assert s'.ops[step.op].Cleaning? && s'.ops[step.op].client == client; }
    } else {
      var o :| o in s.ops && s.ops[o].Cleaning? && s.ops[o].client == client;
      if Actor(step) == Some(o) {
        assert step.OnCleanup? && !step.c.RetainOthers?;
        match step.c { case _ => }
      } else {
        OpsElsewhere(s, step, o);
      }
      assert o in s'.ops && s'.ops[o].Cleaning? && s'.ops[o].client == client;
    }
  }

  /** From a state in which the sweeper can reach every in-flight query, one step spoils that
      exactly when it is a lost store. */
  lemma QueryReachStep(s: Server, step: Step)
    requires Inv(s) && Enabled(s, step) && QueriesInReach(s)
    ensures QueriesInReach(Apply(s, step)) <==> !LostStore(s, step)
  {
    var s' := Apply(s, step);
    if LostStore(s, step) {
      var q := s.tasks[step.handle].pc.id;
      assert q in s'.core.inflight && s'.core.inflight[q].owner == s.decls[step.handle].client;
    } else {
      forall q | q in s'.core.inflight ensures QueryInReach(s', s'.core.inflight[q].owner) {
        QuerySource(s, step, q);
        QueryReachKept(s, step, q);
      }
    }
  }

  lemma QuerySource(s: Server, step: Step, q: QueryId)
    requires Inv(s) && Enabled(s, step) && q in Apply(s, step).core.inflight
    ensures var f := Apply(s, step).core.inflight[q];
      || (q in s.core.inflight && s.core.inflight[q] == f)
      || (step.OnTask? && step.t.StoreQuery? && f.owner == s.decls[step.handle].client)
  {
    if step.OnTask? { match step.t { case _ => } } else { ShrinkStep(s, step); }
  }

  /** Every declared resource and every in-flight query. */
  ghost predicate EverythingInReach(s: Server) { AllInReach(s) && QueriesInReach(s) }

  ghost predicate Loses(s: Server, step: Step) { LostInsert(s, step) || LostStore(s, step) }

  /** From a state in which the sweeper can reach everything, one step spoils that exactly
      when it is a lost insert or a lost store. */
  lemma ReachStep(s: Server, step: Step)
    requires Inv(s) && Enabled(s, step) && EverythingInReach(s)
    ensures EverythingInReach(Apply(s, step)) <==> !Loses(s, step)
  {
    EntryReachStep(s, step);
    QueryReachStep(s, step);
  }

  ghost predicate AlwaysInReach(s: Server, run: seq<Step>)
    requires Legal(s, run)
    decreases |run|
  {
    EverythingInReach(s) && (run != [] ==> AlwaysInReach(Apply(s, run[0]), run[1..]))
  }

  ghost predicate NoneLost(s: Server, run: seq<Step>)
    requires Legal(s, run)
    decreases |run|
  {
    run != [] ==> !Loses(s, run[0]) && NoneLost(Apply(s, run[0]), run[1..])
  }

  /** Under interleaving the sweeper can reach every resource and every in-flight query
      throughout a run if and only if the run has no lost insert and no lost store. */
  lemma {:induction false} SweeperReach(s: Server, run: seq<Step>)
    requires Inv(s) && EverythingInReach(s) && Legal(s, run)
    ensures AlwaysInReach(s, run) <==> NoneLost(s, run)
    decreases |run|
  {
    if run != [] {
      StepInv(s, run[0]);
      ReachStep(s, run[0]);
      if EverythingInReach(Apply(s, run[0])) { SweeperReach(Apply(s, run[0]), run[1..]); }
    }
  }

  lemma SweeperReachFromStart(run: seq<Step>)
    requires Legal(Start, run)
    ensures AlwaysInReach(Start, run) <==> NoneLost(Start, run)
  {
    StartInv();
    assert forall k: Kind :: TableOf(Start.core, k) == map[];
    SweeperReach(Start, run);
  }

  ghost predicate Reachable(s: Server) {
    exists run: seq<Step> :: Legal(Start, run) && After(Start, run) == s
  }

  lemma {:induction false} RunAppend(s: Server, run: seq<Step>, step: Step)
    requires Legal(s, run) && Enabled(After(s, run), step)
    ensures Legal(s, run + [step]) && After(s, run + [step]) == Apply(After(s, run), step)
    decreases |run|
  {
    if run == [] {
      assert run + [step] == [step];
      assert Legal(Apply(s, step), []);
    } else {
      RunAppend(Apply(s, run[0]), run[1..], step);
      assert (run + [step])[1..] == run[1..] + [step];
    }
  }

  lemma ReachableStep(s: Server, step: Step)
    requires Reachable(s) && Enabled(s, step)
    ensures Reachable(Apply(s, step))
  {
    var run: seq<Step> :| Legal(Start, run) && After(Start, run) == s;
    RunAppend(Start, run, step);
    assert Legal(Start, run + [step]) && After(Start, run + [step]) == Apply(s, step);
  }

  lemma ReachableInv(s: Server)
    requires Reachable(s)
    ensures Inv(s)
  {
    var run: seq<Step> :| Legal(Start, run) && After(Start, run) == s;
    StartInv();
    RunInv(Start, run);
  }

  /** Lost inserts do happen: a client is evicted while its declare awaits zenoh, the cleanup
      scans the table before the entry is there, and the entry is inserted afterwards. */
  lemma EvictionRace(client: ClientId, args: Args) returns (s: Server)
    ensures Reachable(s) && !AllInReach(s)
    ensures 1 in s.core.publishers && s.core.publishers[1] == Entry(client, args) && client !in s.core.live
  {
    s := EvictedWhileDeclaring(client, args);
    ReachableInv(s);
    assert !InReach(s, client, Publisher, 1);
    InsertOutOfReach(s, OnDeclare(0, Insert));
    ReachableStep(s, OnDeclare(0, Insert));
    s := Apply(s, OnDeclare(0, Insert));
  }

  lemma EvictedWhileDeclaring(client: ClientId, args: Args) returns (s: Server)
    ensures Reachable(s) && client !in s.core.live
    ensures s.ops.Keys == {0, 1} && s.ops[0] == TaskUp(1)
    ensures s.ops[1].Cleaning? && s.ops[1].table == 0 && s.ops[1].scanned && s.ops[1].todo == {}
    ensures 1 in s.decls && s.decls[1] == Decl(Publisher, client, args, None, 0, false)
  {
    s := DeclaringPublisher(client, args);
    ReachableStep(s, OnCleanup(1, BeginClean(client)));  s := Apply(s, OnCleanup(1, BeginClean(client)));
    assert OwnedBy(s.core.publishers, client) == {};
    ReachableStep(s, OnCleanup(1, Scan));                s := Apply(s, OnCleanup(1, Scan));
  }

  lemma DeclaringPublisher(client: ClientId, args: Args) returns (s: Server)
    ensures Reachable(s) && s.ops == map[0 := TaskUp(1)] && s.core.publishers == map[]
    ensures s.decls == map[1 := Decl(Publisher, client, args, None, 0, false)]
  {
    s := Start;
    assert Legal(Start, []) && After(Start, []) == s;
    ReachableStep(s, OnDeclare(0, Begin(Publisher, client, args, None, 0)));
    s := Apply(s, OnDeclare(0, Begin(Publisher, client, args, None, 0)));
    ReachableStep(s, OnDeclare(0, Alloc));               s := Apply(s, OnDeclare(0, Alloc));
    ReachableStep(s, OnDeclare(0, Zenoh(true)));         s := Apply(s, OnDeclare(0, Zenoh(true)));
  }

  /** Lost stores happen too: a task has numbered a query when its client is evicted, the
      cleanup runs to its end, and the query is stored afterwards. */
  lemma DrainRace(client: ClientId, args: Args) returns (s: Server)
    ensures Reachable(s) && !QueriesInReach(s)
    ensures s.core.inflight == map[1 := InFlight(client, 1)] && client !in s.core.live
  {
    s := EvictedWhileNumbering(client, args);
    ReachableStep(s, OnTask(1, StoreQuery));
    s := Apply(s, OnTask(1, StoreQuery));
    assert s.core.inflight[1].owner == client && !QueryInReach(s, client);
  }

  lemma EvictedWhileNumbering(client: ClientId, args: Args) returns (s: Server)
    ensures Reachable(s) && client !in s.core.live && s.core.inflight == map[]
    ensures forall o :: o in s.ops ==> !s.ops[o].Cleaning?
    ensures 1 in s.tasks && s.tasks[1].pc == Allocated(1) && 1 in s.decls && s.decls[1].client == client
  {
    s := NumberingQuery(client, args);
    s := TablesPassed(s, client);
    ReachableStep(s, OnCleanup(1, RetainOthers));
    s := Apply(s, OnCleanup(1, RetainOthers));
  }

  lemma TablesPassed(before: Server, client: ClientId) returns (s: Server)
    requires Reachable(before) && NoEntries(before.core) && before.ops == map[0 := TaskUp(1)]
    ensures Reachable(s) && s.core == before.core.(live := before.core.live - {client})
    ensures s.decls == before.decls && s.tasks == before.tasks
    ensures s.ops.Keys == {0, 1} && s.ops[0] == TaskUp(1)
    ensures s.ops[1].Cleaning? && s.ops[1].table == 4 && !s.ops[1].scanned && s.ops[1].client == client
  {
    ReachableStep(before, OnCleanup(1, BeginClean(client)));
    s := Apply(before, OnCleanup(1, BeginClean(client)));
    assert forall k: Kind :: TableOf(s.core, k) == TableOf(before.core, k);
    s := EmptyTable(s, 0, client);
    s := EmptyTable(s, 1, client);
    s := EmptyTable(s, 2, client);
    s := EmptyTable(s, 3, client);
  }

  ghost predicate NoEntries(c: Core) { forall k: Kind :: TableOf(c, k) == map[] }

  lemma EmptyTable(before: Server, n: nat, client: ClientId) returns (s: Server)
    requires Reachable(before) && NoEntries(before.core) && n < 4
    requires before.ops.Keys == {0, 1} && before.ops[0] == TaskUp(1)
    requires before.ops[1].Cleaning? && before.ops[1].table == n && !before.ops[1].scanned && before.ops[1].client == client
    ensures Reachable(s) && s.core == before.core && s.decls == before.decls && s.tasks == before.tasks
    ensures s.ops.Keys == {0, 1} && s.ops[0] == TaskUp(1)
    ensures s.ops[1].Cleaning? && s.ops[1].table == n + 1 && !s.ops[1].scanned && s.ops[1].client == client
  {
    s := before;
    assert OwnedBy(TableOf(s.core, KindAt(n)), client) == {};
    ReachableStep(s, OnCleanup(1, Scan));                s := Apply(s, OnCleanup(1, Scan));
    ReachableStep(s, OnCleanup(1, NextTable));           s := Apply(s, OnCleanup(1, NextTable));
  }

  lemma NumberingQuery(client: ClientId, args: Args) returns (s: Server)
    ensures Reachable(s) && s.ops == map[0 := TaskUp(1)] && NoEntries(s.core) && s.core.inflight == map[]
    ensures 1 in s.tasks && s.tasks[1].pc == Allocated(1) && 1 in s.decls && s.decls[1].client == client
  {
    s := Start;
    assert Legal(Start, []) && After(Start, []) == s;
    ReachableStep(s, OnDeclare(0, Begin(Queryable, client, args, None, 0)));
    s := Apply(s, OnDeclare(0, Begin(Queryable, client, args, None, 0)));
    ReachableStep(s, OnDeclare(0, Alloc));               s := Apply(s, OnDeclare(0, Alloc));
    ReachableStep(s, OnDeclare(0, Zenoh(true)));         s := Apply(s, OnDeclare(0, Zenoh(true)));
    ReachableStep(s, OnTask(1, AllocId));                s := Apply(s, OnTask(1, AllocId));
  }

  // ---------- handlers run alone ----------

  /** All steps of the run are sections of handler `o`. */
  predicate Own(run: seq<Step>, o: OpId) {
    forall i :: 0 <= i < |run| ==> Actor(run[i]) == Some(o)
  }

  /** What a declare asks for, and the request as a single step, with zenoh's outcome. */
  datatype Ask = Ask(kind: Kind, client: ClientId, args: Args, now: Instant)

  function Whole(a: Ask, zenohOk: bool): Request { Declare(a.client, a.kind, a.args, a.now, zenohOk) }

  predicate Asked(c: Core, s: Server, a: Ask, h: Handle) {
    && h == c.nextHandle && h in s.decls
    && s.decls[h].kind == a.kind && s.decls[h].client == a.client && s.decls[h].args == a.args
    && s.core == Touched(c, a.client, a.now).(nextHandle := c.nextHandle + 1)
  }

  /** Where an undisturbed declare stands, compared with the core `c` it began with; at most
      `left` sections are to come. */
  ghost predicate DeclareAt(c: Core, s: Server, o: OpId, a: Ask, left: nat) {
    o in s.ops &&
    match s.ops[o]
    case Declaring(k, client, args, _) =>
      left == 3 && k == a.kind && client == a.client && args == a.args && s.core == Touched(c, a.client, a.now)
    case HasHandle(h) => left == 2 && Asked(c, s, a, h)
    case TaskUp(h) => left == 1 && Asked(c, s, a, h)
    case Declared(h) => left == 0 && h == c.nextHandle && s.core == Handled(c, Whole(a, true)).0
    case DeclareFailed => left == 0 && s.core == Handled(c, Whole(a, false)).0
    case _ => false
  }

  lemma DeclareMoves(c: Core, s: Server, o: OpId, a: Ask, left: nat, d: DeclareStep) returns (left': nat)
    requires DeclareAt(c, s, o, a, left) && DeclareEnabled(s, o, d)
    ensures left' < left && DeclareAt(c, DeclareDo(s, o, d), o, a, left')
  {
    left' := if d.Alloc? then 2 else if d.Zenoh? && d.ok then 1 else 0;
  }

  lemma {:induction false} DeclareRuns(c: Core, s: Server, o: OpId, a: Ask, left: nat, run: seq<Step>)
    returns (left': nat)
    requires DeclareAt(c, s, o, a, left) && Legal(s, run) && Own(run, o)
    ensures |run| + left' <= left && DeclareAt(c, After(s, run), o, a, left')
    decreases |run|
  {
    left' := left;
    if run != [] {
      assert run[0].OnDeclare?;
      left' := DeclareMoves(c, s, o, a, left, run[0].d);
      left' := DeclareRuns(c, Apply(s, run[0]), o, a, left', run[1..]);
    }
  }

  /** Whatever sections of a declare run after its begin, with nobody else acting: there are
      at most three; unless the handler is over another one is possible; and when it is over,
      the state is that of the whole handler as a single step. */
  lemma DeclareAlone(s: Server, o: OpId, a: Ask, obj: Option<ObjId>, run: seq<Step>)
    requires o !in s.ops && Own(run, o)
    requires Legal(Apply(s, OnDeclare(o, Begin(a.kind, a.client, a.args, obj, a.now))), run)
    ensures var s' := After(Apply(s, OnDeclare(o, Begin(a.kind, a.client, a.args, obj, a.now))), run);
      && |run| <= 3 && o in s'.ops
      && match s'.ops[o]
         case Declared(h) => h == s.core.nextHandle && s'.core == Handled(s.core, Whole(a, true)).0
         case DeclareFailed => s'.core == Handled(s.core, Whole(a, false)).0
         case _ => exists d :: DeclareEnabled(s', o, d)
  {
    var s1 := Apply(s, OnDeclare(o, Begin(a.kind, a.client, a.args, obj, a.now)));
    var left := DeclareRuns(s.core, s1, o, a, 3, run);
    DeclareGoesOn(s.core, After(s1, run), o, a, left);
  }

  lemma DeclareGoesOn(c: Core, s: Server, o: OpId, a: Ask, left: nat)
    requires DeclareAt(c, s, o, a, left)
    ensures left > 0 ==> exists d :: DeclareEnabled(s, o, d)
  {
    var d := if s.ops[o].Declaring? then Alloc else if s.ops[o].HasHandle? then Zenoh(true) else Insert;
    if left > 0 { assert DeclareEnabled(s, o, d); }
  }

  /** Where an undisturbed undeclare stands. */
  ghost predicate UndeclareAt(c: Core, s: Server, o: OpId, k: Kind, client: ClientId, h: Handle, now: Instant, left: nat) {
    o in s.ops &&
    match s.ops[o]
    case Removed(k', cl, h', owner) =>
      && left == 1 && k' == k && cl == client && h' == h && h in TableOf(c, k) && owner == TableOf(c, k)[h].owner
      && s.core == WithTable(Touched(c, client, now), k, TableOf(c, k) - {h})
    case Undeclared => left == 0 && s.core == Handled(c, Undeclare(client, k, h, now, true)).0
    case _ => false
  }

  lemma RetainMoves(c: Core, s: Server, o: OpId, k: Kind, client: ClientId, h: Handle, now: Instant)
    requires UndeclareAt(c, s, o, k, client, h, now, 1)
    ensures UndeclareEnabled(s, o, Retain) && UndeclareAt(c, UndeclareDo(s, o, Retain), o, k, client, h, now, 0)
  {
  }

  lemma RemoveBegins(s: Server, o: OpId, k: Kind, client: ClientId, h: Handle, now: Instant)
    requires o !in s.ops
    ensures var s1 := UndeclareDo(Apply(s, OnTouch(client, now)), o, Remove(k, client, h));
      UndeclareAt(s.core, s1, o, k, client, h, now, if h in TableOf(s.core, k) then 1 else 0)
  {
    if h !in TableOf(s.core, k) { assert TableOf(s.core, k) - {h} == TableOf(s.core, k); }
  }

  lemma {:induction false} UndeclareRuns(c: Core, s: Server, o: OpId, k: Kind, client: ClientId, h: Handle, now: Instant,
                                         left: nat, run: seq<Step>) returns (left': nat)
    requires UndeclareAt(c, s, o, k, client, h, now, left) && Legal(s, run) && Own(run, o)
    ensures |run| + left' <= left && UndeclareAt(c, After(s, run), o, k, client, h, now, left')
    decreases |run|
  {
    left' := left;
    if run != [] {
      assert run[0] == OnUndeclare(o, Retain);
      RetainMoves(c, s, o, k, client, h, now);
      left' := UndeclareRuns(c, Apply(s, run[0]), o, k, client, h, now, 0, run[1..]);
    }
  }

  /** An undeclare after its touch: whatever sections of it run with nobody else acting, it is
      over at once if the handle is unknown and after one more section otherwise, and then
      the state is that of the whole handler. */
  lemma UndeclareAlone(s: Server, o: OpId, k: Kind, client: ClientId, h: Handle, now: Instant, run: seq<Step>)
    requires o !in s.ops && Own(run, o)
    requires Legal(Apply(Apply(s, OnTouch(client, now)), OnUndeclare(o, Remove(k, client, h))), run)
    ensures var s' := After(Apply(Apply(s, OnTouch(client, now)), OnUndeclare(o, Remove(k, client, h))), run);
      && |run| <= 1 && o in s'.ops
      && (if s'.ops[o].Undeclared? then forall zenohOk :: s'.core == Handled(s.core, Undeclare(client, k, h, now, zenohOk)).0
          else UndeclareEnabled(s', o, Retain))
  {
    RemoveBegins(s, o, k, client, h, now);
    var s1 := Apply(Apply(s, OnTouch(client, now)), OnUndeclare(o, Remove(k, client, h)));
    var left := UndeclareRuns(s.core, s1, o, k, client, h, now, if h in TableOf(s.core, k) then 1 else 0, run);
    if left == 1 { RetainMoves(s.core, After(s1, run), o, k, client, h, now); }
  }

  /** A reply or finish after its touch, and the same as a single step. */
  lemma CommandAlone(s: Server, client: ClientId, h: Handle, q: QueryId, finish: bool, now: Instant, zenohOk: bool)
    ensures Apply(Apply(s, OnTouch(client, now)), OnQuery(client, h, q, finish)).core
      == Handled(s.core, if finish then FinishTo(client, h, q, now) else ReplyTo(client, h, q, now, zenohOk)).0
  {
  }

  /** The sections of a task between two waits. */
  predicate OneQuery(run: seq<Step>, h: Handle) {
    forall i :: 0 <= i < |run| ==> run[i] == OnTask(h, StoreQuery) || run[i] == OnTask(h, SendEvent)
  }

  /** Where the task of `h` stands with the query it took when the server was in state `s`. */
  ghost predicate QueryAt(s: Server, s': Server, h: Handle, left: nat) {
    && h in s.tasks && h in s.decls && h in s'.tasks && h in s'.decls && s'.decls[h] == s.decls[h]
    && var id := s.core.nextQueryId;
       match s'.tasks[h].pc
       case Allocated(x) =>
         left == 2 && x == id && s'.tasks[h].log == s.tasks[h].log && s'.core == s.core.(nextQueryId := id + 1)
       case Stored(x) =>
         left == 1 && x == id && s'.tasks[h].log == s.tasks[h].log
         && s'.core == Handled(s.core, QueryArrives(s.decls[h].client, h)).0
       case Waiting =>
         left == 0 && s'.tasks[h].log == s.tasks[h].log + [id]
         && s'.core == Handled(s.core, QueryArrives(s.decls[h].client, h)).0
       case Ended => false
  }

  lemma {:induction false} QueryRuns(s: Server, s1: Server, h: Handle, left: nat, run: seq<Step>) returns (left': nat)
    requires QueryAt(s, s1, h, left) && Legal(s1, run) && OneQuery(run, h)
    ensures |run| + left' <= left && QueryAt(s, After(s1, run), h, left')
    decreases |run|
  {
    left' := left;
    if run != [] {
      QueryMoves(s, s1, h, left, run[0]);
      left' := QueryRuns(s, Apply(s1, run[0]), h, left - 1, run[1..]);
    }
  }

  lemma QueryMoves(s: Server, s1: Server, h: Handle, left: nat, step: Step)
    requires QueryAt(s, s1, h, left) && Enabled(s1, step)
    requires step == OnTask(h, StoreQuery) || step == OnTask(h, SendEvent)
    ensures left > 0 && QueryAt(s, Apply(s1, step), h, left - 1)
  {
  }

  /** A background task that has taken a query: two more sections, after which the query is in
      flight for the queryable's client and handle, and announced. */
  lemma QueryAlone(s: Server, h: Handle, run: seq<Step>)
    requires TaskEnabled(s, h, AllocId) && OneQuery(run, h) && Legal(Apply(s, OnTask(h, AllocId)), run)
    ensures var s' := After(Apply(s, OnTask(h, AllocId)), run);
      && |run| <= 2 && h in s'.tasks
      && (if s'.tasks[h].pc.Waiting? then
            && s'.core == Handled(s.core, QueryArrives(s.decls[h].client, h)).0
            && s'.tasks[h] == Task(Waiting, s.tasks[h].log + [s.core.nextQueryId])
          else TaskEnabled(s', h, StoreQuery) || TaskEnabled(s', h, SendEvent))
  {
    var left := QueryRuns(s, Apply(s, OnTask(h, AllocId)), h, 2, run);
  }

  /** `c1` is `c` with the client forgotten and the first `n` tables rid of its entries, table
      `n` except for `todo`. */
  ghost predicate TablesCleaned(c: Core, c1: Core, client: ClientId, n: nat, scanned: bool, todo: set<Handle>) {
    && c1.nextHandle == c.nextHandle && c1.nextQueryId == c.nextQueryId
    && c1.live == c.live - {client} && c1.inflight == c.inflight
    && (scanned ==> n < 4 && todo <= OwnedBy(TableOf(c, KindAt(n)), client))
    && forall k: Kind :: TableOf(c1, k) ==
         if IndexOf(k) < n then TableOf(c, k) - OwnedBy(TableOf(c, k), client)
         else if IndexOf(k) == n && scanned then TableOf(c, k) - (OwnedBy(TableOf(c, k), client) - todo)
         else TableOf(c, k)
  }

  /** Where an undisturbed cleanup stands. */
  ghost predicate CleanupAt(c: Core, s: Server, o: OpId, client: ClientId) {
    o in s.ops &&
    match s.ops[o]
    case Cleaning(cl, n, scanned, todo, _) =>
      cl == client && n <= 4 && TablesCleaned(c, s.core, client, n, scanned, todo)
    case Cleaned(cl, _) => s.core == Handled(c, CleanupClient(client)).0
    case _ => false
  }

  lemma ScanMoves(c: Core, c1: Core, client: ClientId, n: nat)
    requires n < 4 && TablesCleaned(c, c1, client, n, false, {})
    ensures TablesCleaned(c, c1, client, n, true, OwnedBy(TableOf(c1, KindAt(n)), client))
  {
    var owned := OwnedBy(TableOf(c, KindAt(n)), client);
    assert IndexOf(KindAt(n)) == n;
    forall k: Kind | IndexOf(k) == n ensures k == KindAt(n) { }
    assert owned - owned == {};
    assert TableOf(c, KindAt(n)) - {} == TableOf(c, KindAt(n));
  }

  lemma RemoveMoves(c: Core, c1: Core, client: ClientId, n: nat, todo: set<Handle>, h: Handle)
    requires TablesCleaned(c, c1, client, n, true, todo) && h in todo
    ensures var t := TableOf(c1, KindAt(n));
      TablesCleaned(c, WithTable(c1, KindAt(n), t - {h}), client, n, true, todo - {h})
  {
    var t, owned := TableOf(c, KindAt(n)), OwnedBy(TableOf(c, KindAt(n)), client);
    assert IndexOf(KindAt(n)) == n;
    forall k: Kind | IndexOf(k) == n ensures k == KindAt(n) { }
    assert owned - todo + {h} == owned - (todo - {h});
    assert t - (owned - todo) - {h} == t - (owned - (todo - {h}));
  }

  lemma NextMoves(c: Core, c1: Core, client: ClientId, n: nat)
    requires TablesCleaned(c, c1, client, n, true, {})
    ensures TablesCleaned(c, c1, client, n + 1, false, {})
  {
    assert forall k: Kind :: OwnedBy(TableOf(c, k), client) - {} == OwnedBy(TableOf(c, k), client);
  }

  lemma AllCleaned(c: Core, c1: Core, client: ClientId)
    requires TablesCleaned(c, c1, client, 4, false, {})
    ensures c1.(inflight := NotOfOwner(c1.inflight, client)) == Handled(c, CleanupClient(client)).0
  {
    assert TableOf(c1, Publisher) == c1.publishers && TableOf(c1, Subscriber) == c1.subscribers;
    assert TableOf(c1, Queryable) == c1.queryables && TableOf(c1, Querier) == c1.queriers;
  }

  lemma CleanupMoves(c: Core, s: Server, o: OpId, client: ClientId, step: Step)
    requires CleanupAt(c, s, o, client) && Enabled(s, step) && Actor(step) == Some(o)
    ensures CleanupAt(c, Apply(s, step), o, client)
  {
    assert step.OnCleanup? && s.ops[o].Cleaning?;
    var n, todo := s.ops[o].table, s.ops[o].todo;
    match step.c
    case Scan =>
      assert TablesCleaned(c, s.core, client, n, false, {});
      ScanMoves(c, s.core, client, n);
    case RemoveOne(h) => RemoveMoves(c, s.core, client, n, todo, h);
    case NextTable =>
      NextMoves(c, s.core, client, n);
      assert TablesCleaned(c, s.core, client, n + 1, false, todo);
    case RetainOthers =>
      assert TablesCleaned(c, s.core, client, 4, false, {});
      AllCleaned(c, s.core, client);
  }

  lemma {:induction false} CleanupRuns(c: Core, s: Server, o: OpId, client: ClientId, run: seq<Step>)
    requires CleanupAt(c, s, o, client) && Legal(s, run) && Own(run, o)
    ensures CleanupAt(c, After(s, run), o, client)
    decreases |run|
  {
    if run != [] {
      CleanupMoves(c, s, o, client, run[0]);
      CleanupRuns(c, Apply(s, run[0]), o, client, run[1..]);
    }
  }

  /** Whatever sections of a cleanup run after its begin, in whatever order it takes the
      handles of a table, with nobody else acting: unless it is over another section is
      possible, and when it is over, exactly what is the client's is gone. */
  lemma CleanupAlone(s: Server, o: OpId, client: ClientId, run: seq<Step>)
    requires o !in s.ops && Own(run, o) && Legal(Apply(s, OnCleanup(o, BeginClean(client))), run)
    ensures var s' := After(Apply(s, OnCleanup(o, BeginClean(client))), run);
      && o in s'.ops
      && (if s'.ops[o].Cleaned? then s'.core == Handled(s.core, CleanupClient(client)).0
          else exists c :: CleanEnabled(s', o, c))
  {
    var s1 := Apply(s, OnCleanup(o, BeginClean(client)));
    CleanupRuns(s.core, s1, o, client, run);
    var s' := After(s1, run);
    if s'.ops[o].Cleaning? { CleanupGoesOn(s', o); }
  }

  lemma CleanupGoesOn(s: Server, o: OpId)
    requires o in s.ops && s.ops[o].Cleaning? && s.ops[o].table <= 4 && (s.ops[o].scanned ==> s.ops[o].table < 4)
    ensures exists c :: CleanEnabled(s, o, c)
  {
    var op := s.ops[o];
    var h: Handle :| op.todo != {} ==> h in op.todo;
    var c := if op.table == 4 then RetainOthers else if !op.scanned then Scan
             else if op.todo == {} then NextTable else RemoveOne(h);
    assert CleanEnabled(s, o, c);
  }
}
