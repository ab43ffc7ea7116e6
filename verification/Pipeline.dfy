/** One drop-oldest queue with any number of producer threads and the single task
    that drains it, as a step system: every channel operation and every atomic
    update is a step of its own, so a push can be half done while the others run.
    The drain is a send worker (session, publisher or queryable) or an application
    that receives; the network is a free choice of status code at every attempt. */
module Pipeline {
  import opened Base
  import opened DropOldest

  type Tid = nat

  datatype Role = SessionWorker | PublisherWorker | QueryableWorker | AppReceiver

  datatype Verb = Put | Delete | Reply | ReplyErr | ReplyDelete | Finish
  datatype Command = Command(verb: Verb, identity: QueryIdentity, args: string)

  /** Where a thread stands inside `push`. */
  datatype PushPc =
    | Ready
    | Trying(item: Command)    // about to try_send
    | Sent                     // sent, `pending` not yet incremented
    | SawFull(item: Command)   // about to try_recv on its own drop_rx
    | Popped(item: Command)    // popped the oldest, nothing counted yet
    | Counted(item: Command)   // `dropped` incremented, `pending` not yet decremented
    | Failed(item: Command)    // returned the item as an error

  /** `fulls` and `others` are history: the Full answers seen by the current push and
      the sends that other threads completed during it. */
  datatype Producer = Producer(pc: PushPc, fulls: nat, others: nat)

  /** What became of an accepted command that has left the queue. */
  datatype Fate = Overflow | InHand | Delivered | Refused(code: Code) | StaleQuery | ClosedEarly

  /** The flume channel: its contents, the live endpoints, and as history everything it
      accepted and what became of the commands that left it. */
  datatype Channel = Channel(
    capacity: nat, queue: seq<Command>, txs: nat, rxs: nat,
    accepted: seq<Command>, fates: seq<Fate>)

  /** Where the worker stands; all but `Idle` have a dequeued command in hand. */
  datatype WorkerPc =
    | Idle | StaleCheck | ClosedCheck | AwaitConn | ReadConn
    | EnsureHandle | DeclareSent | Attempt | Waiting
    | Settling   // fate decided, `processed_one` still to come

  /** `hand` is the position, in acceptance order, of the command in hand. */
  datatype Worker = Worker(
    pc: WorkerPc, hand: nat,
    bound: bool,                 // publisher: a remote handle is bound
    stale: set<QueryIdentity>)   // queryable: identities the server no longer knows

  /** History of the attempts: positions of the commands that took effect, in order,
      disconnect-class answers, the attempts and declares started, and those of them
      started after the close. */
  datatype Effects = Effects(
    applied: seq<nat>, disconnects: nat, sends: nat, declares: nat, lateSends: nat, lateDeclares: nat)

  datatype State = State(
    role: Role, ch: Channel, pending: nat, dropped: nat,
    producers: map<Tid, Producer>,
    wk: Worker, receiving: bool,   // the drain still holds its receiver
    closed: bool, sawEnd: bool, fx: Effects)

  datatype PushOp = CloneTo(u: Tid) | DropSender | Begin(item: Command)
    | TrySend | AddPending | TryPop | CountDrop | SubPending

  datatype WorkOp = Recv | RecvEnd | CheckStale | CheckClosed | CheckClosedAgain
    | LookupConn(connected: bool) | UseHandle | DeclareReply(code: Code)
    | Send | Answer(code: Code, took: bool) | Processed

  datatype Step = Push(t: Tid, push: PushOp) | Work(work: WorkOp) | Close | Unbind | DropReceiver

  predicate Init(s: State) {
    && 1 <= s.ch.capacity < U64
    && s.ch == Channel(s.ch.capacity, [], 1, 2, [], [])
    && s.pending == 0 && s.dropped == 0
    && s.producers == map[0 := Producer(Ready, 0, 0)]
    && s.wk.pc == Idle && !s.wk.bound && s.wk.stale == {}
    && s.receiving && !s.closed && !s.sawEnd
    && s.fx == Effects([], 0, 0, 0, 0, 0)
  }

  predicate PushEnabled(s: State, t: Tid, op: PushOp) {
    t in s.producers &&
    match op
    case CloneTo(u) => u !in s.producers
    case DropSender => s.producers[t].pc.Ready?
    case Begin(_) => s.producers[t].pc.Ready?
    case TrySend => s.producers[t].pc.Trying?
    case AddPending => s.producers[t].pc.Sent?
    case TryPop => s.producers[t].pc.SawFull?
    case CountDrop => s.producers[t].pc.Popped?
    case SubPending => s.producers[t].pc.Counted?
  }

  predicate WorkEnabled(s: State, op: WorkOp) {
    match op
    case Recv => s.receiving && s.wk.pc.Idle? && s.ch.queue != []
    case RecvEnd => s.receiving && s.role.AppReceiver? && s.ch.queue == [] && s.ch.txs == 0
    case CheckStale => s.wk.pc.StaleCheck?
    case CheckClosed => s.wk.pc.ClosedCheck?
    case CheckClosedAgain => s.wk.pc.AwaitConn?
    case LookupConn(_) => s.wk.pc.ReadConn?
    case UseHandle => s.wk.pc.EnsureHandle?
    case DeclareReply(_) => s.wk.pc.DeclareSent?
    case Send => s.wk.pc.Attempt?
    case Answer(code, took) => s.wk.pc.Waiting? && (code.Ok? ==> took) && (IsStale(code) ==> !took)
    case Processed => s.wk.pc.Settling?
  }

  predicate Enabled(s: State, step: Step) {
    match step
    case Push(t, op) => PushEnabled(s, t, op)
    case Work(op) => WorkEnabled(s, op)
    case Close => true
    case Unbind => true
    case DropReceiver => s.receiving && s.wk.pc.Idle?
  }

  function Accept(ch: Channel, item: Command): Channel {
    ch.(queue := ch.queue + [item], accepted := ch.accepted + [item])
  }

  function Take(ch: Channel, fate: Fate): Channel
    requires ch.queue != []
  {
    ch.(queue := ch.queue[1..], fates := ch.fates + [fate])
  }

  function One(b: bool): nat { if b then 1 else 0 }

  /** The two actions of a push that move an item: the send that finds room, and the pop
      that makes room. */
  predicate Sends(ch: Channel, op: PushOp) { op.TrySend? && ch.rxs > 0 && |ch.queue| < ch.capacity }
  predicate Drops(ch: Channel, op: PushOp) { op.TryPop? && ch.queue != [] }

  function PushChannel(ch: Channel, pc: PushPc, op: PushOp): Channel
    requires op.TrySend? ==> pc.Trying?
  {
    if Sends(ch, op) then Accept(ch, pc.item)
    else if Drops(ch, op) then Take(ch, Overflow)
    else if op.CloneTo? then ch.(txs := ch.txs + 1, rxs := ch.rxs + 1)
    else if op.DropSender? then
      ch.(txs := if ch.txs == 0 then 0 else ch.txs - 1, rxs := if ch.rxs == 0 then 0 else ch.rxs - 1)
    else ch
  }

  function NextPush(ch: Channel, p: Producer, op: PushOp): Producer
    requires op.TrySend? ==> p.pc.Trying?
    requires op.TryPop? ==> p.pc.SawFull?
    requires op.CountDrop? ==> p.pc.Popped?
    requires op.SubPending? ==> p.pc.Counted?
  {
    match op
    case Begin(item) => Producer(Trying(item), 0, 0)
    case TrySend =>
      if ch.rxs == 0 then p.(pc := Failed(p.pc.item))
      else if |ch.queue| < ch.capacity then p.(pc := Sent)
      else p.(pc := SawFull(p.pc.item), fulls := p.fulls + 1)
    case AddPending => p.(pc := Ready)
    case TryPop =>
      if ch.queue != [] then p.(pc := Popped(p.pc.item))
      else if ch.txs == 0 then p.(pc := Failed(p.pc.item))
      else p.(pc := Trying(p.pc.item))
    case CountDrop => p.(pc := Counted(p.pc.item))
    case SubPending => p.(pc := Trying(p.pc.item))
    case _ => p
  }

  /** Every other thread notes one more successful send. */
  function Noted(m: map<Tid, Producer>, t: Tid): map<Tid, Producer> {
    map u | u in m :: if u == t then m[u] else m[u].(others := m[u].others + 1)
  }

  function NextProducers(s: State, t: Tid, op: PushOp): map<Tid, Producer>
    requires PushEnabled(s, t, op)
  {
    var m := s.producers;
    if op.CloneTo? then m[op.u := Producer(Ready, 0, 0)]
    else if op.DropSender? then m - {t}
    else
      var m' := m[t := NextPush(s.ch, m[t], op)];
      if Sends(s.ch, op) then Noted(m', t) else m'
  }

  /** What an action adds to `pending`. */
  function PushDelta(op: PushOp): int {
    if op.AddPending? then 1 else if op.SubPending? then -1 else 0
  }

  function PushStep(s: State, t: Tid, op: PushOp): State
    requires PushEnabled(s, t, op)
  {
    s.(ch := PushChannel(s.ch, s.producers[t].pc, op), producers := NextProducers(s, t, op),
       pending := if PushDelta(op) == 0 then s.pending else (s.pending + PushDelta(op)) % U64,
       dropped := if op.CountDrop? then (s.dropped + 1) % U64 else s.dropped)
  }

  function InHandIdentity(s: State): QueryIdentity {
    if s.wk.hand < |s.ch.accepted| then s.ch.accepted[s.wk.hand].identity else QueryIdentity(0, 0)
  }

  /** How each kind of worker judges the status of its attempt; None is another turn. */
  function Judgement(role: Role, code: Code): Option<Fate> {
    if code.Ok? then Some(Delivered)
    else if IsDisconnect(code) then None
    else if IsStale(code) && role.PublisherWorker? then None
    else if IsStale(code) && role.QueryableWorker? then Some(StaleQuery)
    else Some(Refused(code))
  }

  /** The fate that a step decides for the command in hand, if it decides one. */
  function Verdict(s: State, op: WorkOp): Option<Fate> {
    match op
    case CheckStale => if InHandIdentity(s) in s.wk.stale then Some(StaleQuery) else None
    case CheckClosed => if s.closed then Some(ClosedEarly) else None
    case CheckClosedAgain => if s.closed then Some(ClosedEarly) else None
    case DeclareReply(code) => if code.Ok? || IsDisconnect(code) then None else Some(Refused(code))
    case Answer(code, _) => Judgement(s.role, code)
    case _ => None
  }

  function NextPc(s: State, op: WorkOp): WorkerPc {
    if Verdict(s, op).Some? then Settling
    else
      match op
      case Recv =>
        if s.role.AppReceiver? then Idle else if s.role.QueryableWorker? then StaleCheck else ClosedCheck
      case RecvEnd => s.wk.pc
      case CheckStale => ClosedCheck
      case CheckClosed => AwaitConn
      case CheckClosedAgain => ReadConn
      case LookupConn(connected) =>
        if !connected then AwaitConn else if s.role.PublisherWorker? then EnsureHandle else Attempt
      case UseHandle => if s.wk.bound then Attempt else DeclareSent
      case DeclareReply(code) => if code.Ok? then Attempt else ClosedCheck
      case Send => Waiting
      case Answer(_, _) => ClosedCheck
      case Processed => Idle
  }

  function NextWorker(s: State, op: WorkOp): Worker {
    Worker(
      NextPc(s, op),
      if op.Recv? && !s.role.AppReceiver? then |s.ch.fates| else s.wk.hand,
      if op.DeclareReply? && op.code.Ok? then true
      else s.wk.bound && !(op.Answer? && IsStale(op.code) && s.role.PublisherWorker?),
      if op.Answer? && IsStale(op.code) && s.role.QueryableWorker? then s.wk.stale + {InHandIdentity(s)} else s.wk.stale)
  }

  function NextChannel(s: State, op: WorkOp): Channel
    requires WorkEnabled(s, op)
  {
    if op.Recv? then Take(s.ch, if s.role.AppReceiver? then Delivered else InHand)
    else Judged(s.ch, s.wk.hand, Verdict(s, op))
  }

  function Judged(ch: Channel, hand: nat, fate: Option<Fate>): Channel {
    if fate.Some? && hand < |ch.fates| then ch.(fates := ch.fates[hand := fate.value]) else ch
  }

  function NextEffects(s: State, op: WorkOp): Effects {
    match op
    case Recv => if s.role.AppReceiver? then s.fx.(applied := s.fx.applied + [|s.ch.fates|]) else s.fx
    case UseHandle =>
      if s.wk.bound then s.fx
      else s.fx.(declares := s.fx.declares + 1, lateDeclares := s.fx.lateDeclares + One(s.closed))
    case Send => s.fx.(sends := s.fx.sends + 1, lateSends := s.fx.lateSends + One(s.closed))
    case Answer(code, took) =>
      s.fx.(applied := if took then s.fx.applied + [s.wk.hand] else s.fx.applied,
            disconnects := s.fx.disconnects + One(IsDisconnect(code)))
    case _ => s.fx
  }

  function WorkStep(s: State, op: WorkOp): State
    requires WorkEnabled(s, op)
  {
    s.(ch := NextChannel(s, op), wk := NextWorker(s, op), fx := NextEffects(s, op),
       pending := if op.Processed? then (s.pending - 1) % U64 else s.pending,
       sawEnd := s.sawEnd || op.RecvEnd?)
  }

  function Apply(s: State, step: Step): State
    requires Enabled(s, step)
  {
    match step
    case Push(t, op) => PushStep(s, t, op)
    case Work(op) => WorkStep(s, op)
    case Close => s.(closed := true)
    case Unbind => s.(wk := s.wk.(bound := false))
    case DropReceiver =>
      s.(receiving := false, ch := s.ch.(rxs := if s.ch.rxs == 0 then 0 else s.ch.rxs - 1))
  }

  // ---------- what every step keeps ----------

  /** The queue is the newest, contiguous part of everything accepted. */
  ghost predicate Fifo(ch: Channel) {
    && 1 <= ch.capacity < U64
    && |ch.queue| <= ch.capacity
    && |ch.fates| + |ch.queue| == |ch.accepted|
    && ch.accepted[|ch.fates|..] == ch.queue
  }

  lemma FifoAccept(ch: Channel, item: Command)
    requires Fifo(ch) && |ch.queue| < ch.capacity
    ensures Fifo(Accept(ch, item))
  {
    assert (ch.accepted + [item])[|ch.fates|..] == ch.accepted[|ch.fates|..] + [item];
  }

  lemma FifoTake(ch: Channel, fate: Fate)
    requires Fifo(ch) && ch.queue != []
    ensures Fifo(Take(ch, fate))
  {
    assert ch.accepted[|ch.fates|..][1..] == ch.accepted[|ch.fates| + 1..];
  }

  lemma FifoPush(s: State, t: Tid, op: PushOp)
    requires Fifo(s.ch) && PushEnabled(s, t, op)
    ensures Fifo(PushStep(s, t, op).ch)
  {
    if op.TrySend? && |s.ch.queue| < s.ch.capacity { FifoAccept(s.ch, s.producers[t].pc.item); }
    if op.TryPop? && s.ch.queue != [] { FifoTake(s.ch, Overflow); }
  }

  lemma FifoWork(s: State, op: WorkOp)
    requires Fifo(s.ch) && WorkEnabled(s, op)
    ensures Fifo(WorkStep(s, op).ch)
  {
    if op.Recv? { FifoTake(s.ch, if s.role.AppReceiver? then Delivered else InHand); }
  }

  predicate Holding(s: State) {
    !s.wk.pc.Idle? && !s.wk.pc.Settling?
  }

  /** Exactly the command in hand is marked as such. */
  ghost predicate OneHand(s: State) {
    && (s.role.AppReceiver? ==> s.wk.pc.Idle?)
    && (!s.wk.pc.Idle? ==> s.wk.hand < |s.ch.fates|)
    && (Holding(s) ==> s.ch.fates[s.wk.hand] == InHand)
    && (forall i :: 0 <= i < |s.ch.fates| && s.ch.fates[i] == InHand ==> Holding(s) && i == s.wk.hand)
  }

  lemma OneHandPush(s: State, t: Tid, op: PushOp)
    requires OneHand(s) && PushEnabled(s, t, op)
    ensures OneHand(PushStep(s, t, op))
  {
  }

  lemma OneHandWork(s: State, op: WorkOp)
    requires OneHand(s) && WorkEnabled(s, op)
    ensures OneHand(WorkStep(s, op))
  {
    var s' := WorkStep(s, op);
    assert s'.ch.fates == s.ch.fates || op.Recv? || s'.ch.fates == s.ch.fates[s.wk.hand := Verdict(s, op).value];
  }

  /** Effects happen in acceptance order, never on a dropped command, and at least once
      on every command settled as delivered. */
  ghost predicate Ordered(s: State) {
    && NonDecreasing(s.fx.applied)
    && (forall x :: x in s.fx.applied ==> x < |s.ch.fates| && s.ch.fates[x] != Overflow)
    && (!s.wk.pc.Idle? ==> forall x :: x in s.fx.applied ==> x <= s.wk.hand)
    && (forall i :: 0 <= i < |s.ch.fates| && s.ch.fates[i] == Delivered ==> i in s.fx.applied)
  }

  lemma OrderedPush(s: State, t: Tid, op: PushOp)
    requires OneHand(s) && Ordered(s) && PushEnabled(s, t, op)
    ensures Ordered(PushStep(s, t, op))
  {
  }

  lemma AppliedSoFar(s: State, x: nat)
    requires NonDecreasing(s.fx.applied) && forall y :: y in s.fx.applied ==> y <= x
    ensures NonDecreasing(s.fx.applied + [x])
    ensures forall y :: y in s.fx.applied + [x] <==> y in s.fx.applied || y == x
  {
    var a := s.fx.applied + [x];
    assert forall i :: 0 <= i < |s.fx.applied| ==> a[i] in s.fx.applied;
  }

  lemma OrderedWork(s: State, op: WorkOp)
    requires OneHand(s) && Ordered(s) && WorkEnabled(s, op)
    ensures Ordered(WorkStep(s, op))
  {
    if op.Recv? {
      OrderedRecv(s);
    } else if op.Answer? {
      OrderedAnswer(s, op.code, op.took);
    }
  }

  lemma OrderedRecv(s: State)
    requires OneHand(s) && Ordered(s) && WorkEnabled(s, Recv)
    ensures Ordered(WorkStep(s, Recv))
  {
    AppliedSoFar(s, |s.ch.fates|);
  }

  lemma OrderedAnswer(s: State, code: Code, took: bool)
    requires OneHand(s) && Ordered(s) && WorkEnabled(s, Answer(code, took))
    ensures Ordered(WorkStep(s, Answer(code, took)))
  {
    AppliedSoFar(s, s.wk.hand);
  }

  predicate AppliedInHand(s: State) {
    Holding(s) && s.fx.applied != [] && s.fx.applied[|s.fx.applied| - 1] == s.wk.hand
  }

  /** Repeated effects are paid for by disconnects. */
  ghost predicate Repeats(s: State) {
    |s.fx.applied| - |Merged(s.fx.applied)| + (if AppliedInHand(s) then 1 else 0) <= s.fx.disconnects
  }

  lemma RepeatsRecv(s: State)
    requires OneHand(s) && Ordered(s) && Repeats(s) && WorkEnabled(s, Recv)
    ensures Repeats(WorkStep(s, Recv))
  {
    if s.role.AppReceiver? { MergedAppend(s.fx.applied, |s.ch.fates|); }
    assert s.fx.applied != [] ==> s.fx.applied[|s.fx.applied| - 1] in s.fx.applied;
  }

  lemma RepeatsAnswer(s: State, code: Code, took: bool)
    requires Repeats(s) && WorkEnabled(s, Answer(code, took))
    ensures Repeats(WorkStep(s, Answer(code, took)))
  {
    MergedAppend(s.fx.applied, s.wk.hand);
    assert IsStale(code) ==> !took;
  }

  lemma RepeatsWork(s: State, op: WorkOp)
    requires OneHand(s) && Ordered(s) && Repeats(s) && WorkEnabled(s, op)
    ensures Repeats(WorkStep(s, op))
  {
    match op
    case Recv => RepeatsRecv(s);
    case Answer(code, took) => RepeatsAnswer(s, code, took);
    case _ => assert WorkStep(s, op).fx.applied == s.fx.applied;
  }

  /** A command is lost for one of three reasons, and each is on record: the close, an
      identity known to be stale, or a status that the worker does not retry. */
  ghost predicate Reasons(s: State) {
    forall i :: 0 <= i < |s.ch.fates| && i < |s.ch.accepted| ==>
      match s.ch.fates[i]
      case ClosedEarly => s.closed
      case StaleQuery => s.role.QueryableWorker? && s.ch.accepted[i].identity in s.wk.stale
      case Refused(code) => !code.Ok? && !IsDisconnect(code)
      case _ => true
  }

  lemma ReasonsWork(s: State, op: WorkOp)
    requires OneHand(s) && Reasons(s) && WorkEnabled(s, op)
    requires s.wk.pc.StaleCheck? ==> s.role.QueryableWorker?
    ensures Reasons(WorkStep(s, op))
  {
  }

  lemma ReasonsPush(s: State, t: Tid, op: PushOp)
    requires Fifo(s.ch) && Reasons(s) && PushEnabled(s, t, op)
    ensures Reasons(PushStep(s, t, op))
  {
  }

  /** What left the queue of an application was received or dropped. */
  ghost predicate Accounts(s: State) {
    && s.fx.disconnects == 0
    && |s.fx.applied| == CountFate(s.ch.fates, Delivered)
    && |s.ch.fates| == CountFate(s.ch.fates, Delivered) + CountFate(s.ch.fates, Overflow)
  }

  /** Only the queryable worker starts with a stale check. */
  ghost predicate Roles(s: State) {
    (s.wk.pc.StaleCheck? ==> s.role.QueryableWorker?) && (s.role.AppReceiver? ==> Accounts(s))
  }

  lemma RolesPush(s: State, t: Tid, op: PushOp)
    requires Roles(s) && PushEnabled(s, t, op)
    ensures Roles(PushStep(s, t, op))
  {
    CountAppend(s.ch.fates, Overflow, Overflow);
    CountAppend(s.ch.fates, Overflow, Delivered);
    PushFates(s, t, op);
  }

  /** A push leaves worker and history alone; it may drop the oldest command. */
  lemma PushFates(s: State, t: Tid, op: PushOp)
    requires PushEnabled(s, t, op)
    ensures var s' := PushStep(s, t, op);
      && s'.role == s.role && s'.wk == s.wk && s'.fx == s.fx && s'.receiving == s.receiving && s'.closed == s.closed
      && (s'.ch.fates == s.ch.fates || s'.ch.fates == s.ch.fates + [Overflow])
  {
  }

  lemma RolesWork(s: State, op: WorkOp)
    requires Roles(s) && OneHand(s) && WorkEnabled(s, op)
    ensures Roles(WorkStep(s, op))
  {
    if s.role.AppReceiver? {
      AccountsWork(s, op);
    } else {
      assert WorkStep(s, op).role == s.role;
    }
  }

  lemma AccountsWork(s: State, op: WorkOp)
    requires s.role.AppReceiver? && Accounts(s) && s.wk.pc.Idle? && WorkEnabled(s, op)
    ensures Accounts(WorkStep(s, op)) && WorkStep(s, op).wk == s.wk && WorkStep(s, op).role == s.role
  {
    CountAppend(s.ch.fates, Delivered, Overflow);
    CountAppend(s.ch.fates, Delivered, Delivered);
    assert op.Recv? || op.RecvEnd?;
  }

  /** Every live sender holds one end of each kind; the drain may hold a receiving end. */
  ghost predicate Endpoints(s: State) {
    s.ch.txs == |s.producers| && s.ch.rxs == |s.producers| + One(s.receiving)
  }

  lemma EndpointsPush(s: State, t: Tid, op: PushOp)
    requires Endpoints(s) && PushEnabled(s, t, op)
    ensures Endpoints(PushStep(s, t, op))
  {
    var s' := PushStep(s, t, op);
    assert t in s.producers.Keys;
    if op.CloneTo? {
      assert s'.producers.Keys == s.producers.Keys + {op.u};
    } else if op.DropSender? {
      assert s'.producers.Keys == s.producers.Keys - {t};
    } else {
      assert s'.producers.Keys == s.producers.Keys;
    }
  }

  /** A push sees Full at most once more than the sends others completed during it,
      and never gives its item back. */
  predicate Progressing(ch: Channel, p: Producer) {
    match p.pc
    case Ready => true
    case Failed(_) => false
    case Sent => p.fulls <= p.others + 1
    case SawFull(_) => p.fulls <= p.others + 1
    case _ => p.fulls <= p.others + if |ch.queue| < ch.capacity then 1 else 0
  }

  ghost predicate Progress(s: State) {
    forall t :: t in s.producers ==> Progressing(s.ch, s.producers[t])
  }

  lemma ProgressPush(s: State, t: Tid, op: PushOp)
    requires Fifo(s.ch) && Endpoints(s) && Progress(s) && PushEnabled(s, t, op)
    ensures Progress(PushStep(s, t, op))
  {
    assert t in s.producers.Keys;
    assert Progressing(s.ch, s.producers[t]);
  }

  lemma ProgressWork(s: State, op: WorkOp)
    requires Fifo(s.ch) && Progress(s) && WorkEnabled(s, op)
    ensures Progress(WorkStep(s, op))
  {
  }

  predicate PastCheck(pc: WorkerPc) {
    pc.ReadConn? || pc.EnsureHandle? || pc.DeclareSent? || pc.Attempt?
  }

  /** After the close at most the attempt already past its closed check is started. */
  ghost predicate Late(s: State) {
    && s.fx.lateSends + (if PastCheck(s.wk.pc) then 1 else 0) <= 1
    && s.fx.lateDeclares + (if s.wk.pc.ReadConn? || s.wk.pc.EnsureHandle? then 1 else 0) <= 1
    && (!s.closed ==> s.fx.lateSends == 0 && s.fx.lateDeclares == 0)
  }

  lemma LateWork(s: State, op: WorkOp)
    requires Late(s) && OneHand(s) && WorkEnabled(s, op)
    ensures Late(WorkStep(s, op))
  {
  }

  lemma LateStep(s: State, step: Step)
    requires Late(s) && OneHand(s) && Enabled(s, step)
    ensures Late(Apply(s, step))
  {
    if step.Work? { LateWork(s, step.work); }
  }

  ghost predicate Ended(s: State) {
    s.sawEnd ==> s.role.AppReceiver? && s.ch.queue == [] && s.ch.txs == 0
  }

  lemma EndedPush(s: State, t: Tid, op: PushOp)
    requires Ended(s) && Endpoints(s) && PushEnabled(s, t, op)
    ensures Ended(PushStep(s, t, op))
  {
    assert t in s.producers.Keys;
  }

  lemma EndedWork(s: State, op: WorkOp)
    requires Ended(s) && Endpoints(s) && WorkEnabled(s, op)
    ensures Ended(WorkStep(s, op)) && Endpoints(WorkStep(s, op))
  {
  }

  // ---------- the counters ----------

  predicate SentAt(m: map<Tid, Producer>, t: Tid) { t in m && m[t].pc.Sent? }
  predicate PoppedAt(m: map<Tid, Producer>, t: Tid) { t in m && (m[t].pc.Popped? || m[t].pc.Counted?) }
  predicate UncountedAt(m: map<Tid, Producer>, t: Tid) { t in m && m[t].pc.Popped? }

  /** The threads whose push is half done, by what is still missing. */
  ghost function Sents(m: map<Tid, Producer>): set<Tid> { set t | t in m && SentAt(m, t) }
  ghost function Pops(m: map<Tid, Producer>): set<Tid> { set t | t in m && PoppedAt(m, t) }
  ghost function Uncounted(m: map<Tid, Producer>): set<Tid> { set t | t in m && UncountedAt(m, t) }

  ghost predicate SameElsewhere(m: map<Tid, Producer>, m': map<Tid, Producer>, t: Tid) {
    forall u :: u != t ==> (u in m <==> u in m') && (u in m ==> m[u].pc == m'[u].pc)
  }

  lemma CardinalityAt(a: set<Tid>, b: set<Tid>, t: Tid)
    requires forall u :: u != t ==> (u in a <==> u in b)
    ensures |b| == |a| - One(t in a) + One(t in b)
  {
    assert a - {t} == b - {t};
    assert |a - {t}| == |a| - One(t in a);
    assert |b - {t}| == |b| - One(t in b);
  }

  /** A thread that moves changes the counts of half-done pushes by its own share only. */
  lemma Recount(m: map<Tid, Producer>, m': map<Tid, Producer>, t: Tid)
    requires SameElsewhere(m, m', t)
    ensures |Sents(m')| == |Sents(m)| - One(SentAt(m, t)) + One(SentAt(m', t))
    ensures |Pops(m')| == |Pops(m)| - One(PoppedAt(m, t)) + One(PoppedAt(m', t))
    ensures |Uncounted(m')| == |Uncounted(m)| - One(UncountedAt(m, t)) + One(UncountedAt(m', t))
  {
    CardinalityAt(Sents(m), Sents(m'), t);
    CardinalityAt(Pops(m), Pops(m'), t);
    CardinalityAt(Uncounted(m), Uncounted(m'), t);
  }

  function Mover(t: Tid, op: PushOp): Tid { if op.CloneTo? then op.u else t }

  lemma PushMovesOne(s: State, t: Tid, op: PushOp)
    requires PushEnabled(s, t, op)
    ensures SameElsewhere(s.producers, PushStep(s, t, op).producers, Mover(t, op))
  {
  }

  /** The share of the thread that moves, before and after, in each count. */
  lemma PushShares(s: State, t: Tid, op: PushOp)
    requires PushEnabled(s, t, op)
    ensures var s', u := PushStep(s, t, op), Mover(t, op);
      && |s'.ch.queue| - |s.ch.queue|
         == One(SentAt(s'.producers, u)) - One(SentAt(s.producers, u))
            - One(PoppedAt(s'.producers, u)) + One(PoppedAt(s.producers, u)) + PushDelta(op)
      && CountFate(s'.ch.fates, Overflow) - CountFate(s.ch.fates, Overflow)
         == One(UncountedAt(s'.producers, u)) - One(UncountedAt(s.producers, u)) + One(op.CountDrop?)
  {
    CountAppend(s.ch.fates, Overflow, Overflow);
  }

  /** What `pending` would be if every step were instantaneous: queued, in hand, and
      popped but not yet subtracted, minus sent but not yet added. A queue drained by an
      application has no `processed_one`, so what was received stays in the count. */
  ghost function Outstanding(s: State): int {
    |s.ch.queue| + One(!s.wk.pc.Idle?) + |Pops(s.producers)| - |Sents(s.producers)|
    + (if s.role.AppReceiver? then |s.fx.applied| else 0)
  }

  ghost predicate PendingExact(s: State) {
    s.pending == Outstanding(s) % U64
  }

  lemma OutstandingPush(s: State, t: Tid, op: PushOp)
    requires PushEnabled(s, t, op)
    ensures Outstanding(PushStep(s, t, op)) == Outstanding(s) + PushDelta(op)
  {
    PushMovesOne(s, t, op);
    PushShares(s, t, op);
    Recount(s.producers, PushStep(s, t, op).producers, Mover(t, op));
  }

  lemma WrapMove(x: int, d: int)
    ensures (x % U64 + d) % U64 == (x + d) % U64
  {
    var k := x / U64;
    assert x == k * U64 + x % U64;
    assert x % U64 + d == (x + d) + (-k) * U64;
    WrapTurns(x + d, -k);
  }

  lemma WrapTurns(x: int, k: int)
    ensures (x + k * U64) % U64 == x % U64
  {
  }

  lemma PendingPush(s: State, t: Tid, op: PushOp)
    requires PendingExact(s) && PushEnabled(s, t, op)
    ensures PendingExact(PushStep(s, t, op))
  {
    OutstandingPush(s, t, op);
    WrapMove(Outstanding(s), PushDelta(op));
    assert PushStep(s, t, op).pending == (s.pending + PushDelta(op)) % U64;
  }

  lemma OutstandingWork(s: State, op: WorkOp)
    requires OneHand(s) && WorkEnabled(s, op)
    ensures Outstanding(WorkStep(s, op)) == Outstanding(s) - One(op.Processed?)
  {
    assert WorkStep(s, op).producers == s.producers;
  }

  lemma PendingWork(s: State, op: WorkOp)
    requires OneHand(s) && PendingExact(s) && WorkEnabled(s, op)
    ensures PendingExact(WorkStep(s, op))
  {
    OutstandingWork(s, op);
    WrapMove(Outstanding(s), -1);
    assert WorkStep(s, op).pending == if op.Processed? then (s.pending - 1) % U64 else s.pending;
  }

  function CountFate(fates: seq<Fate>, f: Fate): nat {
    if fates == [] then 0
    else CountFate(fates[..|fates| - 1], f) + One(fates[|fates| - 1] == f)
  }

  lemma CountAppend(fates: seq<Fate>, x: Fate, f: Fate)
    ensures CountFate(fates + [x], f) == CountFate(fates, f) + One(x == f)
  {
    assert (fates + [x])[..|fates|] == fates;
  }

  lemma {:induction false} CountUpdate(fates: seq<Fate>, i: nat, x: Fate, f: Fate)
    requires i < |fates|
    ensures CountFate(fates[i := x], f) == CountFate(fates, f) - One(fates[i] == f) + One(x == f)
  {
    var n := |fates| - 1;
    if i < n {
      CountUpdate(fates[..n], i, x, f);
      assert fates[i := x][..n] == fates[..n][i := x];
    } else {
      assert fates[i := x][..n] == fates[..n];
    }
  }

  ghost predicate DroppedExact(s: State) {
    s.dropped == (CountFate(s.ch.fates, Overflow) - |Uncounted(s.producers)|) % U64
  }

  lemma DroppedPush(s: State, t: Tid, op: PushOp)
    requires DroppedExact(s) && PushEnabled(s, t, op)
    ensures DroppedExact(PushStep(s, t, op))
  {
    var s' := PushStep(s, t, op);
    PushMovesOne(s, t, op);
    PushShares(s, t, op);
    Recount(s.producers, s'.producers, Mover(t, op));
    assert s'.dropped == if op.CountDrop? then (s.dropped + 1) % U64 else s.dropped;
    WrapMove(CountFate(s.ch.fates, Overflow) - |Uncounted(s.producers)|, 1);
  }

  lemma OverflowsWork(s: State, op: WorkOp)
    requires OneHand(s) && WorkEnabled(s, op)
    ensures CountFate(WorkStep(s, op).ch.fates, Overflow) == CountFate(s.ch.fates, Overflow)
  {
    var fate := Verdict(s, op);
    if op.Recv? {
      CountAppend(s.ch.fates, Delivered, Overflow);
      CountAppend(s.ch.fates, InHand, Overflow);
    } else if fate.Some? {
      CountUpdate(s.ch.fates, s.wk.hand, fate.value, Overflow);
    }
  }

  lemma DroppedWork(s: State, op: WorkOp)
    requires OneHand(s) && DroppedExact(s) && WorkEnabled(s, op)
    ensures DroppedExact(WorkStep(s, op))
  {
    OverflowsWork(s, op);
    assert WorkStep(s, op).producers == s.producers && WorkStep(s, op).dropped == s.dropped;
  }

  // ---------- every reachable state ----------

  ghost predicate Delivery(s: State) {
    Fifo(s.ch) && OneHand(s) && Ordered(s) && Repeats(s)
  }

  ghost predicate Losses(s: State) {
    Fifo(s.ch) && OneHand(s) && Roles(s) && Reasons(s)
  }

  ghost predicate Liveness(s: State) {
    Fifo(s.ch) && Endpoints(s) && Progress(s) && Ended(s)
  }

  ghost predicate Counters(s: State) {
    OneHand(s) && PendingExact(s) && DroppedExact(s)
  }

  ghost predicate Inv(s: State) {
    Delivery(s) && Losses(s) && Liveness(s) && Counters(s) && Late(s)
  }

  lemma InitInv(s: State)
    requires Init(s)
    ensures Inv(s)
  {
    assert Sents(s.producers) == {} && Pops(s.producers) == {} && Uncounted(s.producers) == {};
  }

  lemma DeliveryStep(s: State, step: Step)
    requires Delivery(s) && Enabled(s, step)
    ensures Delivery(Apply(s, step))
  {
    match step
    case Push(t, op) =>
      FifoPush(s, t, op);
      OneHandPush(s, t, op);
      OrderedPush(s, t, op);
      assert Apply(s, step).wk == s.wk && Apply(s, step).fx == s.fx;
    case Work(op) =>
      FifoWork(s, op);
      OneHandWork(s, op);
      OrderedWork(s, op);
      RepeatsWork(s, op);
    case _ =>
  }

  lemma LossesStep(s: State, step: Step)
    requires Losses(s) && Enabled(s, step)
    ensures Losses(Apply(s, step))
  {
    match step
    case Push(t, op) =>
      RolesPush(s, t, op);
      FifoPush(s, t, op);
      OneHandPush(s, t, op);
      ReasonsPush(s, t, op);
    case Work(op) =>
      FifoWork(s, op);
      OneHandWork(s, op);
      RolesWork(s, op);
      ReasonsWork(s, op);
    case _ =>
  }

  lemma LivenessStep(s: State, step: Step)
    requires Liveness(s) && Enabled(s, step)
    ensures Liveness(Apply(s, step))
  {
    match step
    case Push(t, op) =>
      FifoPush(s, t, op);
      EndpointsPush(s, t, op);
      ProgressPush(s, t, op);
      EndedPush(s, t, op);
    case Work(op) =>
      FifoWork(s, op);
      ProgressWork(s, op);
      EndedWork(s, op);
    case _ =>
  }

  lemma CountersStep(s: State, step: Step)
    requires Counters(s) && Enabled(s, step)
    ensures Counters(Apply(s, step))
  {
    match step
    case Push(t, op) =>
      OneHandPush(s, t, op);
      PendingPush(s, t, op);
      DroppedPush(s, t, op);
    case Work(op) =>
      OneHandWork(s, op);
      PendingWork(s, op);
      DroppedWork(s, op);
    case _ =>
  }

  lemma StepInv(s: State, step: Step)
    requires Inv(s) && Enabled(s, step)
    ensures Inv(Apply(s, step))
  {
    DeliveryStep(s, step);
    LossesStep(s, step);
    LivenessStep(s, step);
    CountersStep(s, step);
    LateStep(s, step);
  }

  ghost predicate Legal(s: State, run: seq<Step>)
    decreases |run|
  {
    run == [] || (Enabled(s, run[0]) && Legal(Apply(s, run[0]), run[1..]))
  }

  ghost function After(s: State, run: seq<Step>): State
    requires Legal(s, run)
    decreases |run|
  {
    if run == [] then s else After(Apply(s, run[0]), run[1..])
  }

  /** `run` leads from `s` to `s'`. */
  ghost predicate Leads(s: State, run: seq<Step>, s': State)
    decreases |run|
  {
    if run == [] then s == s' else Enabled(s, run[0]) && Leads(Apply(s, run[0]), run[1..], s')
  }

  lemma {:induction false} LeadsLegally(s: State, run: seq<Step>, s': State)
    ensures Leads(s, run, s') <==> Legal(s, run) && After(s, run) == s'
    decreases |run|
  {
    if run != [] && Enabled(s, run[0]) { LeadsLegally(Apply(s, run[0]), run[1..], s'); }
  }

  ghost predicate Reachable(s: State) {
    exists s0: State, run: seq<Step> :: Init(s0) && Leads(s0, run, s)
  }

  lemma {:induction false} RunInv(s: State, run: seq<Step>)
    requires Inv(s) && Legal(s, run)
    ensures Inv(After(s, run))
    decreases |run|
  {
    if run != [] {
      StepInv(s, run[0]);
      RunInv(Apply(s, run[0]), run[1..]);
    }
  }

  lemma ReachableInv(s: State)
    requires Reachable(s)
    ensures Inv(s)
  {
    var s0: State, run: seq<Step> :| Init(s0) && Leads(s0, run, s);
    LeadsLegally(s0, run, s);
    InitInv(s0);
    RunInv(s0, run);
  }

  // ---------- main results ----------

  /** Every accepted command is queued, in hand, applied, or lost for a recorded reason;
      the effects, with adjacent repeats merged, follow the order of acceptance; and there
      are no more repeats than lost acknowledgements, so without disconnects every
      command takes effect at most once. */
  lemma InOrderAtLeastOnce(s: State)
    requires Reachable(s)
    ensures |s.ch.fates| + |s.ch.queue| == |s.ch.accepted|
    ensures forall i :: 0 <= i < |s.ch.accepted| ==>
      || i in s.fx.applied
      || (|s.ch.fates| <= i && s.ch.queue[i - |s.ch.fates|] == s.ch.accepted[i])
      || (i < |s.ch.fates| &&
          match s.ch.fates[i]
          case InHand => Holding(s) && i == s.wk.hand
          case Overflow => true
          case ClosedEarly => s.closed
          case StaleQuery => s.ch.accepted[i].identity in s.wk.stale
          case Refused(code) => !code.Ok? && !IsDisconnect(code)
          case Delivered => false)
    ensures Increasing(Merged(s.fx.applied))
    ensures forall x :: x in s.fx.applied <==> x in Merged(s.fx.applied)
    ensures forall x :: x in s.fx.applied ==> x < |s.ch.accepted|
    ensures |s.fx.applied| <= |Merged(s.fx.applied)| + s.fx.disconnects
    ensures s.fx.disconnects == 0 ==> Increasing(s.fx.applied)
  {
    ReachableInv(s);
    MergedFacts(s.fx.applied);
    if s.fx.disconnects == 0 { MergedSame(s.fx.applied); }
    forall i | |s.ch.fates| <= i < |s.ch.accepted| ensures s.ch.queue[i - |s.ch.fates|] == s.ch.accepted[i] {
      assert s.ch.accepted[|s.ch.fates|..][i - |s.ch.fates|] == s.ch.accepted[i];
    }
  }

  lemma {:induction false} MergedSame(a: seq<nat>)
    requires |Merged(a)| == |a|
    ensures Merged(a) == a
  {
    if |a| > 1 {
      var n := |a| - 1;
      MergedFacts(a[..n]);
      MergedSame(a[..n]);
      assert a == a[..n] + [a[n]];
    }
  }

  /** `wait_empty` may stop exactly when the commands queued, in hand or popped but not
      subtracted are as many as those sent but not added; so with no push half done a
      zero means that nothing is queued and nothing is in hand. */
  lemma WaitEmptyMeans(s: State)
    requires Reachable(s) && !s.role.AppReceiver?
    requires |s.producers| + s.ch.capacity + 1 < U64
    ensures s.pending == 0 <==>
      |s.ch.queue| + One(!s.wk.pc.Idle?) + |Pops(s.producers)| == |Sents(s.producers)|
    ensures s.pending == 0 && Sents(s.producers) == {} ==> s.ch.queue == [] && s.wk.pc.Idle?
  {
    PendingBalance(s);
    var sents, pops := Sents(s.producers), Pops(s.producers);
    assert sents <= s.producers.Keys && pops <= s.producers.Keys;
    CardinalitySubset(sents, s.producers.Keys);
    CardinalitySubset(pops, s.producers.Keys);
    var x := |s.ch.queue| + One(!s.wk.pc.Idle?) + |pops| - |sents|;
    assert -U64 < x < U64 && s.pending == x % U64;
    SmallMod(x);
  }

  lemma PendingBalance(s: State)
    requires Reachable(s) && !s.role.AppReceiver?
    ensures s.pending == (|s.ch.queue| + One(!s.wk.pc.Idle?) + |Pops(s.producers)| - |Sents(s.producers)|) % U64
    ensures |s.ch.queue| <= s.ch.capacity
  {
    ReachableInv(s);
    assert PendingExact(s) && Fifo(s.ch);
  }

  lemma SmallMod(x: int)
    requires -U64 < x < U64
    ensures x % U64 == 0 <==> x == 0
  {
  }

  lemma {:induction false} CardinalitySubset(a: set<Tid>, b: set<Tid>)
    requires a <= b
    ensures |a| <= |b|
  {
    assert a + (b - a) == b;
  }

  /** A push never hands its item back, even when the drain has dropped its receiver: the
      thread's own sender keeps both ends of the channel alive. The Full answers it meets
      are at most one more than the sends other threads complete during it. */
  lemma PushProgress(s: State, t: Tid)
    requires Reachable(s) && t in s.producers
    ensures !s.producers[t].pc.Failed? && s.ch.txs >= 1 && s.ch.rxs >= 1
    ensures s.ch.rxs == |s.producers| + One(s.receiving)
    ensures !s.producers[t].pc.Ready? ==> s.producers[t].fulls <= s.producers[t].others + 1
  {
    ReachableInv(s);
    assert t in s.producers.Keys;
    assert Progressing(s.ch, s.producers[t]);
  }

  /** The contents are the newest part of everything accepted, within capacity. When a
      receive has reported the end of the stream, what was accepted is what was received,
      in order and once each, plus what was counted as dropped. */
  lemma DropOldestStream(s: State)
    requires Reachable(s)
    ensures |s.ch.queue| <= s.ch.capacity && |s.ch.queue| <= |s.ch.accepted|
    ensures s.ch.queue == s.ch.accepted[|s.ch.accepted| - |s.ch.queue|..]
    ensures s.role.AppReceiver? ==> Increasing(s.fx.applied)
    ensures s.sawEnd ==>
      exists lost: nat :: |s.ch.accepted| == |s.fx.applied| + lost && s.dropped == lost % U64
  {
    ReachableInv(s);
    InOrderAtLeastOnce(s);
    if s.sawEnd {
      var lost := CountFate(s.ch.fates, Overflow);
      assert Uncounted(s.producers) == {} by {
        assert |s.producers.Keys| == 0;
        assert s.producers.Keys == {};
      }
      assert |s.ch.accepted| == |s.fx.applied| + lost && s.dropped == lost % U64;
    }
  }

  /** Once the drain has dropped its receiver, between two commands, nothing is received or takes
      effect any more, whatever the producers go on to push. */
  lemma {:induction false} ReceiverGone(s: State, run: seq<Step>)
    requires !s.receiving && s.wk.pc.Idle? && Legal(s, run)
    ensures var s' := After(s, run); !s'.receiving && s'.wk.pc.Idle? && s'.fx == s.fx
    decreases |run|
  {
    if run != [] {
      assert !run[0].Work?;
      if run[0].Push? { PushFates(s, run[0].t, run[0].push); }
      ReceiverGone(Apply(s, run[0]), run[1..]);
    }
  }

  lemma DropsReceiver(s: State, run: seq<Step>)
    requires Reachable(s) && Enabled(s, DropReceiver) && Legal(Apply(s, DropReceiver), run)
    ensures var s' := After(Apply(s, DropReceiver), run); s'.fx == s.fx && !WorkEnabled(s', Recv)
    ensures Apply(s, DropReceiver).ch.rxs == |s.producers|
  {
    ReachableInv(s);
    ReceiverGone(Apply(s, DropReceiver), run);
  }

  /** A publisher whose handle was taken away declares again before its next attempt. */
  lemma UnboundDeclares(s: State)
    requires s.wk.pc.EnsureHandle?
    ensures var s' := Apply(Apply(s, Unbind), Work(UseHandle));
      s'.wk.pc.DeclareSent? && s'.fx.declares == s.fx.declares + 1 && s'.fx.sends == s.fx.sends
  {
  }

  // ---------- a zero that means nothing ----------

  lemma {:induction false} RunAppend(s: State, run: seq<Step>, step: Step)
    requires Legal(s, run) && Enabled(After(s, run), step)
    ensures Legal(s, run + [step]) && After(s, run + [step]) == Apply(After(s, run), step)
    decreases |run|
  {
    if run == [] {
      assert run + [step] == [step];
      assert Legal(Apply(s, step), []);
    } else {
      RunAppend(Apply(s, run[0]), run[1..], step);
      assert (run + [step])[1..] == run[1..] + [step];
    }
  }

  lemma ReachableStep(s: State, step: Step)
    requires Reachable(s) && Enabled(s, step)
    ensures Reachable(Apply(s, step))
  {
    var s0: State, run: seq<Step> :| Init(s0) && Leads(s0, run, s);
    LeadsLegally(s0, run, s);
    RunAppend(s0, run, step);
    LeadsLegally(s0, run + [step], Apply(s, step));
  }

  lemma ReachableInit(s: State)
    requires Init(s)
    ensures Reachable(s)
  {
    assert Leads(s, [], s);
  }

  // ---------- the worker on its own ----------

  /** `s'` follows `s` by a step of the worker, or by a close. */
  ghost predicate WorkerMove(s: State, s': State) {
    exists step: Step :: (step.Work? || step.Close?) && Enabled(s, step) && Apply(s, step) == s'
  }

  predicate HasNext(trace: seq<State>, i: nat) { i + 1 < |trace| }

  ghost predicate WorkerTrace(trace: seq<State>) {
    trace != [] && forall i: nat {:trigger HasNext(trace, i)} :: HasNext(trace, i) ==> WorkerMove(trace[i], trace[i + 1])
  }

  /** The worker's own steps, with closes in between, lead from `s` to `s'`. */
  ghost predicate ByWorker(s: State, s': State) {
    exists trace: seq<State> :: WorkerTrace(trace) && trace[0] == s && trace[|trace| - 1] == s'
  }

  lemma StaysPut(s: State)
    ensures ByWorker(s, s)
  {
    assert WorkerTrace([s]);
  }

  lemma Onward(s: State, s1: State, step: Step)
    requires ByWorker(s, s1) && Enabled(s1, step) && (step.Work? || step.Close?)
    ensures ByWorker(s, Apply(s1, step))
  {
    var trace: seq<State> :| WorkerTrace(trace) && trace[0] == s && trace[|trace| - 1] == s1;
    var longer := trace + [Apply(s1, step)];
    forall i: nat | HasNext(longer, i) ensures WorkerMove(longer[i], longer[i + 1]) {
      if i + 1 < |trace| { assert HasNext(trace, i); }
    }
    assert WorkerTrace(longer);
  }

  predicate OnlyWorker(run: seq<Step>) {
    forall i :: 0 <= i < |run| ==> run[i].Work? || run[i].Close?
  }

  /** It is a run of the step system in which nobody else acts. */
  lemma ByWorkerRuns(s: State, s': State) returns (run: seq<Step>)
    requires ByWorker(s, s')
    ensures Leads(s, run, s') && OnlyWorker(run)
  {
    var trace: seq<State> :| WorkerTrace(trace) && trace[0] == s && trace[|trace| - 1] == s';
    run := TraceRun(trace);
  }

  lemma {:induction false} TraceRun(trace: seq<State>) returns (run: seq<Step>)
    requires WorkerTrace(trace)
    ensures Leads(trace[0], run, trace[|trace| - 1]) && OnlyWorker(run)
    decreases |trace|
  {
    run := [];
    if |trace| > 1 {
      var rest := trace[1..];
      forall i: nat | HasNext(rest, i) ensures WorkerMove(rest[i], rest[i + 1]) { assert HasNext(trace, i + 1); }
      var tail := TraceRun(rest);
      assert HasNext(trace, 0);
      var step: Step :| (step.Work? || step.Close?) && Enabled(trace[0], step) && Apply(trace[0], step) == trace[1];
      run := [step] + tail;
      assert run[1..] == tail;
    }
  }

  lemma {:induction false} RunReachable(s: State, run: seq<Step>, s': State)
    requires Reachable(s) && Leads(s, run, s')
    ensures Reachable(s')
    decreases |run|
  {
    if run != [] {
      ReachableStep(s, run[0]);
      RunReachable(Apply(s, run[0]), run[1..], s');
    }
  }

  lemma ByWorkerReachable(s: State, s': State)
    requires Reachable(s) && ByWorker(s, s')
    ensures Reachable(s')
  {
    var run := ByWorkerRuns(s, s');
    RunReachable(s, run, s');
  }

  // ---------- a push on its own ----------

  /** The actions of thread `t` inside a push. */
  predicate Inside(step: Step, t: Tid) {
    step.Push? && step.t == t && !step.push.CloneTo? && !step.push.DropSender? && !step.push.Begin?
  }

  /** Where an uninterrupted push of `item` stands, compared with the state `s` in which it
      began; `left` bounds the actions still to come. */
  ghost predicate Alone(s: State, s': State, t: Tid, item: Command, left: nat) {
    && t in s'.producers && s'.ch.capacity == s.ch.capacity && s'.ch.rxs > 0 && s'.ch.txs > 0
    && s'.wk == s.wk && s'.fx == s.fx
    && var room, q, p := |s.ch.queue| < s.ch.capacity, s'.ch.queue, s'.producers[t].pc;
       var down := (s.pending - 1) % U64;
       var up := (s.dropped + 1) % U64;
       var rest := if s.ch.queue == [] then [] else s.ch.queue[1..];
       match p
       case Trying(x) => x == item &&
         (if left == 6 then q == s.ch.queue && s'.dropped == s.dropped && s'.pending == s.pending
          else left == 2 && !room && q == rest && s'.dropped == up && s'.pending == down)
       case SawFull(x) =>
         x == item && left == 5 && !room && q == s.ch.queue && s'.dropped == s.dropped && s'.pending == s.pending
       case Popped(x) =>
         x == item && left == 4 && !room && q == rest && s'.dropped == s.dropped && s'.pending == s.pending
       case Counted(x) =>
         x == item && left == 3 && !room && q == rest && s'.dropped == up && s'.pending == s.pending
       case Sent =>
         left == 1 && q == Newest(s.ch.capacity, s.ch.queue + [item])
         && s'.dropped == (if room then s.dropped else up) && s'.pending == (if room then s.pending else down)
       case Ready =>
         left == 0 && q == Newest(s.ch.capacity, s.ch.queue + [item])
         && s'.dropped == (if room then s.dropped else up)
         && s'.pending == ((if room then s.pending else down) + 1) % U64
       case Failed(_) => false
  }

  ghost predicate Within(s: State) {
    1 <= s.ch.capacity && |s.ch.queue| <= s.ch.capacity && s.pending < U64 && s.dropped < U64
  }

  lemma Basics(s: State)
    requires Reachable(s)
    ensures Within(s) && (s.producers != map[] ==> s.ch.rxs > 0 && s.ch.txs > 0)
  {
    ReachableInv(s);
    if |s.producers.Keys| == 0 { assert s.producers.Keys == {}; }
  }

  lemma AloneSend(s: State, s': State, t: Tid, item: Command, left: nat) returns (left': nat)
    requires Within(s) && Alone(s, s', t, item, left) && PushEnabled(s', t, TrySend)
    ensures left' < left && Alone(s, PushStep(s', t, TrySend), t, item, left')
  {
    left' := if |s'.ch.queue| < s.ch.capacity then 1 else 5;
    if |s.ch.queue| == s.ch.capacity { assert s.ch.queue[1..] + [item] == (s.ch.queue + [item])[1..]; }
  }

  lemma AloneStep(s: State, s': State, t: Tid, item: Command, left: nat, step: Step) returns (left': nat)
    requires Within(s) && Alone(s, s', t, item, left) && Inside(step, t) && Enabled(s', step)
    ensures left' < left && Alone(s, Apply(s', step), t, item, left')
  {
    match step.push
    case TrySend => left' := AloneSend(s, s', t, item, left);
    case AddPending => left' := 0;
    case TryPop => left' := 4;
    case CountDrop => left' := 3;
    case SubPending => left' := 2;
  }

  lemma {:induction false} AloneRun(s: State, s': State, t: Tid, item: Command, left: nat, run: seq<Step>)
    returns (left': nat)
    requires Within(s) && Alone(s, s', t, item, left) && Legal(s', run)
    requires forall i :: 0 <= i < |run| ==> Inside(run[i], t)
    ensures |run| + left' <= left && Alone(s, After(s', run), t, item, left')
    decreases |run|
  {
    left' := left;
    if run != [] {
      left' := AloneStep(s, s', t, item, left, run[0]);
      left' := AloneRun(s, Apply(s', run[0]), t, item, left', run[1..]);
    }
  }

  /** Whatever the thread's own actions after the start of a push, with nobody else acting:
      there are at most six of them (two rounds); while the push is not over another one is
      possible; and when it is over, contents and counters are those of the sequential
      queue's push, and worker and history are as before. */
  lemma PushAlone(s: State, t: Tid, item: Command, run: seq<Step>)
    requires Reachable(s) && t in s.producers && s.producers[t].pc.Ready?
    requires Legal(Apply(s, Push(t, Begin(item))), run) && forall i :: 0 <= i < |run| ==> Inside(run[i], t)
    ensures var s' := After(Apply(s, Push(t, Begin(item))), run);
      && |run| <= 6 && t in s'.producers && s'.wk == s.wk && s'.fx == s.fx
      && (!s'.producers[t].pc.Ready? ==> exists op :: Inside(Push(t, op), t) && PushEnabled(s', t, op))
      && (s'.producers[t].pc.Ready? ==>
            && s'.ch.queue == Newest(s.ch.capacity, s.ch.queue + [item])
            && var fulls := if |s.ch.queue| < s.ch.capacity then 0 else 1;
               s'.dropped == (s.dropped + fulls) % U64 && s'.pending == (s.pending + 1 - fulls) % U64)
  {
    AloneBegun(s, t, item);
    var left := AloneRun(s, Apply(s, Push(t, Begin(item))), t, item, 6, run);
    var s' := After(Apply(s, Push(t, Begin(item))), run);
    NextAction(s', t);
    if s'.producers[t].pc.Ready? { AloneOver(s, s', t, item, left); }
  }

  lemma AloneBegun(s: State, t: Tid, item: Command)
    requires Reachable(s) && t in s.producers && s.producers[t].pc.Ready?
    ensures Within(s) && Alone(s, Apply(s, Push(t, Begin(item))), t, item, 6)
  {
    Basics(s);
  }

  lemma AloneOver(s: State, s': State, t: Tid, item: Command, left: nat)
    requires Within(s) && Alone(s, s', t, item, left) && s'.producers[t].pc.Ready?
    ensures s'.ch.queue == Newest(s.ch.capacity, s.ch.queue + [item])
    ensures var fulls := if |s.ch.queue| < s.ch.capacity then 0 else 1;
      s'.dropped == (s.dropped + fulls) % U64 && s'.pending == (s.pending + 1 - fulls) % U64
  {
    WrapMove(s.pending - 1, 1);
  }

  lemma NextAction(s: State, t: Tid)
    requires t in s.producers && !s.producers[t].pc.Failed?
    ensures !s.producers[t].pc.Ready? ==> exists op :: Inside(Push(t, op), t) && PushEnabled(s, t, op)
  {
    var p := s.producers[t].pc;
    if !p.Ready? {
      var op := if p.Trying? then TrySend else if p.Sent? then AddPending else if p.SawFull? then TryPop
                else if p.Popped? then CountDrop else SubPending;
      assert Inside(Push(t, op), t) && PushEnabled(s, t, op);
    }
  }

  /** Without the condition on half-done pushes the wait is wrong: thread 0 has completed
      its push, its command `x` is still queued, and yet `pending` reads zero, because
      thread 1 has sent `y` but not counted it while the worker already finished `y`. */
  lemma WaitEmptyMissesCompletedPush(x: Command, y: Command) returns (s: State)
    ensures Reachable(s) && s.role.SessionWorker? && !s.closed
    ensures s.ch.accepted == [y, x] && s.ch.queue == [x]
    ensures 0 in s.producers && s.producers[0].pc.Ready?
    ensures s.pending == 0
  {
    s := QueuedBehindHalfPush(x, y);
    s := WorkerFinishesFirst(s);
  }

  lemma QueuedBehindHalfPush(x: Command, y: Command) returns (s: State)
    ensures Reachable(s) && s.role.SessionWorker? && s.receiving && !s.closed && s.wk.pc.Idle?
    ensures s.ch.accepted == [y, x] == s.ch.queue && s.ch.fates == []
    ensures 0 in s.producers && s.producers[0].pc.Ready?
    ensures s.pending == 1
  {
    s := HalfPushed(y);
    ReachableStep(s, Push(0, Begin(x)));    s := Apply(s, Push(0, Begin(x)));
    ReachableStep(s, Push(0, TrySend));     s := Apply(s, Push(0, TrySend));
    ReachableStep(s, Push(0, AddPending));  s := Apply(s, Push(0, AddPending));
  }

  lemma HalfPushed(y: Command) returns (s: State)
    ensures Reachable(s) && s.role.SessionWorker? && s.receiving && !s.closed && s.wk.pc.Idle?
    ensures s.ch == Channel(256, [y], 2, 3, [y], []) && s.pending == 0
    ensures 0 in s.producers && s.producers[0].pc.Ready?
  {
    s := State(SessionWorker, Channel(256, [], 1, 2, [], []), 0, 0, map[0 := Producer(Ready, 0, 0)],
               Worker(Idle, 0, false, {}), true, false, false, Effects([], 0, 0, 0, 0, 0));
    ReachableInit(s);
    ReachableStep(s, Push(0, CloneTo(1)));  s := Apply(s, Push(0, CloneTo(1)));
    ReachableStep(s, Push(1, Begin(y)));    s := Apply(s, Push(1, Begin(y)));
    ReachableStep(s, Push(1, TrySend));     s := Apply(s, Push(1, TrySend));
  }

  lemma WorkerFinishesFirst(before: State) returns (s: State)
    requires Reachable(before) && before.role.SessionWorker? && before.receiving && !before.closed && before.wk.pc.Idle?
    requires |before.ch.queue| == 2 && before.ch.fates == [] && before.pending == 1
    ensures Reachable(s) && s.pending == 0 && s.producers == before.producers
    ensures s.role == before.role && s.closed == before.closed
    ensures s.ch.accepted == before.ch.accepted && s.ch.queue == before.ch.queue[1..]
  {
    s := AttemptStarted(before);
    ReachableStep(s, Work(Answer(Ok, true)));  s := Apply(s, Work(Answer(Ok, true)));
    ReachableStep(s, Work(Processed));         s := Apply(s, Work(Processed));
  }

  lemma AttemptStarted(before: State) returns (s: State)
    requires Reachable(before) && before.role.SessionWorker? && before.receiving && !before.closed && before.wk.pc.Idle?
    requires |before.ch.queue| == 2 && before.ch.fates == []
    ensures Reachable(s) && s.pending == before.pending && s.producers == before.producers && s.wk.pc.Waiting?
    ensures s.role == before.role && s.closed == before.closed
    ensures s.ch.accepted == before.ch.accepted && s.ch.queue == before.ch.queue[1..]
  {
    s := before;
    ReachableStep(s, Work(Recv));              s := Apply(s, Work(Recv));
    ReachableStep(s, Work(CheckClosed));       s := Apply(s, Work(CheckClosed));
    ReachableStep(s, Work(CheckClosedAgain));  s := Apply(s, Work(CheckClosedAgain));
    ReachableStep(s, Work(LookupConn(true)));  s := Apply(s, Work(LookupConn(true)));
    ReachableStep(s, Work(Send));              s := Apply(s, Work(Send));
  }

  // ---------- draining after the close ----------

  function Rank(pc: WorkerPc): nat {
    match pc
    case Idle => 0
    case Settling => 1
    case ClosedCheck => 2
    case AwaitConn => 2
    case StaleCheck => 3
    case Waiting => 3
    case Attempt => 4
    case DeclareSent => 5
    case EnsureHandle => 6
    case ReadConn => 7
  }

  /** An upper bound on the steps a closed worker still takes. */
  function Drain(s: State): nat { 8 * |s.ch.queue| + Rank(s.wk.pc) }

  lemma DrainWork(s: State, op: WorkOp)
    requires OneHand(s) && s.closed && !s.role.AppReceiver? && WorkEnabled(s, op)
    ensures Drain(WorkStep(s, op)) < Drain(s)
  {
  }

  lemma DrainPush(s: State, t: Tid, op: PushOp)
    requires PushEnabled(s, t, op)
    ensures var s' := PushStep(s, t, op);
      |s'.ch.accepted| >= |s.ch.accepted| && Drain(s') <= Drain(s) + 8 * (|s'.ch.accepted| - |s.ch.accepted|)
  {
  }

  function WorkSteps(run: seq<Step>): nat {
    if run == [] then 0 else One(run[0].Work?) + WorkSteps(run[1..])
  }

  /** From position `n` on nothing has taken effect and nothing is being attempted. */
  ghost predicate Untouched(s: State, n: nat) {
    && s.closed && n <= |s.ch.fates|
    && (forall x :: x in s.fx.applied ==> x < n)
    && (PastCheck(s.wk.pc) || s.wk.pc.Waiting? ==> s.wk.hand < n)
  }

  lemma UntouchedStep(s: State, step: Step, n: nat)
    requires Untouched(s, n) && OneHand(s) && !s.role.AppReceiver? && Enabled(s, step)
    ensures Untouched(Apply(s, step), n)
  {
    match step
    case Push(t, op) => assert PushStep(s, t, op).wk == s.wk && PushStep(s, t, op).fx == s.fx;
    case Work(op) => UntouchedWork(s, op, n);
    case _ =>
  }

  lemma UntouchedWork(s: State, op: WorkOp, n: nat)
    requires Untouched(s, n) && OneHand(s) && !s.role.AppReceiver? && WorkEnabled(s, op)
    ensures Untouched(WorkStep(s, op), n)
  {
    assert forall x :: x in WorkStep(s, op).fx.applied ==> x in s.fx.applied || x == s.wk.hand;
  }

  /** Once closed, whatever the producers keep pushing: the worker's further steps are
      bounded by what was queued plus what is still accepted, at most one command attempt
      and one declare attempt start after the close, and no command that was still queued
      at the close ever takes effect. */
  lemma CloseDrains(s: State, run: seq<Step>)
    requires Reachable(s) && !s.role.AppReceiver? && Legal(Apply(s, Close), run)
    ensures var s' := After(Apply(s, Close), run);
      && |s.ch.accepted| <= |s'.ch.accepted|
      && WorkSteps(run) + Drain(s') <= Drain(s) + 8 * (|s'.ch.accepted| - |s.ch.accepted|)
      && s'.fx.lateSends <= 1 && s'.fx.lateDeclares <= 1
      && (forall x :: x in s'.fx.applied ==> x < |s.ch.fates|)
  {
    ReachableInv(s);
    StepInv(s, Close);
    CloseUntouched(s);
    RunInv(Apply(s, Close), run);
    DrainRun(Apply(s, Close), run, |s.ch.fates|);
  }

  lemma {:induction false} DrainRun(s: State, run: seq<Step>, n: nat)
    requires Inv(s) && s.closed && !s.role.AppReceiver? && Untouched(s, n)
    requires Legal(s, run)
    ensures var s' := After(s, run);
      && |s.ch.accepted| <= |s'.ch.accepted|
      && WorkSteps(run) + Drain(s') <= Drain(s) + 8 * (|s'.ch.accepted| - |s.ch.accepted|)
      && Untouched(s', n)
    decreases |run|
  {
    if run != [] {
      var s1 := Apply(s, run[0]);
      StepInv(s, run[0]);
      UntouchedStep(s, run[0], n);
      DrainStep(s, run[0]);
      DrainRun(s1, run[1..], n);
    }
  }

  lemma DrainStep(s: State, step: Step)
    requires OneHand(s) && s.closed && !s.role.AppReceiver? && Enabled(s, step)
    ensures var s' := Apply(s, step);
      && s'.role == s.role
      && |s.ch.accepted| <= |s'.ch.accepted|
      && One(step.Work?) + Drain(s') <= Drain(s) + 8 * (|s'.ch.accepted| - |s.ch.accepted|)
  {
    match step
    case Push(t, op) => DrainPush(s, t, op);
    case Work(op) => DrainWork(s, op);
    case _ =>
  }

  /** The close itself: everything still queued is beyond reach from then on. */
  lemma CloseUntouched(s: State)
    requires Inv(s) && !s.role.AppReceiver?
    ensures Untouched(s.(closed := true), |s.ch.fates|)
  {
  }

  /** A worker that can take no step has nothing in hand, and nothing queued unless it has
      given up its receiver. */
  lemma StuckMeansDrained(s: State)
    requires forall op: WorkOp :: !WorkEnabled(s, op)
    ensures s.wk.pc.Idle? && (s.receiving ==> s.ch.queue == [])
  {
    assert !WorkEnabled(s, Recv) && !WorkEnabled(s, CheckStale) && !WorkEnabled(s, CheckClosed);
    assert !WorkEnabled(s, CheckClosedAgain) && !WorkEnabled(s, LookupConn(true)) && !WorkEnabled(s, UseHandle);
    assert !WorkEnabled(s, DeclareReply(Ok)) && !WorkEnabled(s, Send) && !WorkEnabled(s, Answer(Ok, true));
    assert !WorkEnabled(s, Processed);
  }
}
