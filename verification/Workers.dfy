/** The remote-handle binding of a client-side object and a queryable's book of active
    and stale queries, updated in place under their locks. */
module Bindings {
  import opened Base

  // ---------- remote-handle binding ----------

  datatype Binding = Binding(handle: Option<Handle>, generation: nat)

  /** Compare and clear: a report about another handle changes nothing. */
  function Cleared(handle: Option<Handle>, reported: Handle): Option<Handle> {
    if handle == Some(reported) then None else handle
  }

  /** The outcome of a declare call: a handle or a failure code. */
  datatype DeclareAnswer = Granted(handle: Handle) | Failed(code: Code)

  class RemoteBinding {
    var handle: Option<Handle>
    var generation: nat

    ghost function View(): Binding reads this { Binding(handle, generation) }

    constructor ()
      ensures View() == Binding(None, 0)
    {
      handle, generation := None, 0;
    }

    /** A bound handle is returned without a call; a granted one is bound; a failure leaves
        the binding as it was. `call` is consulted only when nothing is bound. */
    method EnsureRemoteHandle(g: nat, call: DeclareAnswer) returns (r: DeclareAnswer)
      modifies this
      ensures old(handle).Some? ==> View() == old(View()) && r == Granted(old(handle).value)
      ensures old(handle).None? ==> r == call
      ensures old(handle).None? && call.Granted? ==> View() == Binding(Some(call.handle), g)
      ensures call.Failed? ==> View() == old(View())
      ensures r.Granted? ==> handle == Some(r.handle)
    {
      if handle.Some? { return Granted(handle.value); }
      if call.Granted? {
        handle := Some(call.handle);
        generation := g;
      }
      return call;
    }

    method InvalidateHandle(h: Handle)
      modifies this`handle
      ensures handle == Cleared(old(handle), h)
    {
      if handle == Some(h) { handle := None; }
    }

    method TakeHandle() returns (h: Option<Handle>)
      modifies this`handle
      ensures h == old(handle) && handle == None
    {
      h := handle;
      handle := None;
    }
  }

  // ---------- active and stale queries ----------

  class QueryBook {
    var active: map<QueryId, QueryIdentity>
    var stale: set<QueryIdentity>

    /** Identities are filed under their own query id. */
    ghost predicate Valid() reads this {
      forall q :: q in active ==> active[q].queryId == q
    }

    constructor ()
      ensures Valid() && active == map[] && stale == {}
    {
      active, stale := map[], {};
    }

    method RememberQuery(i: QueryIdentity)
      requires Valid()
      modifies this`active
      ensures Valid() && active == old(active)[i.queryId := i]
    {
      active := active[i.queryId := i];
    }

    method ForgetQuery(q: QueryId)
      requires Valid()
      modifies this`active
      ensures Valid() && active == old(active) - {q}
    {
      active := active - {q};
    }

    /** `first` says whether the warning is printed: once per identity. */
    method MarkQueryStale(i: QueryIdentity) returns (first: bool)
      requires Valid()
      modifies this
      ensures Valid() && active == old(active) - {i.queryId} && stale == old(stale) + {i}
      ensures first <==> i !in old(stale)
    {
      active := active - {i.queryId};
      first := i !in stale;
      stale := stale + {i};
    }

    method QueryIdentityOf(q: QueryId) returns (i: Option<QueryIdentity>)
      requires Valid()
      ensures i.Some? <==> q in active
      ensures i.Some? ==> i.value.queryId == q && i.value == active[q]
    {
      i := if q in active then Some(active[q]) else None;
    }
  }
}

/** The send workers' retry loop as the workers run it, statement by statement. What it does
    is given by what the world shows it, and it is a run of the step system of module
    Pipeline in which only the worker and the close act. */
module Workers {
  import opened Base
  import opened Bindings
  import Pipeline
  import Connection
  import DropOldest

  // ---------- what the world shows, and what the loop makes of it ----------

  /** One turn of the retry loop: whether a close precedes it, the connection as it is at each
      look (a wait that never finds a channel ends with the close), what the others have
      made of the connection when the calls are over, and the answers of the declare and of
      the command, which may have taken effect whatever its answer. */
  datatype Turn = Turn(
    closeFirst: bool, looks: seq<Connection.Link>, later: Connection.Link,
    declare: DeclareAnswer, answer: Code, took: bool)

  predicate Plausible(t: Turn) {
    && (t.answer.Ok? ==> t.took) && (IsStale(t.answer) ==> !t.took)
    && (t.declare.Failed? ==> !t.declare.code.Ok?)
  }

  /** An attempt is repeated exactly after a disconnect, and by a publisher after a stale
      handle; a command is dropped as stale exactly by a queryable. */
  lemma JudgementCases(role: Pipeline.Role, code: Code)
    ensures Pipeline.Judgement(role, code).None? <==> IsDisconnect(code) || (role.PublisherWorker? && IsStale(code))
    ensures Pipeline.Judgement(role, code) == Some(Pipeline.StaleQuery) <==> role.QueryableWorker? && IsStale(code)
    ensures Pipeline.Judgement(role, code) == Some(Pipeline.Delivered) <==> code.Ok?
  {
  }

  /** The first channel found, with its generation. */
  function Found(looks: seq<Connection.Link>): Option<(Connection.ChannelId, nat)> {
    if looks == [] then None
    else if looks[0].channel.Some? then Some((looks[0].channel.value, looks[0].generation))
    else Found(looks[1..])
  }

  /** A wait ends with a channel exactly when some look has one, and then with that of the first
      such look, which is also how the connection is left. */
  lemma {:induction false} FoundFirst(link: Connection.Link, looks: seq<Connection.Link>, i: nat)
    requires i <= |looks| && forall j :: 0 <= j < i ==> looks[j].channel.None?
    ensures i == |looks| ==> Found(looks).None? && Looked(link, looks) == if looks == [] then link else looks[i - 1]
    ensures i < |looks| && looks[i].channel.Some? ==>
      Found(looks) == Some((looks[i].channel.value, looks[i].generation)) && Looked(link, looks) == looks[i]
    decreases |looks|
  {
    if i > 0 { FoundFirst(looks[0], looks[1..], i - 1); }
  }

  /** The connection as the last look left it. */
  function Looked(link: Connection.Link, looks: seq<Connection.Link>): Connection.Link
    decreases |looks|
  {
    if looks == [] then link
    else if looks[0].channel.Some? then looks[0]
    else Looked(looks[0], looks[1..])
  }

  /** What was done for the command in hand: its fate once decided, the calls made, the
      effects taken and the disconnects met. */
  datatype Toll = Toll(fate: Option<Pipeline.Fate>, declares: nat, sends: nat, took: nat, disconnects: nat)

  const Nothing := Toll(None, 0, 0, 0, 0)

  function Sum(a: Toll, b: Toll): Toll {
    Toll(if b.fate.Some? then b.fate else a.fate, a.declares + b.declares, a.sends + b.sends,
         a.took + b.took, a.disconnects + b.disconnects)
  }

  lemma SumNothing(t: Toll)
    ensures Sum(Nothing, t) == t && Sum(t, Nothing) == t
  {
  }

  /** The worker's fields and its toll. */
  datatype Standing = Standing(closed: bool, handle: Option<Handle>, link: Connection.Link, toll: Toll)

  function Reacted(later: Connection.Link, generation: nat, code: Code): Connection.Link {
    if IsDisconnect(code) then Connection.Reported(later, generation) else later
  }

  /** The last call of the turn lost its connection. */
  predicate CallLost(role: Pipeline.Role, handle: Option<Handle>, t: Turn) {
    IsDisconnect(if role.PublisherWorker? && handle.None? && t.declare.Failed? then t.declare.code else t.answer)
  }

  /** A lost connection is taken down, unless the others have moved on to a newer one; nothing
      else touches the connection. */
  lemma ReactedMeans(later: Connection.Link, generation: nat, code: Code)
    ensures var l := Reacted(later, generation, code);
      && l.generation == later.generation
      && (IsDisconnect(code) && later.generation == generation ==> l.channel.None?)
      && (!IsDisconnect(code) || later.generation != generation ==> l == later)
  {
  }

  /** After a turn that lost its connection, the links that the next turn looks at are those of
      some run of the connection from the one left behind; if it finds a channel, that has a
      larger generation than the lost one, so no turn retries on a dead channel. */
  lemma {:induction false} NextTurnIsNewer(s: Connection.State, run: seq<Connection.Step>, at: seq<nat>, looks: seq<Connection.Link>,
                        before: Connection.State, generation: nat)
    requires Connection.Inv(before) && generation <= before.link.generation
    requires s == Connection.Apply(before, Connection.Report(generation)) && Connection.Legal(s, run)
    requires |at| == |looks| && forall i :: 0 <= i < |looks| ==>
      at[i] <= |run| && Connection.Legal(s, run[..at[i]]) && looks[i] == Connection.After(s, run[..at[i]]).link
    ensures Found(looks).Some? ==> Found(looks).value.1 > generation
    decreases |looks|
  {
    if looks != [] {
      if looks[0].channel.Some? {
        Connection.NewerAfterReport(before, generation, run[..at[0]]);
      } else {
        assert forall i :: 0 <= i < |looks| - 1 ==> looks[1..][i] == looks[i + 1] && at[1..][i] == at[i + 1];
        NextTurnIsNewer(s, run, at[1..], looks[1..], before, generation);
      }
    }
  }

  /** The calls of a turn that has a connection: a publisher without a handle declares first;
      the command's own call is judged by its status. */
  function Called(role: Pipeline.Role, handle: Option<Handle>, generation: nat, t: Turn): Standing {
    var declares := role.PublisherWorker? && handle.None?;
    if declares && t.declare.Failed? then
      Standing(false, None, Reacted(t.later, generation, t.declare.code),
               Toll(if IsDisconnect(t.declare.code) then None else Some(Pipeline.Refused(t.declare.code)), 1, 0, 0, 0))
    else
      Standing(false,
               if role.PublisherWorker? && IsStale(t.answer) then None
               else if declares then Some(t.declare.handle) else handle,
               Reacted(t.later, generation, t.answer),
               Toll(Pipeline.Judgement(role, t.answer), Pipeline.One(declares), 1,
                    Pipeline.One(t.took), Pipeline.One(IsDisconnect(t.answer))))
  }

  const Skipped := Toll(Some(Pipeline.StaleQuery), 0, 0, 0, 0)
  const GivenUp := Toll(Some(Pipeline.ClosedEarly), 0, 0, 0, 0)

  /** One turn: a worker closed at its head or during the wait gives the command up. */
  function TurnOf(role: Pipeline.Role, a: Standing, t: Turn): Standing {
    var found := Found(t.looks);
    if a.closed || t.closeFirst then a.(closed := true, toll := GivenUp)
    else if found.None? then Standing(true, a.handle, Looked(a.link, t.looks), GivenUp)
    else Called(role, a.handle, found.value.1, t)
  }

  /** All turns up to and including the first that decides the command's fate. */
  function Served(role: Pipeline.Role, a: Standing, turns: seq<Turn>): Standing {
    if turns == [] then a.(toll := Nothing)
    else
      var n := |turns| - 1;
      var b := Served(role, a, turns[..n]);
      if b.toll.fate.Some? then b
      else var c := TurnOf(role, b, turns[n]); c.(toll := Sum(b.toll, c.toll))
  }

  /** Turns after the deciding one do not matter. */
  lemma {:induction false} DecidedStays(role: Pipeline.Role, a: Standing, turns: seq<Turn>, i: nat)
    requires i <= |turns| && Served(role, a, turns[..i]).toll.fate.Some?
    ensures Served(role, a, turns) == Served(role, a, turns[..i])
  {
    if i == |turns| {
      assert turns[..i] == turns;
    } else {
      var n := |turns| - 1;
      assert turns[..n][..i] == turns[..i];
      DecidedStays(role, a, turns[..n], i);
    }
  }

  lemma NextServed(role: Pipeline.Role, a: Standing, turns: seq<Turn>, i: nat, now: Standing)
    requires i < |turns|
    ensures var b := Served(role, a, turns[..i]);
      var c := TurnOf(role, now, turns[i]);
      b.toll.fate.None? && now == b.(toll := Nothing) ==>
        Served(role, a, turns[..i + 1]) == c.(toll := Sum(b.toll, c.toll))
  {
    assert turns[..i + 1][..i] == turns[..i];
  }

  /** The turn that decides the command's fate, if there is one: none before it does. */
  lemma {:induction false} DecidedOnce(role: Pipeline.Role, a: Standing, turns: seq<Turn>) returns (i: nat)
    ensures Served(role, a, turns).toll.fate.None? ==> i == |turns|
    ensures Served(role, a, turns).toll.fate.Some? ==> i < |turns| && Decides(role, a, turns, i)
  {
    i := |turns|;
    if turns != [] {
      var n := |turns| - 1;
      i := DecidedOnce(role, a, turns[..n]);
      if Served(role, a, turns[..n]).toll.fate.Some? {
        assert turns[..n][..i] == turns[..i];
      } else if Served(role, a, turns).toll.fate.None? {
        i := |turns|;
      }
    }
  }

  /** Turn `i` is the first to decide the command's fate. */
  predicate Decides(role: Pipeline.Role, a: Standing, turns: seq<Turn>, i: nat)
    requires i < |turns|
  {
    Served(role, a, turns[..i]).toll.fate.None? && TurnOf(role, Served(role, a, turns[..i]), turns[i]).toll.fate.Some?
  }

  // ---------- the turns as a run of the step system ----------

  /** `a` and then `n` times `x`. */
  function Extended(a: seq<nat>, x: nat, n: nat): seq<nat> { if n == 0 then a else Extended(a, x, n - 1) + [x] }

  /** Only the worker acted from `s0` to `s`, on the command in hand, and this is its toll. */
  ghost predicate Went(s0: Pipeline.State, s: Pipeline.State, toll: Toll) {
    && Pipeline.ByWorker(s0, s)
    && s.wk.hand == s0.wk.hand && s.wk.hand < |s.ch.fates|
    && s.ch == Pipeline.Judged(s0.ch, s0.wk.hand, toll.fate)
    && s.fx.declares == s0.fx.declares + toll.declares && s.fx.sends == s0.fx.sends + toll.sends
    && s.fx.disconnects == s0.fx.disconnects + toll.disconnects
    && s.fx.applied == Extended(s0.fx.applied, s0.wk.hand, toll.took)
  }

  function TollOf(s: Pipeline.State, op: Pipeline.WorkOp): Toll {
    Toll(Pipeline.Verdict(s, op), Pipeline.One(op.UseHandle? && !s.wk.bound), Pipeline.One(op.Send?),
         Pipeline.One(op.Answer? && op.took), Pipeline.One(op.Answer? && IsDisconnect(op.code)))
  }

  lemma WentNowhere(s: Pipeline.State)
    requires s.wk.hand < |s.ch.fates|
    ensures Went(s, s, Nothing)
  {
    Pipeline.StaysPut(s);
  }

  lemma WentOn(s0: Pipeline.State, s: Pipeline.State, toll: Toll, op: Pipeline.WorkOp) returns (s': Pipeline.State)
    requires Went(s0, s, toll) && Pipeline.WorkEnabled(s, op) && !op.Recv?
    ensures s' == Pipeline.WorkStep(s, op) && Went(s0, s', Sum(toll, TollOf(s, op)))
  {
    s' := Pipeline.WorkStep(s, op);
    Pipeline.Onward(s0, s, Pipeline.Work(op));
    assert Extended(s0.fx.applied, s0.wk.hand, toll.took + 1)
      == Extended(s0.fx.applied, s0.wk.hand, toll.took) + [s0.wk.hand];
  }

  lemma WentClosed(s0: Pipeline.State, s: Pipeline.State, toll: Toll) returns (s': Pipeline.State)
    requires Went(s0, s, toll)
    ensures s' == s.(closed := true) && Went(s0, s', toll)
  {
    s' := Pipeline.Apply(s, Pipeline.Close);
    Pipeline.Onward(s0, s, Pipeline.Close);
  }

  /** A state as far as the worker sees it. */
  datatype Sight = Sight(
    role: Pipeline.Role, pc: Pipeline.WorkerPc, closed: bool, bound: bool, stale: set<QueryIdentity>,
    identity: QueryIdentity, pending: nat, receiving: bool)

  function Seen(s: Pipeline.State): Sight {
    Sight(s.role, s.wk.pc, s.closed, s.wk.bound, s.wk.stale, Pipeline.InHandIdentity(s), s.pending, s.receiving)
  }

  /** The closed check at the head of the loop, with the close that may precede it. */
  lemma HeadRun(s0: Pipeline.State, s1: Pipeline.State, toll: Toll, closeFirst: bool) returns (s: Pipeline.State)
    requires Went(s0, s1, toll) && s1.wk.pc.ClosedCheck?
    ensures var leave := s1.closed || closeFirst;
      && Went(s0, s, Sum(toll, if leave then GivenUp else Nothing))
      && Seen(s) == Seen(s1).(closed := leave, pc := if leave then Pipeline.Settling else Pipeline.AwaitConn)
  {
    s := s1;
    if closeFirst { s := WentClosed(s0, s1, toll); }
    s := WentOn(s0, s, toll, Pipeline.CheckClosed);
  }

  /** Where a worker that found a connection goes on. */
  function CallPc(role: Pipeline.Role): Pipeline.WorkerPc {
    if role.PublisherWorker? then Pipeline.EnsureHandle else Pipeline.Attempt
  }

  lemma {:induction false} WaitRun(s0: Pipeline.State, s1: Pipeline.State, toll: Toll, looks: seq<Connection.Link>)
    returns (s: Pipeline.State)
    requires Went(s0, s1, toll) && s1.wk.pc.AwaitConn? && !s1.closed
    ensures var found := Found(looks).Some?;
      && Went(s0, s, Sum(toll, if found then Nothing else GivenUp))
      && Seen(s) == Seen(s1).(closed := !found, pc := if found then CallPc(s1.role) else Pipeline.Settling)
    decreases |looks|
  {
    if looks == [] {
      s := WentClosed(s0, s1, toll);
      s := WentOn(s0, s, toll, Pipeline.CheckClosedAgain);
    } else {
      s := LookRun(s0, s1, toll, looks[0].channel.Some?);
      if looks[0].channel.None? { s := WaitRun(s0, s, toll, looks[1..]); }
    }
  }

  lemma LookRun(s0: Pipeline.State, s1: Pipeline.State, toll: Toll, found: bool) returns (s: Pipeline.State)
    requires Went(s0, s1, toll) && s1.wk.pc.AwaitConn? && !s1.closed
    ensures Went(s0, s, toll) && Went(s0, s, Sum(toll, Nothing))
    ensures Seen(s) == Seen(s1).(pc := if found then CallPc(s1.role) else Pipeline.AwaitConn)
  {
    SumNothing(toll);
    s := WentOn(s0, s1, toll, Pipeline.CheckClosedAgain);
    s := WentOn(s0, s, toll, Pipeline.LookupConn(found));
  }

  /** The publisher's declare, if one is due. */
  lemma DeclareRun(s0: Pipeline.State, s1: Pipeline.State, toll: Toll, declare: DeclareAnswer) returns (s: Pipeline.State)
    requires Went(s0, s1, toll) && s1.wk.pc.EnsureHandle? && (declare.Failed? ==> !declare.code.Ok?)
    ensures var leave := !s1.wk.bound && declare.Failed? && !IsDisconnect(declare.code);
      && Went(s0, s, Sum(toll, Toll(if leave then Some(Pipeline.Refused(declare.code)) else None,
                                    Pipeline.One(!s1.wk.bound), 0, 0, 0)))
      && Seen(s) == Seen(s1).(bound := s1.wk.bound || declare.Granted?,
                              pc := if s1.wk.bound || declare.Granted? then Pipeline.Attempt
                                    else if leave then Pipeline.Settling else Pipeline.ClosedCheck)
  {
    s := WentOn(s0, s1, toll, Pipeline.UseHandle);
    if !s1.wk.bound {
      var code := if declare.Granted? then Ok else declare.code;
      s := WentOn(s0, s, Sum(toll, TollOf(s1, Pipeline.UseHandle)), Pipeline.DeclareReply(code));
    }
  }

  /** The command's own call. */
  lemma AttemptRun(s0: Pipeline.State, s1: Pipeline.State, toll: Toll, code: Code, took: bool) returns (s: Pipeline.State)
    requires Went(s0, s1, toll) && s1.wk.pc.Attempt? && (code.Ok? ==> took) && (IsStale(code) ==> !took)
    ensures var fate := Pipeline.Judgement(s1.role, code);
      && Went(s0, s, Sum(toll, Toll(fate, 0, 1, Pipeline.One(took), Pipeline.One(IsDisconnect(code)))))
      && Seen(s) == Seen(s1).(pc := if fate.Some? then Pipeline.Settling else Pipeline.ClosedCheck,
           bound := s1.wk.bound && !(IsStale(code) && s1.role.PublisherWorker?),
           stale := if fate == Some(Pipeline.StaleQuery) then s1.wk.stale + {Seen(s1).identity} else s1.wk.stale)
  {
    s := SendRun(s0, s1, toll);
    SendSum(toll, Toll(Pipeline.Judgement(s1.role, code), 0, 0, Pipeline.One(took), Pipeline.One(IsDisconnect(code))));
    s := AnswerRun(s0, s, toll.(sends := toll.sends + 1), code, took);
  }

  lemma SendSum(a: Toll, b: Toll)
    ensures Sum(a.(sends := a.sends + 1), b) == Sum(a, b.(sends := b.sends + 1))
  {
  }

  lemma SendRun(s0: Pipeline.State, s1: Pipeline.State, toll: Toll) returns (s: Pipeline.State)
    requires Went(s0, s1, toll) && s1.wk.pc.Attempt?
    ensures Went(s0, s, toll.(sends := toll.sends + 1)) && Seen(s) == Seen(s1).(pc := Pipeline.Waiting)
  {
    s := WentOn(s0, s1, toll, Pipeline.Send);
    assert Sum(toll, TollOf(s1, Pipeline.Send)) == toll.(sends := toll.sends + 1);
  }

  lemma AnswerRun(s0: Pipeline.State, s1: Pipeline.State, toll: Toll, code: Code, took: bool) returns (s: Pipeline.State)
    requires Went(s0, s1, toll) && s1.wk.pc.Waiting? && (code.Ok? ==> took) && (IsStale(code) ==> !took)
    ensures var fate := Pipeline.Judgement(s1.role, code);
      && Went(s0, s, Sum(toll, Toll(fate, 0, 0, Pipeline.One(took), Pipeline.One(IsDisconnect(code)))))
      && Seen(s) == Seen(s1).(pc := if fate.Some? then Pipeline.Settling else Pipeline.ClosedCheck,
           bound := s1.wk.bound && !(IsStale(code) && s1.role.PublisherWorker?),
           stale := if fate == Some(Pipeline.StaleQuery) then s1.wk.stale + {Seen(s1).identity} else s1.wk.stale)
  {
    s := WentOn(s0, s1, toll, Pipeline.Answer(code, took));
    JudgementCases(s1.role, code);
  }

  /** What the worker sees is what it stands for. */
  predicate Fits(v: Sight, a: Standing) {
    v.closed == a.closed && (v.role.PublisherWorker? ==> v.bound == a.handle.Some?)
  }

  /** What the worker sees once `e` has come about, before `processed_one`. */
  function Then(v: Sight, e: Standing): Sight {
    v.(closed := e.closed, bound := if v.role.PublisherWorker? then e.handle.Some? else v.bound,
       pc := if e.toll.fate.Some? then Pipeline.Settling else Pipeline.ClosedCheck,
       stale := if e.toll.fate == Some(Pipeline.StaleQuery) then v.stale + {v.identity} else v.stale)
  }

  lemma CallRun(s0: Pipeline.State, s1: Pipeline.State, toll: Toll, handle: Option<Handle>, generation: nat, t: Turn)
    returns (s: Pipeline.State)
    requires Went(s0, s1, toll) && s1.wk.pc == CallPc(s1.role) && !s1.closed && Plausible(t)
    requires s1.role.PublisherWorker? ==> s1.wk.bound == handle.Some?
    ensures var e := Called(s1.role, handle, generation, t);
      Went(s0, s, Sum(toll, e.toll)) && Seen(s) == Then(Seen(s1), e)
  {
    JudgementCases(s1.role, t.answer);
    if s1.role.PublisherWorker? {
      s := PublisherRun(s0, s1, toll, handle, generation, t);
    } else {
      s := AttemptRun(s0, s1, toll, t.answer, t.took);
    }
  }

  lemma PublisherRun(s0: Pipeline.State, s1: Pipeline.State, toll: Toll, handle: Option<Handle>, generation: nat, t: Turn)
    returns (s: Pipeline.State)
    requires Went(s0, s1, toll) && s1.wk.pc.EnsureHandle? && !s1.closed && Plausible(t)
    requires s1.role.PublisherWorker? && s1.wk.bound == handle.Some?
    ensures var e := Called(s1.role, handle, generation, t);
      Went(s0, s, Sum(toll, e.toll)) && Seen(s) == Then(Seen(s1), e)
  {
    s := DeclareRun(s0, s1, toll, t.declare);
    if s.wk.pc.Attempt? {
      JudgementCases(s1.role, t.answer);
      s := AttemptRun(s0, s, Sum(toll, Toll(None, Pipeline.One(!s1.wk.bound), 0, 0, 0)), t.answer, t.took);
    }
  }

  /** With the `processed_one` that ends the service of a command. */
  function Finally(v: Sight, e: Standing): Sight {
    if e.toll.fate.Some? then Done(Then(v, e)) else Then(v, e)
  }

  function Done(v: Sight): Sight { v.(pc := Pipeline.Idle, pending := (v.pending - 1) % U64) }

  lemma SettleRun(s0: Pipeline.State, s1: Pipeline.State, toll: Toll) returns (s: Pipeline.State)
    requires Went(s0, s1, toll) && s1.wk.pc.Settling?
    ensures Went(s0, s, toll)
    ensures Seen(s) == Done(Seen(s1))
  {
    s := WentOn(s0, s1, toll, Pipeline.Processed);
    assert Sum(toll, TollOf(s1, Pipeline.Processed)) == toll;
  }

  /** A turn up to its `processed_one`. */
  lemma OpenTurnRun(s0: Pipeline.State, s1: Pipeline.State, toll: Toll, a: Standing, t: Turn) returns (s: Pipeline.State)
    requires Went(s0, s1, toll) && s1.wk.pc.ClosedCheck? && Fits(Seen(s1), a) && Plausible(t)
    ensures var e := TurnOf(s1.role, a, t);
      Went(s0, s, Sum(toll, e.toll)) && Seen(s) == Then(Seen(s1), e)
  {
    SumNothing(toll);
    s := HeadRun(s0, s1, toll, t.closeFirst);
    if !s.closed {
      s := WaitRun(s0, s, toll, t.looks);
      if !s.closed { s := CallRun(s0, s, toll, a.handle, Found(t.looks).value.1, t); }
    }
  }

  lemma TurnRun(s0: Pipeline.State, s1: Pipeline.State, toll: Toll, a: Standing, t: Turn) returns (s: Pipeline.State)
    requires Went(s0, s1, toll) && s1.wk.pc.ClosedCheck? && Fits(Seen(s1), a) && Plausible(t)
    ensures var e := TurnOf(s1.role, a, t);
      Went(s0, s, Sum(toll, e.toll)) && Seen(s) == Finally(Seen(s1), e)
  {
    s := OpenTurnRun(s0, s1, toll, a, t);
    var e := TurnOf(s1.role, a, t);
    if e.toll.fate.Some? { s := SettleRun(s0, s, Sum(toll, e.toll)); }
  }

  /** Whatever the turns, serving a command is a run of the step system in which only the
      worker and the close act, with exactly the calls, effects, disconnects and fate that
      the turns make, and one `processed_one` once the fate is decided. */
  lemma {:induction false} ServedRun(s0: Pipeline.State, s1: Pipeline.State, a: Standing, turns: seq<Turn>)
    returns (s: Pipeline.State)
    requires Went(s0, s1, Nothing) && s1.wk.pc.ClosedCheck? && Fits(Seen(s1), a)
    requires forall i :: 0 <= i < |turns| ==> Plausible(turns[i])
    ensures var e := Served(s1.role, a, turns);
      Went(s0, s, e.toll) && Seen(s) == Finally(Seen(s1), e)
  {
    if turns == [] {
      s := s1;
    } else {
      var n := |turns| - 1;
      s := ServedRun(s0, s1, a, turns[..n]);
      var b := Served(s1.role, a, turns[..n]);
      if b.toll.fate.None? { s := OneMoreTurn(s0, Seen(s1), s, b, turns[n]); }
    }
  }

  lemma OneMoreTurn(s0: Pipeline.State, v: Sight, s1: Pipeline.State, b: Standing, t: Turn) returns (s: Pipeline.State)
    requires Went(s0, s1, b.toll) && Seen(s1) == Finally(v, b) && b.toll.fate.None? && Plausible(t)
    ensures var c := TurnOf(v.role, b, t);
      Went(s0, s, Sum(b.toll, c.toll)) && Seen(s) == Finally(v, c.(toll := Sum(b.toll, c.toll)))
  {
    s := TurnRun(s0, s1, b.toll, b, t);
  }

  // ---------- the worker ----------

  class SendWorker {
    const role: Pipeline.Role
    const rx: DropOldest.Queue<Pipeline.Command>
    const link: Connection.ConnectionState
    const binding: RemoteBinding   // the publisher's
    const book: QueryBook          // the queryable's
    var closed: bool

    constructor (role: Pipeline.Role, rx: DropOldest.Queue<Pipeline.Command>,
                 link: Connection.ConnectionState, binding: RemoteBinding, book: QueryBook)
      ensures this.role == role && this.rx == rx && this.link == link
      ensures this.binding == binding && this.book == book && !closed
    {
      this.role, this.rx, this.link, this.binding, this.book := role, rx, link, binding, book;
      closed := false;
    }

    ghost predicate Valid() reads this, rx, book { rx.Valid() && book.Valid() && !role.AppReceiver? }

    ghost function Now(): Standing
      reads this, binding, link
    {
      Standing(closed, binding.handle, link.View(), Nothing)
    }

    /** The fields have become what `e` says. */
    ghost predicate Became(e: Standing)
      reads this, binding, link
    {
      closed == e.closed && binding.handle == e.handle && link.View() == e.link
    }

    /** The book after the command's fate was decided: a stale query is marked and forgotten,
        a finished one forgotten. */
    ghost predicate Booked(stale: set<QueryIdentity>, active: map<QueryId, QueryIdentity>,
                           command: Pipeline.Command, fate: Option<Pipeline.Fate>)
      reads this, book
    {
      var id := command.identity;
      && book.stale == (if fate == Some(Pipeline.StaleQuery) then stale + {id} else stale)
      && book.active ==
         (if role.QueryableWorker? && (fate == Some(Pipeline.StaleQuery)
              || (fate == Some(Pipeline.Delivered) && command.verb.Finish?))
          then active - {id.queryId} else active)
    }

    /** Looks for a channel until there is one or the object is closed; returns the first
        channel found and the generation to quote in a report about it. */
    method WaitForConnectionOrClosed(t: Turn) returns (c: Option<(Connection.ChannelId, nat)>)
      requires !closed
      modifies this`closed, link
      ensures c == Found(t.looks) && closed == c.None?
      ensures link.View() == Looked(old(link.View()), t.looks)
    {
      var i := 0;
      while i < |t.looks|
        invariant 0 <= i <= |t.looks| && !closed
        invariant Found(t.looks) == Found(t.looks[i..])
        invariant Looked(old(link.View()), t.looks) == Looked(link.View(), t.looks[i..])
      {
        link.Evolve(t.looks[i]);
        c := link.CurrentConnection();
        assert Connection.Reported(link.View(), link.generation).channel.None?;
        assert t.looks[i..][0] == t.looks[i] && t.looks[i..][1..] == t.looks[i + 1..];
        if c.Some? { return; }
        i := i + 1;
      }
      c := None;
      closed := true;
    }

    /** A publisher's handle: the bound one, or one declared now. A disconnect calls for
        another turn, any other failure gives the command up. */
    method EnsureHandle(t: Turn, generation: nat) returns (next: Next)
      modifies binding, link
      ensures next.GoOn? <==> old(binding.handle).Some? || t.declare.Granted?
      ensures next.Retry? <==> old(binding.handle).None? && t.declare.Failed? && IsDisconnect(t.declare.code)
      ensures next.Leave? <==> old(binding.handle).None? && t.declare.Failed? && !IsDisconnect(t.declare.code)
      ensures binding.handle ==
        if old(binding.handle).Some? then old(binding.handle)
        else if t.declare.Granted? then Some(t.declare.handle) else None
      ensures next.GoOn? ==> link.View() == old(link.View())
      ensures next.Leave? ==> link.View() == t.later
      ensures next.Retry? ==> link.generation == t.later.generation
      ensures next.Retry? && t.later.generation == generation ==> link.channel.None?
      ensures next.Retry? && t.later.generation != generation ==> link.View() == t.later
    {
      var handle := binding.EnsureRemoteHandle(generation, t.declare);
      if handle.Granted? { return GoOn; }
      link.Evolve(t.later);
      if IsDisconnect(handle.code) {
        link.MarkDisconnected(generation);
        return Retry;
      }
      return Leave;
    }

    /** The command's own call and the reaction to its status: another turn exactly after a
        disconnect or, for a publisher, a stale handle, which is then unbound. */
    method Attempt(command: Pipeline.Command, t: Turn, generation: nat) returns (next: Next)
      requires Valid() && (role.PublisherWorker? ==> binding.handle.Some?)
      modifies binding, book, link
      ensures Valid()
      ensures next == if IsDisconnect(t.answer) || (role.PublisherWorker? && IsStale(t.answer)) then Retry else Leave
      ensures binding.handle == if role.PublisherWorker? && IsStale(t.answer) then None else old(binding.handle)
      ensures !IsDisconnect(t.answer) ==> link.View() == t.later
      ensures IsDisconnect(t.answer) ==> link.generation == t.later.generation
      ensures IsDisconnect(t.answer) && t.later.generation == generation ==> link.channel.None?
      ensures IsDisconnect(t.answer) && t.later.generation != generation ==> link.View() == t.later
      ensures Booked(old(book.stale), old(book.active), command, Pipeline.Judgement(role, t.answer))
    {
      link.Evolve(t.later);
      if t.answer.Ok? {
        if role.QueryableWorker? && command.verb.Finish? { book.ForgetQuery(command.identity.queryId); }
        next := Leave;
      } else if IsDisconnect(t.answer) {
        link.MarkDisconnected(generation);
        next := Retry;
      } else if IsStale(t.answer) && role.PublisherWorker? {
        binding.InvalidateHandle(binding.handle.value);
        next := Retry;
      } else if IsStale(t.answer) && role.QueryableWorker? {
        var first := book.MarkQueryStale(command.identity);
        next := Leave;
      } else {
        next := Leave;
      }
    }

    /** One turn of the loop does what `TurnOf` says. It leaves the loop, with one
        `processed_one`, exactly when that decides the command's fate. */
    method ServeTurn(command: Pipeline.Command, t: Turn) returns (done: bool)
      requires Valid() && Plausible(t)
      modifies this`closed, rx`pending, book, link, binding
      ensures Valid()
      ensures var e := TurnOf(role, old(Now()), t);
        && done == e.toll.fate.Some? && Became(e)
        && Booked(old(book.stale), old(book.active), command, e.toll.fate)
      ensures rx.pending == if done then (old(rx.pending) - 1) % U64 else old(rx.pending)
      ensures !old(closed) && !t.closeFirst && Found(t.looks).Some? && CallLost(role, old(binding.handle), t) ==>
        (t.later.generation == Found(t.looks).value.1 ==> link.channel.None?)
    {
      if t.closeFirst { closed := true; }
      if closed {
        rx.ProcessedOne();
        return true;
      }
      var c := WaitForConnectionOrClosed(t);
      if c.None? {
        rx.ProcessedOne();
        return true;
      }
      JudgementCases(role, t.answer);
      ReactedMeans(t.later, c.value.1, if t.declare.Failed? then t.declare.code else t.answer);
      ReactedMeans(t.later, c.value.1, t.answer);
      var next := GoOn;
      if role.PublisherWorker? { next := EnsureHandle(t, c.value.1); }
      if next.GoOn? { next := Attempt(command, t, c.value.1); }
      done := next.Leave?;
      if done { rx.ProcessedOne(); }
    }

    /** The retry loop for one command, over any sequence of turns: it ends exactly at the
        first turn that decides the command's fate, with one `processed_one` then and none
        before, and leaves the fields as the turns make them. */
    method Serve(command: Pipeline.Command, turns: seq<Turn>) returns (done: bool)
      requires Valid() && forall i :: 0 <= i < |turns| ==> Plausible(turns[i])
      modifies this`closed, rx`pending, book, link, binding
      ensures Valid()
      ensures var e := Served(role, old(Now()), turns);
        && done == e.toll.fate.Some? && Became(e)
        && Booked(old(book.stale), old(book.active), command, e.toll.fate)
      ensures rx.pending == if done then (old(rx.pending) - 1) % U64 else old(rx.pending)
    {
      done := false;
      var i := 0;
      ghost var start := Now();
      while i < |turns| && !done
        invariant 0 <= i <= |turns| && Valid()
        invariant var e := Served(role, start, turns[..i]);
          && done == e.toll.fate.Some? && Became(e)
          && Booked(old(book.stale), old(book.active), command, e.toll.fate)
        invariant rx.pending == if done then (old(rx.pending) - 1) % U64 else old(rx.pending)
      {
        NextServed(role, start, turns, i, Now());
        done := ServeTurn(command, turns[i]);
        i := i + 1;
      }
      if done {
        DecidedStays(role, start, turns, i);
      } else {
        assert turns[..i] == turns;
      }
    }

    /** The fields are those of `s`. */
    ghost predicate Agrees(s: Pipeline.State)
      reads this, rx, book, binding
    {
      && s.role == role && s.receiving && s.closed == closed
      && (role.PublisherWorker? ==> s.wk.bound == binding.handle.Some?)
      && s.wk.stale == book.stale && s.ch.queue == rx.items && s.pending == rx.pending
    }

    /** The worker's outer loop body: take the oldest command; one whose query is known to be
        stale is completed without a call; otherwise serve it. */
    method ServeNext(turns: seq<Turn>) returns (done: bool)
      requires Valid() && rx.items != [] && forall i :: 0 <= i < |turns| ==> Plausible(turns[i])
      modifies this`closed, rx`pending, rx`items, book, link, binding
      ensures Valid() && rx.items == old(rx.items)[1..]
      ensures rx.pending == if done then (old(rx.pending) - 1) % U64 else old(rx.pending)
      ensures var e := NextOf(role, old(book.stale), old(rx.items)[0].identity, old(Now()), turns);
        && done == e.toll.fate.Some? && Became(e)
        && (if role.QueryableWorker? && old(rx.items)[0].identity in old(book.stale)
            then book.stale == old(book.stale) && book.active == old(book.active)
            else Booked(old(book.stale), old(book.active), old(rx.items)[0], e.toll.fate))
    {
      var command := rx.items[0];
      var r := rx.TryRecv();
      if role.QueryableWorker? && command.identity in book.stale {
        rx.ProcessedOne();
        return true;
      }
      done := Serve(command, turns);
    }

    /** From a reachable state of the step system that the fields agree with, `ServeNext` is a
        receive and then steps of the worker only, to a state that the fields agree with
        again, with the calls, effects, disconnects and fate of `NextOf`. */
    method ServeNextRefines(turns: seq<Turn>, ghost s0: Pipeline.State) returns (done: bool, ghost s: Pipeline.State)
      requires Valid() && Agrees(s0) && Pipeline.Reachable(s0) && s0.wk.pc.Idle? && rx.items != []
      requires forall i :: 0 <= i < |turns| ==> Plausible(turns[i])
      modifies this`closed, rx`pending, rx`items, book, link, binding
      ensures Valid() && Agrees(s) && Pipeline.Reachable(s) && s.wk.pc == if done then Pipeline.Idle else Pipeline.ClosedCheck
      ensures var e := NextOf(role, old(book.stale), old(rx.items)[0].identity, old(Now()), turns);
        done == e.toll.fate.Some? && Went(Pipeline.WorkStep(s0, Pipeline.Recv), s, e.toll)
    {
      QueueFirst(s0);
      s := NextRun(s0, Now(), turns);
      NextReachable(s0, s);
      done := ServeNext(turns);
    }
  }

  /** What the loop does next: go on to the command, start another turn, or leave. */
  datatype Next = GoOn | Retry | Leave

  /** What becomes of the next command. */
  function NextOf(role: Pipeline.Role, stale: set<QueryIdentity>, id: QueryIdentity, a: Standing, turns: seq<Turn>): Standing {
    if role.QueryableWorker? && id in stale then a.(toll := Skipped) else Served(role, a, turns)
  }

  /** What the worker sees afterwards; to skip a command changes nothing but the counter. */
  function NextSight(v: Sight, e: Standing): Sight {
    if v.role.QueryableWorker? && v.identity in v.stale then Done(v) else Finally(v, e)
  }

  /** Receiving a command and serving it, or skipping it, is a run of the step system. */
  lemma NextRun(s0: Pipeline.State, a: Standing, turns: seq<Turn>) returns (s: Pipeline.State)
    requires Pipeline.WorkEnabled(s0, Pipeline.Recv) && First(s0) && !s0.role.AppReceiver? && Fits(Seen(s0), a)
    requires forall i :: 0 <= i < |turns| ==> Plausible(turns[i])
    ensures var s1 := Pipeline.WorkStep(s0, Pipeline.Recv);
      var e := NextOf(s0.role, s0.wk.stale, s0.ch.queue[0].identity, a, turns);
      && Went(s1, s, e.toll) && s.ch.queue == s0.ch.queue[1..]
      && Seen(s) == NextSight(Seen(s0).(identity := s0.ch.queue[0].identity), e)
  {
    var s1 := Received(s0);
    s := ReceivedRun(s1, s1, a, turns);
  }

  lemma ReceivedRun(s0: Pipeline.State, s1: Pipeline.State, a: Standing, turns: seq<Turn>) returns (s: Pipeline.State)
    requires Went(s0, s1, Nothing) && Fits(Seen(s1), a)
    requires s1.wk.pc == if s1.role.QueryableWorker? then Pipeline.StaleCheck else Pipeline.ClosedCheck
    requires forall i :: 0 <= i < |turns| ==> Plausible(turns[i])
    ensures var e := NextOf(s1.role, s1.wk.stale, Seen(s1).identity, a, turns);
      Went(s0, s, e.toll) && Seen(s) == NextSight(Seen(s1), e)
  {
    if s1.role.QueryableWorker? && Seen(s1).identity in s1.wk.stale {
      s := SkipRun(s0, s1);
    } else {
      s := s1;
      if s1.role.QueryableWorker? { s := PassRun(s0, s1); }
      s := ServedRun(s0, s, a, turns);
    }
  }

  lemma SkipRun(s0: Pipeline.State, s1: Pipeline.State) returns (s: Pipeline.State)
    requires Went(s0, s1, Nothing) && s1.wk.pc.StaleCheck? && Seen(s1).identity in s1.wk.stale
    ensures Went(s0, s, Skipped) && Seen(s) == Done(Seen(s1))
  {
    s := StaleRun(s0, s1, Nothing);
    s := SettleRun(s0, s, Skipped);
  }

  lemma PassRun(s0: Pipeline.State, s1: Pipeline.State) returns (s: Pipeline.State)
    requires Went(s0, s1, Nothing) && s1.wk.pc.StaleCheck? && Seen(s1).identity !in s1.wk.stale
    ensures Went(s0, s, Nothing) && Seen(s) == Seen(s1).(pc := Pipeline.ClosedCheck)
  {
    s := StaleRun(s0, s1, Nothing);
  }

  lemma Received(s0: Pipeline.State) returns (s: Pipeline.State)
    requires Pipeline.WorkEnabled(s0, Pipeline.Recv) && First(s0) && !s0.role.AppReceiver?
    ensures s == Pipeline.WorkStep(s0, Pipeline.Recv) && Went(s, s, Nothing) && s.ch.queue == s0.ch.queue[1..]
    ensures Seen(s) == Seen(s0).(identity := s0.ch.queue[0].identity,
                                 pc := if s0.role.QueryableWorker? then Pipeline.StaleCheck else Pipeline.ClosedCheck)
  {
    s := Pipeline.WorkStep(s0, Pipeline.Recv);
    WentNowhere(s);
  }

  lemma NextReachable(s0: Pipeline.State, s: Pipeline.State)
    requires Pipeline.Reachable(s0) && Pipeline.WorkEnabled(s0, Pipeline.Recv)
    requires Pipeline.ByWorker(Pipeline.WorkStep(s0, Pipeline.Recv), s)
    ensures Pipeline.Reachable(s)
  {
    Pipeline.ReachableStep(s0, Pipeline.Work(Pipeline.Recv));
    Pipeline.ByWorkerReachable(Pipeline.WorkStep(s0, Pipeline.Recv), s);
  }

  /** The oldest queued command is the next one in the order of acceptance. */
  predicate First(s: Pipeline.State) {
    s.ch.queue != [] ==> |s.ch.fates| < |s.ch.accepted| && s.ch.accepted[|s.ch.fates|] == s.ch.queue[0]
  }

  lemma QueueFirst(s: Pipeline.State)
    requires Pipeline.Reachable(s)
    ensures First(s)
  {
    Pipeline.ReachableInv(s);
    if s.ch.queue != [] { assert s.ch.accepted[|s.ch.fates|..][0] == s.ch.queue[0]; }
  }

  lemma StaleRun(s0: Pipeline.State, s1: Pipeline.State, toll: Toll) returns (s: Pipeline.State)
    requires Went(s0, s1, toll) && s1.wk.pc.StaleCheck?
    ensures var skip := Seen(s1).identity in s1.wk.stale;
      && Went(s0, s, if skip then toll.(fate := Some(Pipeline.StaleQuery)) else toll)
      && Seen(s) == Seen(s1).(pc := if skip then Pipeline.Settling else Pipeline.ClosedCheck)
  {
    s := WentOn(s0, s1, toll, Pipeline.CheckStale);
    assert Sum(toll, TollOf(s1, Pipeline.CheckStale))
      == if s.wk.pc.Settling? then toll.(fate := Some(Pipeline.StaleQuery)) else toll;
  }
}
