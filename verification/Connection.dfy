/** The client's connection: a channel with a generation number that failure reports
    must quote, and the reconnect worker that alone installs channels. */
module Connection {
  import opened Base

  type ChannelId = nat

  datatype Link = Link(channel: Option<ChannelId>, generation: nat)

  function Connected(l: Link, channel: ChannelId): Link {
    Link(Some(channel), l.generation + 1)
  }

  /** A report takes effect only on the generation it quotes. */
  function Reported(l: Link, generation: nat): Link {
    if l.generation == generation && l.channel.Some? then l.(channel := None) else l
  }

  class ConnectionState {
    var channel: Option<ChannelId>
    var generation: nat

    ghost function View(): Link reads this { Link(channel, generation) }

    constructor ()
      ensures View() == Link(None, 0)
    {
      channel, generation := None, 0;
    }

    /** The channel comes with the only generation that a failure report can quote to take
        it down. */
    method CurrentConnection() returns (c: Option<(ChannelId, nat)>)
      ensures c.None? ==> forall g :: Reported(View(), g) == View()
      ensures c.Some? ==> View().channel == Some(c.value.0)
      ensures c.Some? ==> forall g :: Reported(View(), g).channel.None? <==> g == c.value.1
    {
      c := if channel.Some? then Some((channel.value, generation)) else None;
    }

    method SetConnected(c: ChannelId)
      modifies this
      ensures View() == Connected(old(View()), c)
    {
      generation := generation + 1;
      channel := Some(c);
    }

    /** What the reconnect worker and the other workers' reports have made of it. */
    method Evolve(l: Link)
      modifies this
      ensures View() == l
    {
      channel, generation := l.channel, l.generation;
    }

    method MarkDisconnected(g: nat)
      modifies this
      ensures View() == Reported(old(View()), g)
    {
      if generation == g && channel.Some? {
        channel := None;
      }
    }
  }

  // ---------- the connection under every run ----------

  /** `Starting` is the one connection attempt made before the worker exists. */
  datatype Pc = Starting | Checking | Connecting

  /** `torn` is history: the generations that were disconnected, in order. */
  datatype State = State(link: Link, pc: Pc, torn: seq<nat>)

  datatype Step =
    | FirstAttempt(result: Option<ChannelId>)
    | Check                                     // the worker looks at the channel
    | Connect(result: Option<ChannelId>)        // its connection attempt returns
    | Report(generation: nat)                   // any worker, any generation, any time

  predicate Init(s: State) {
    s == State(Link(None, 0), Starting, [])
  }

  predicate Enabled(s: State, step: Step) {
    match step
    case FirstAttempt(_) => s.pc.Starting?
    case Check => s.pc.Checking?
    case Connect(_) => s.pc.Connecting?
    case Report(_) => true
  }

  function Apply(s: State, step: Step): State {
    match step
    case FirstAttempt(result) =>
      s.(pc := Checking, link := if result.Some? then Connected(s.link, result.value) else s.link)
    case Check => if s.link.channel.Some? then s else s.(pc := Connecting)
    case Connect(result) =>
      s.(pc := Checking, link := if result.Some? then Connected(s.link, result.value) else s.link)
    case Report(g) =>
      var link := Reported(s.link, g);
      s.(link := link, torn := if link != s.link then s.torn + [g] else s.torn)
  }

  ghost predicate Legal(s: State, run: seq<Step>)
    decreases |run|
  {
    run == [] || (Enabled(s, run[0]) && Legal(Apply(s, run[0]), run[1..]))
  }

  ghost function After(s: State, run: seq<Step>): State
    decreases |run|
  {
    if run == [] then s else After(Apply(s, run[0]), run[1..])
  }

  ghost predicate Inv(s: State) {
    && (s.pc.Connecting? || s.pc.Starting? ==> s.link.channel.None?)
    && s.link.generation == |s.torn| + (if s.link.channel.Some? then 1 else 0)
    && (forall i :: 0 <= i < |s.torn| ==> s.torn[i] == i + 1)
  }

  lemma {:induction false} RunInv(s: State, run: seq<Step>)
    requires Inv(s) && Legal(s, run)
    ensures Inv(After(s, run))
    decreases |run|
  {
    if run != [] { RunInv(Apply(s, run[0]), run[1..]); }
  }

  /** Over every run: the generation counts the effective disconnects plus the live channel,
      and the disconnects are of generations 1, 2, 3, ... in turn, each once, however many
      workers report it; so no report that quotes an older generation has any effect. */
  lemma Generations(s0: State, run: seq<Step>, g: nat)
    requires Init(s0) && Legal(s0, run)
    ensures var s := After(s0, run);
      && s.link.generation == |s.torn| + (if s.link.channel.Some? then 1 else 0)
      && (forall i :: 0 <= i < |s.torn| ==> s.torn[i] == i + 1)
      && (g in s.torn ==> Apply(s, Report(g)).link == s.link && g !in Apply(s, Report(g)).torn[|s.torn|..])
      && (g < s.link.generation ==> Apply(s, Report(g)) == s)
  {
    RunInv(s0, run);
  }

  lemma {:induction false} GenerationNamesChannel(s: State, run: seq<Step>)
    requires Inv(s) && Legal(s, run)
    ensures var l, l' := s.link, After(s, run).link;
      && l.generation <= l'.generation
      && (l.generation == l'.generation ==> l'.channel.None? || l'.channel == l.channel)
    decreases |run|
  {
    if run != [] {
      RunInv(s, [run[0]]);
      assert After(s, [run[0]]) == Apply(s, run[0]) by { assert [run[0]][1..] == []; }
      GenerationNamesChannel(Apply(s, run[0]), run[1..]);
    }
  }

  /** A worker reads a connection, and after any run reports it by its generation: the
      report takes down nothing, or the very channel that was read. */
  lemma ReportHitsItsChannel(s0: State, run: seq<Step>, later: seq<Step>)
    requires Init(s0) && Legal(s0, run) && Legal(After(s0, run), later)
    requires After(s0, run).link.channel.Some?
    ensures var read, l := After(s0, run).link, After(After(s0, run), later).link;
      Reported(l, read.generation) == l || l.channel == read.channel
  {
    RunInv(s0, run);
    GenerationNamesChannel(After(s0, run), later);
  }

  /** A connection is read, used, and reported after any run because a call on it failed: the
      next channel there is, however much later, has a larger generation. */
  lemma ReconnectedIsNewer(s0: State, run: seq<Step>, later: seq<Step>, more: seq<Step>)
    requires Init(s0) && Legal(s0, run) && Legal(After(s0, run), later)
    requires After(s0, run).link.channel.Some?
    requires Legal(Apply(After(After(s0, run), later), Report(After(s0, run).link.generation)), more)
    ensures var g := After(s0, run).link.generation;
      var l := After(Apply(After(After(s0, run), later), Report(g)), more).link;
      l.channel.Some? ==> l.generation > g
  {
    RunInv(s0, run);
    var s1 := After(s0, run);
    RunInv(s1, later);
    GenerationNamesChannel(s1, later);
    NewerAfterReport(After(s1, later), s1.link.generation, more);
  }

  lemma NewerAfterReport(s: State, g: nat, more: seq<Step>)
    requires Inv(s) && g <= s.link.generation && Legal(Apply(s, Report(g)), more)
    ensures var l := After(Apply(s, Report(g)), more).link; l.channel.Some? ==> l.generation > g
  {
    GenerationNamesChannel(Apply(s, Report(g)), more);
  }

  /** Without a channel the reconnect worker goes on to connect, and again after every failed
      attempt; the channel that an attempt yields is the very one installed, under the next
      generation; with a channel the worker leaves everything as it is. */
  lemma WorkerReconnects(s0: State, run: seq<Step>, c: ChannelId)
    requires Init(s0) && Legal(s0, run) && !After(s0, run).pc.Starting?
    ensures var s := After(s0, run);
      if s.link.channel.Some? then s.pc.Checking? && Apply(s, Check) == s
      else
        var t := if s.pc.Checking? then Apply(s, Check) else s;
        && (s.pc.Checking? ==> Enabled(s, Check)) && t.link == s.link && Enabled(t, Connect(Some(c)))
        && Apply(t, Connect(Some(c))).link == Link(Some(c), s.link.generation + 1)
        && Apply(t, Connect(None)).link == s.link && Enabled(Apply(t, Connect(None)), Check)
  {
    RunInv(s0, run);
  }
}
