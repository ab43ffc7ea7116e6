/** Leases over time: touches, cleanups and sweeps of the live-client table, in any
    interleaving. A sweep reads the clock before it gets the lock, so the time it compares
    with may be older than the moment at which it scans. */
module Leases {
  import opened Base
  import opened PluginState

  datatype Event =
    | Touch(client: ClientId)
    | Forget(client: ClientId)     // the first action of cleanup_client
    | Sweep(read: Instant)         // collect_stale_clients, with the clock it read

  datatype Timed = Timed(at: Instant, event: Event)

  type Live = map<ClientId, Instant>

  function Next(live: Live, e: Timed): Live {
    match e.event
    case Touch(c) => live[c := e.at]
    case Forget(c) => live - {c}
    case Sweep(_) => live
  }

  /** The table after the first `n` events. */
  function LiveAt(run: seq<Timed>, n: nat): Live
    requires n <= |run|
  {
    if n == 0 then map[] else Next(LiveAt(run, n - 1), run[n - 1])
  }

  /** Time does not run backwards, and no sweep reads a clock from the future. */
  ghost predicate Timeline(run: seq<Timed>) {
    && (forall i, j :: 0 <= i < j < |run| ==> run[i].at <= run[j].at)
    && (forall i :: 0 <= i < |run| && run[i].event.Sweep? ==> run[i].event.read <= run[i].at)
  }

  predicate Touches(run: seq<Timed>, i: nat, c: ClientId) {
    i < |run| && run[i].event == Touch(c)
  }

  ghost predicate NoTouchBetween(run: seq<Timed>, i: nat, j: nat, c: ClientId) {
    forall k :: i < k < j ==> !Touches(run, k, c)
  }

  /** The event at `i` is a sweep that selects client `c`. */
  predicate Selects(run: seq<Timed>, i: nat, lease: nat, c: ClientId) {
    i < |run| && run[i].event.Sweep? && Lapsed(LiveAt(run, i), lease, run[i].event.read, c)
  }

  /** Whatever happens before the next touch of `c` happens within a lease of the last. */
  ghost predicate Fed(run: seq<Timed>, lease: nat, c: ClientId) {
    forall i, j :: 0 <= i < j < |run| && Touches(run, i, c) && NoTouchBetween(run, i, j, c) ==>
      run[j].at - run[i].at < lease
  }

  /** What the table says of a client is the time of its last touch. */
  lemma {:induction false} LastTouch(run: seq<Timed>, n: nat, c: ClientId) returns (i: nat)
    requires n <= |run| && c in LiveAt(run, n)
    ensures i < n && Touches(run, i, c) && NoTouchBetween(run, i, n, c) && LiveAt(run, n)[c] == run[i].at
  {
    if Touches(run, n - 1, c) {
      i := n - 1;
    } else {
      i := LastTouch(run, n - 1, c);
    }
  }

  /** A client whose touches reach the server less than a lease apart is selected by no
      sweep, wherever the sweeps, their clock readings and anybody's cleanups fall. */
  lemma KeptAlive(run: seq<Timed>, lease: nat, c: ClientId, i: nat)
    requires Timeline(run) && Fed(run, lease, c)
    ensures !Selects(run, i, lease, c)
  {
    if i < |run| && run[i].event.Sweep? && c in LiveAt(run, i) {
      var j := LastTouch(run, i, c);
      assert run[i].at - run[j].at < lease;
    }
  }

  /** While nobody touches or forgets the client, the table remembers its last touch. */
  lemma {:induction false} Remembered(run: seq<Timed>, i: nat, n: nat, c: ClientId)
    requires i < n <= |run| && Touches(run, i, c)
    requires forall k :: i < k < n ==> run[k].event != Touch(c) && run[k].event != Forget(c)
    ensures c in LiveAt(run, n) && LiveAt(run, n)[c] == run[i].at
  {
    if n > i + 1 { Remembered(run, i, n - 1, c); }
  }

  /** Every tick of the sweeper up to the end of the run is an instantaneous sweep. */
  ghost predicate Ticking(run: seq<Timed>, start: Instant, interval: nat) {
    forall k: nat :: run != [] && Tick(start, interval, k) <= run[|run| - 1].at ==>
      Timed(Tick(start, interval, k), Sweep(Tick(start, interval, k))) in run
  }

  function Tick(start: Instant, interval: nat, k: nat): Instant { start + k * interval }

  /** Some tick falls in every window of one interval that begins after the start. */
  lemma TickInWindow(start: Instant, interval: nat, from: Instant) returns (k: nat)
    requires interval > 0 && start <= from
    ensures from <= Tick(start, interval, k) < from + interval
  {
    var d := from - start + interval - 1;
    k := d / interval;
    assert d == k * interval + d % interval;
  }

  /** A client that stops touching at time t, and is not cleaned up otherwise, is selected
      by a sweep at some time from t + lease to before t + lease + interval. */
  lemma SilentIsSelected(run: seq<Timed>, lease: nat, c: ClientId, i: nat, start: Instant, interval: nat)
    returns (j: nat)
    requires Timeline(run) && Touches(run, i, c)
    requires forall k :: i < k < |run| ==> run[k].event != Touch(c) && run[k].event != Forget(c)
    requires lease > 0 && interval > 0 && start <= run[i].at && Ticking(run, start, interval)
    requires run[|run| - 1].at >= run[i].at + lease + interval
    ensures i < j < |run| && Selects(run, j, lease, c)
    ensures run[i].at + lease <= run[j].at < run[i].at + lease + interval
  {
    var k := TickInWindow(start, interval, run[i].at + lease);
    var tick := Timed(Tick(start, interval, k), Sweep(Tick(start, interval, k)));
    assert tick in run;
    j :| 0 <= j < |run| && run[j] == tick;
    assert i < j;
    Remembered(run, i, j, c);
  }

  // The defaults of server and client, in milliseconds.
  const DEFAULT_LEASE_MS: nat := 4000
  const HEARTBEAT_MS: nat := 2000

  /** Heartbeats sent every two seconds and delivered within two seconds keep a client
      alive under the default lease, whatever else its requests do. */
  lemma HeartbeatsSuffice(run: seq<Timed>, c: ClientId, base: Instant, beats: seq<nat>, i: nat)
    requires run != [] && Timeline(run)
    requires forall k :: 0 <= k < |beats| ==>
      && Touches(run, beats[k], c)
      && base + k * HEARTBEAT_MS <= run[beats[k]].at < base + k * HEARTBEAT_MS + HEARTBEAT_MS
    requires |beats| > 0 && (forall j :: 0 <= j < beats[0] ==> !Touches(run, j, c))
    requires run[|run| - 1].at < base + |beats| * HEARTBEAT_MS + HEARTBEAT_MS
    ensures !Selects(run, i, DEFAULT_LEASE_MS, c)
  {
    if i < |run| && run[i].event.Sweep? && c in LiveAt(run, i) {
      var j := LastTouch(run, i, c);
      BeatBefore(run, c, base, beats, i, j);
    }
  }

  /** The last touch before any moment is less than a lease old. */
  lemma BeatBefore(run: seq<Timed>, c: ClientId, base: Instant, beats: seq<nat>, i: nat, j: nat)
    requires Timeline(run) && j < i < |run| && Touches(run, j, c) && NoTouchBetween(run, j, i, c)
    requires forall k :: 0 <= k < |beats| ==>
      && Touches(run, beats[k], c)
      && base + k * HEARTBEAT_MS <= run[beats[k]].at < base + k * HEARTBEAT_MS + HEARTBEAT_MS
    requires |beats| > 0 && (forall p :: 0 <= p < beats[0] ==> !Touches(run, p, c))
    requires run[|run| - 1].at < base + |beats| * HEARTBEAT_MS + HEARTBEAT_MS
    ensures run[i].at - run[j].at < DEFAULT_LEASE_MS
  {
    var k := 0;
    while k + 1 < |beats| && beats[k + 1] <= j
      invariant k < |beats| && beats[k] <= j
    {
      k := k + 1;
    }
    assert run[beats[k]].at <= run[j].at;
    if k + 1 < |beats| {
      assert !Touches(run, beats[k + 1], c) || beats[k + 1] >= i;
      assert run[i].at <= run[beats[k + 1]].at;
    } else {
      assert run[i].at <= run[|run| - 1].at;
    }
  }

  /** A client that was forgotten is not selected by any sweep before its next touch. */
  lemma {:induction false} ForgottenIsGone(run: seq<Timed>, i: nat, n: nat, c: ClientId)
    requires i < n <= |run| && run[i].event == Forget(c)
    requires forall k :: i < k < n ==> !Touches(run, k, c)
    ensures c !in LiveAt(run, n) && forall lease :: !Selects(run, n, lease, c)
  {
    if n > i + 1 {
      ForgottenIsGone(run, i, n - 1, c);
      assert !Touches(run, n - 1, c);
    }
  }

  /** The handlers move the table of live clients as the events here do: every request but a
      cleanup is a touch of its client at its time, a cleanup forgets, and a query from zenoh
      touches nobody. */
  lemma HandlersAreEvents(c: Core, r: Request)
    ensures Handled(c, r).0.live ==
      if r.QueryArrives? then c.live
      else if r.CleanupClient? then Next(c.live, Timed(0, Forget(r.client)))
      else Next(c.live, Timed(r.now, Touch(r.client)))
  {
    match r case _ =>
  }
}
