/**
 SSH tunnels: opening one on the first free port, waiting for the stub behind it
 to answer, recovering a persisted binding, and tearing a tunnel down.

 What the network answers at each instant is an arbitrary function; the manager
 keeps a ghost log of everything it did, and its promises are about that log.
 */
module Tunnels {
  import opened Wrappers
  import opened RuntimeState
  import opened Ports

  /** Answers of the outside world, by time.  Status 0 is "no answer", process 0 is "not started". */
  datatype Environment = Environment(
    status: (nat, int, Option<string>) -> nat, latency: nat -> nat, spawn: (nat, int) -> nat, kill: (nat, int) -> bool)

  /** Time limits for a port to come up and for the stub behind it to answer. */
  datatype Timing = Timing(connect: nat, health: nat)

  datatype Event =
    | Probed(port: int, token: Option<string>, status: nat)
    | Spawned(port: int, pid: int)
    | Killed(pid: int)
    | Tried(port: int, pid: int)

  datatype Tunnel = Tunnel(localPort: int, pid: int)

  predicate IsOK(status: nat) {
    200 <= status < 300
  }

  /** Without a token the stub answers 401, so that counts as reachable too. */
  predicate IsReachable(status: nat) {
    IsOK(status) || status == 401 || status == 403
  }

  /** A health probe of this very port, with this very token, succeeded. */
  predicate HealthyProbe(e: Event, port: int, token: string) {
    e.Probed? && e.port == port && e.token == Some(token) && IsOK(e.status)
  }

  ghost predicate EndsHealthy(before: seq<Event>, after: seq<Event>, port: int, token: string) {
    before < after && HealthyProbe(after[|after| - 1], port, token)
  }

  lemma EndsLater(before: seq<Event>, since: seq<Event>, after: seq<Event>, port: int, token: string)
    requires before <= since && EndsHealthy(since, after, port, token)
    ensures EndsHealthy(before, after, port, token)
  {
  }

  /** The tunnel attempts in a log. */
  ghost function Tries(log: seq<Event>): seq<Event> {
    if log == [] then [] else
      Tries(log[..|log| - 1]) + if log[|log| - 1].Tried? then [log[|log| - 1]] else []
  }

  /** Tunnel processes started and not yet signalled, oldest first. */
  ghost function Running(log: seq<Event>): seq<int> {
    if log == [] then [] else RunningAfter(Running(log[..|log| - 1]), log[|log| - 1])
  }

  ghost function RunningAfter(running: seq<int>, e: Event): seq<int> {
    if e.Spawned? && e.pid != 0 then running + [e.pid] else if e.Killed? then Stopped(running, e.pid) else running
  }

  lemma LongerUnlessEmpty(running: seq<int>, started: seq<int>)
    ensures running + started == running <==> started == []
  {
    assert |running + started| == |running| + |started|;
  }

  /** A process identifier names the process that got it last. */
  ghost function Stopped(running: seq<int>, pid: int): seq<int> {
    if running == [] then [] else
      var n := |running| - 1;
      if running[n] == pid then running[..n] else Stopped(running[..n], pid) + [running[n]]
  }

  lemma JustStarted(running: seq<int>, pid: int)
    ensures Stopped(running + [pid], pid) == running
  {
    assert (running + [pid])[..|running|] == running;
  }

  lemma LogGrows(log: seq<Event>, e: Event)
    ensures Tries(log + [e]) == Tries(log) + if e.Tried? then [e] else []
    ensures Running(log + [e]) == RunningAfter(Running(log), e)
  {
    assert (log + [e])[..|log|] == log;
  }

  // ---------- What the network will answer ----------

  /** With a token polling waits for health, without one for any answer. */
  predicate Wanted(token: Option<string>, status: nat) {
    if token.Some? then IsOK(status) else IsReachable(status)
  }

  /** Polling from `now` on: whether it succeeds before the deadline, and when it ends. */
  function Polled(env: Environment, port: int, token: Option<string>, deadline: nat, now: nat): (bool, nat)
    decreases deadline - now
  {
    if now >= deadline then (false, now)
    else
      var answered := now + env.latency(now);
      if Wanted(token, env.status(now, port, token)) then (true, answered)
      else Polled(env, port, token, deadline, answered + if token.Some? then 300 else 200)
  }

  /** When probe `n` of a polling loop starts, if none before it ends the loop. */
  function ProbeTime(env: Environment, pause: nat, now: nat, n: nat): nat {
    if n == 0 then now
    else
      var last := ProbeTime(env, pause, now, n - 1);
      last + env.latency(last) + pause
  }

  lemma {:induction false} ProbeTimesGrow(env: Environment, pause: nat, now: nat, m: nat, n: nat)
    requires m <= n
    ensures ProbeTime(env, pause, now, m) <= ProbeTime(env, pause, now, n)
    decreases n
  {
    if m < n {
      ProbeTimesGrow(env, pause, now, m, n - 1);
    }
  }

  /** A probe every 200 ms finds the port unanswered before the deadline. */
  ghost predicate ClosesBy(env: Environment, port: int, now: nat, deadline: nat) {
    exists n: nat ::
      ProbeTime(env, 200, now, n) < deadline && !IsReachable(env.status(ProbeTime(env, 200, now, n), port, None))
  }

  /** In full: some probe, 200 ms after the one before it, gets none of the answers that count as reachable. */
  lemma ClosesByIff(env: Environment, port: int, now: nat, deadline: nat)
    ensures ClosesBy(env, port, now, deadline) <==> exists n: nat :: Unanswered(env, port, now, deadline, n)
  {
    if ClosesBy(env, port, now, deadline) {
      var n: nat :| && ProbeTime(env, 200, now, n) < deadline
                    && !IsReachable(env.status(ProbeTime(env, 200, now, n), port, None));
      assert Unanswered(env, port, now, deadline, n);
    }
    if n: nat :| Unanswered(env, port, now, deadline, n) {
      assert ProbeTime(env, 200, now, n) < deadline;
    }
  }

  ghost predicate Unanswered(env: Environment, port: int, now: nat, deadline: nat, n: nat) {
    var at := ProbeTime(env, 200, now, n);
    var status := env.status(at, port, None);
    at < deadline && !(200 <= status <= 299 || status == 401 || status == 403)
  }

  lemma StaysOpen(env: Environment, port: int, now: nat, deadline: nat, n: nat)
    requires ProbeTime(env, 200, now, n) >= deadline
    requires forall m: nat :: m < n ==> IsReachable(env.status(ProbeTime(env, 200, now, m), port, None))
    ensures !ClosesBy(env, port, now, deadline)
  {
    forall m: nat | ProbeTime(env, 200, now, m) < deadline ensures m < n {
      if m >= n {
        ProbeTimesGrow(env, 200, now, n, m);
      }
    }
  }

  lemma {:induction false} ProbeTimeShifts(env: Environment, pause: nat, now: nat, n: nat)
    ensures ProbeTime(env, pause, now, n + 1) == ProbeTime(env, pause, now + env.latency(now) + pause, n)
  {
    if n > 0 {
      ProbeTimeShifts(env, pause, now, n - 1);
    }
  }

  /**
   Probe `n` comes before the deadline and gets the answer waited for: with a token
   a healthy stub, asked every 300 ms; without one any answer, asked every 200 ms.
   */
  ghost predicate Succeeds(env: Environment, port: int, token: Option<string>, deadline: nat, now: nat, n: nat) {
    var at := ProbeTime(env, if token.Some? then 300 else 200, now, n);
    var status := env.status(at, port, token);
    at < deadline && (200 <= status <= 299 || (token.None? && (status == 401 || status == 403)))
  }

  /** Polling succeeds exactly when some probe does. */
  lemma {:induction false} PolledIff(env: Environment, port: int, token: Option<string>, deadline: nat, now: nat)
    ensures Polled(env, port, token, deadline, now).0 <==> exists n: nat :: Succeeds(env, port, token, deadline, now, n)
    decreases deadline - now
  {
    var pause := if token.Some? then 300 else 200;
    if now >= deadline {
      forall n: nat ensures !Succeeds(env, port, token, deadline, now, n) {
        ProbeTimesGrow(env, pause, now, 0, n);
      }
    } else if Wanted(token, env.status(now, port, token)) {
      assert Succeeds(env, port, token, deadline, now, 0);
    } else {
      var next := now + env.latency(now) + pause;
      PolledIff(env, port, token, deadline, next);
      forall n: nat
        ensures Succeeds(env, port, token, deadline, now, n + 1) <==> Succeeds(env, port, token, deadline, next, n) {
        ProbeTimeShifts(env, pause, now, n);
      }
      if n: nat :| Succeeds(env, port, token, deadline, next, n) {
        assert Succeeds(env, port, token, deadline, now, n + 1);
      }
      if n: nat :| Succeeds(env, port, token, deadline, now, n) {
        assert n > 0 && Succeeds(env, port, token, deadline, now, (n - 1) + 1);
        assert Succeeds(env, port, token, deadline, next, n - 1);
      }
    }
  }

  /** One attempt at `now`: the process it yields, 0 for none, and when it ends. */
  function Attempted(env: Environment, timeout: nat, port: int, now: nat): (int, nat) {
    var probed := now + env.latency(now);
    if IsReachable(env.status(now, port, None)) then (0, probed)
    else
      var up := Polled(env, port, None, probed + timeout, probed);
      (if up.0 then env.spawn(probed, port) else 0, up.1)
  }

  lemma TakenIs(env: Environment, timeout: nat, port: int, now: nat)
    requires IsReachable(env.status(now, port, None))
    ensures Attempted(env, timeout, port, now) == (0, now + env.latency(now))
  {
  }

  lemma AttemptIs(env: Environment, timeout: nat, port: int, now: nat, up: bool, later: nat)
    requires !IsReachable(env.status(now, port, None))
    requires var probed := now + env.latency(now); (up, later) == Polled(env, port, None, probed + timeout, probed)
    ensures Attempted(env, timeout, port, now) == (if up then env.spawn(now + env.latency(now), port) else 0, later)
  {
  }

  /** The first port of the order whose attempt yields a process, and when the search ends. */
  function Searched(env: Environment, timeout: nat, order: seq<int>, now: nat): (Option<Tunnel>, nat) {
    if order == [] then (None, now)
    else
      var first := Attempted(env, timeout, order[0], now);
      if first.0 != 0 then (Some(Tunnel(order[0], first.0)), first.1)
      else Searched(env, timeout, order[1..], first.1)
  }

  /** When attempt `k` starts, if all the ones before it are made. */
  function StartOf(env: Environment, timeout: nat, order: seq<int>, k: nat, now: nat): nat
    requires k <= |order|
  {
    if k == 0 then now else StartOf(env, timeout, order[1..], k - 1, Attempted(env, timeout, order[0], now).1)
  }

  /**
   A search finds nothing exactly when every port of the order, at its turn, either answers already
   or does not come up.
   */
  lemma {:induction false} SearchFailsIff(env: Environment, timeout: nat, order: seq<int>, now: nat)
    ensures Searched(env, timeout, order, now).0.None? <==>
      forall k :: 0 <= k < |order| ==> Attempted(env, timeout, order[k], StartOf(env, timeout, order, k, now)).0 == 0
  {
    if order != [] {
      var later := Attempted(env, timeout, order[0], now).1;
      SearchFailsIff(env, timeout, order[1..], later);
      assert StartOf(env, timeout, order, 0, now) == now;
      forall k | 0 < k < |order|
        ensures StartOf(env, timeout, order, k, now) == StartOf(env, timeout, order[1..], k - 1, later)
        ensures order[k] == order[1..][k - 1]
      {
      }
      if forall k ::
        0 <= k < |order| ==> Attempted(env, timeout, order[k], StartOf(env, timeout, order, k, now)).0 == 0 {
        forall k | 0 <= k < |order| - 1
          ensures Attempted(env, timeout, order[1..][k], StartOf(env, timeout, order[1..], k, later)).0 == 0
        {
          assert order[k + 1] == order[1..][k];
        }
      }
    }
  }

  // ---------- Logs ----------

  /** No attempt was made, and the same processes run. */
  ghost predicate Idle(before: seq<Event>, after: seq<Event>) {
    before <= after && Tries(after) == Tries(before) && Running(after) == Running(before)
  }

  /** Polling went on for the whole time allowed without a healthy answer. */
  ghost predicate TimedOut(before: seq<Event>, after: seq<Event>, port: int, token: string, timeout: nat) {
    && before <= after && (timeout > 0 ==> before < after)
    && forall k :: |before| <= k < |after| ==> !HealthyProbe(after[k], port, token)
  }

  /** Attempts go through the ports in order and stop at the first that yields a process. */
  ghost predicate Search(tried: seq<Event>, order: seq<int>, found: Option<Tunnel>) {
    && |tried| <= |order|
    && (forall k :: 0 <= k < |tried| ==> tried[k].Tried? && tried[k].port == order[k])
    && match found
       case None => |tried| == |order| && forall k :: 0 <= k < |tried| ==> tried[k].pid == 0
       case Some(t) =>
         && |tried| > 0 && tried[|tried| - 1] == Tried(t.localPort, t.pid) && t.pid != 0
         && forall k :: 0 <= k < |tried| - 1 ==> tried[k].pid == 0
  }

  ghost predicate Misses(tried: seq<Event>, order: seq<int>) {
    |tried| <= |order| && forall k :: 0 <= k < |tried| ==> tried[k] == Tried(order[k], 0)
  }

  lemma NextAttempt(tried: seq<Event>, order: seq<int>, pid: int)
    requires Misses(tried, order) && |tried| < |order|
    ensures
      var port := order[|tried|];
      var next := tried + [Tried(port, pid)];
      if pid == 0 then Misses(next, order) else Search(next, order, Some(Tunnel(port, pid)))
  {
  }

  lemma SearchAfterMiss(port: int, tried: seq<Event>, order: seq<int>, found: Option<Tunnel>)
    requires Search(tried, order, found)
    ensures Search([Tried(port, 0)] + tried, [port] + order, found)
  {
  }

  /** The attempts made between two logs. */
  ghost function TriesSince(before: seq<Event>, after: seq<Event>): seq<Event> {
    if |Tries(before)| <= |Tries(after)| then Tries(after)[|Tries(before)|..] else []
  }

  function FoundProcess(found: Option<Tunnel>): seq<int> {
    if found.Some? then [found.value.pid] else []
  }

  /**
   A search as a whole: its tries, the one process it may leave running, and that it went as the
   network had it go.
   */
  ghost predicate Hunt(
    env: Environment, timeout: nat, order: seq<int>, before: seq<Event>, started: nat, after: seq<Event>, ended: nat,
    found: Option<Tunnel>)
  {
    && before <= after && Tries(before) <= Tries(after) && Search(TriesSince(before, after), order, found)
    && Running(after) == Running(before) + FoundProcess(found)
    && (found, ended) == Searched(env, timeout, order, started)
  }

  lemma HuntEnds(
    env: Environment, timeout: nat, order: seq<int>, before: seq<Event>, started: nat, after: seq<Event>, ended: nat,
    tried: seq<Event>, found: Option<Tunnel>)
    requires before <= after && Tries(after) == Tries(before) + tried && Search(tried, order, found)
    requires Running(after) == Running(before) + FoundProcess(found)
    requires (found, ended) == Searched(env, timeout, order, started)
    ensures Hunt(env, timeout, order, before, started, after, ended, found)
  {
    assert TriesSince(before, after) == tried;
  }

  lemma SearchedFrom(env: Environment, timeout: nat, order: seq<int>, k: nat, now: nat)
    requires k < |order|
    ensures
      var (pid, ended) := Attempted(env, timeout, order[k], now);
      Searched(env, timeout, order[k..], now) ==
      if pid != 0 then (Some(Tunnel(order[k], pid)), ended) else Searched(env, timeout, order[k + 1..], ended)
  {
    assert order[k..][0] == order[k] && order[k..][1..] == order[k + 1..];
  }

  /** Where a search stands after some attempts that yielded nothing. */
  ghost predicate Trying(
    env: Environment, timeout: nat, order: seq<int>, before: seq<Event>, began: nat, log: seq<Event>, now: nat,
    tried: seq<Event>)
  {
    && before <= log && Tries(log) == Tries(before) + tried && Running(log) == Running(before) && Misses(tried, order)
    && Searched(env, timeout, order, began) == Searched(env, timeout, order[|tried|..], now)
  }

  lemma TryNext(
    env: Environment, timeout: nat, order: seq<int>, before: seq<Event>, began: nat, last: seq<Event>, at: nat,
    tried: seq<Event>, log: seq<Event>, now: nat, pid: int)
    requires Trying(env, timeout, order, before, began, last, at, tried) && |tried| < |order|
    requires Trial(last, log, order[|tried|], pid) && (pid, now) == Attempted(env, timeout, order[|tried|], at)
    ensures
      var port := order[|tried|];
      var next := tried + [Tried(port, pid)];
      if pid == 0 then Trying(env, timeout, order, before, began, log, now, next)
      else Hunt(env, timeout, order, before, began, log, now, Some(Tunnel(port, pid)))
  {
    var next := tried + [Tried(order[|tried|], pid)];
    SearchedFrom(env, timeout, order, |tried|, at);
    NextAttempt(tried, order, pid);
    assert Tries(log) == Tries(before) + next;
    if pid != 0 {
      HuntEnds(env, timeout, order, before, began, log, now, next, Some(Tunnel(order[|tried|], pid)));
    }
  }

  lemma HuntAtOnce(
    env: Environment, timeout: nat, port: int, order: seq<int>, before: seq<Event>, started: nat, after: seq<Event>,
    ended: nat, pid: int)
    requires Trial(before, after, port, pid) && pid != 0 && (pid, ended) == Attempted(env, timeout, port, started)
    ensures Hunt(env, timeout, [port] + order, before, started, after, ended, Some(Tunnel(port, pid)))
  {
    assert TriesSince(before, after) == [Tried(port, pid)];
    assert ([port] + order)[0] == port;
  }

  lemma HuntAfterMiss(
    env: Environment, timeout: nat, port: int, order: seq<int>, before: seq<Event>, started: nat, between: seq<Event>,
    later: nat,
    after: seq<Event>, ended: nat, found: Option<Tunnel>)
    requires before <= between && Tries(between) == Tries(before) + [Tried(port, 0)]
    requires Running(between) == Running(before)
    requires (0, later) == Attempted(env, timeout, port, started)
    requires Hunt(env, timeout, order, between, later, after, ended, found)
    ensures Hunt(env, timeout, [port] + order, before, started, after, ended, found)
  {
    TriesAfterMiss(before, between, after, port);
    SearchAfterMiss(port, TriesSince(between, after), order, found);
    SearchedAfterMiss(env, timeout, port, order, started);
  }

  lemma TriesAfterMiss(before: seq<Event>, between: seq<Event>, after: seq<Event>, port: int)
    requires Tries(between) == Tries(before) + [Tried(port, 0)] && Tries(between) <= Tries(after)
    ensures Tries(before) <= Tries(after) && TriesSince(before, after) == [Tried(port, 0)] + TriesSince(between, after)
  {
  }

  lemma SearchedAfterMiss(env: Environment, timeout: nat, port: int, order: seq<int>, now: nat)
    requires Attempted(env, timeout, port, now).0 == 0
    ensures Searched(env, timeout, [port] + order, now) ==
      Searched(env, timeout, order, Attempted(env, timeout, port, now).1)
  {
    assert ([port] + order)[0] == port && ([port] + order)[1..] == order;
  }

  ghost function SearchOrder(start: int, end: int, workspaceID: string, host: string): seq<int> {
    if start > end then [] else ProbeOrder(start, end, InitialPort(start, end, workspaceID, host))
  }

  /** When the search gives up, every port of the range has failed in exactly one attempt. */
  lemma GivingUpMeansEveryPortFailedOnce(
    tried: seq<Event>, start: int, end: int, workspaceID: string, host: string, port: int)
    requires Search(tried, SearchOrder(start, end, workspaceID, host), None) && start <= port <= end
    ensures exists k :: 0 <= k < |tried| && tried[k] == Tried(port, 0)
    ensures forall j, k :: 0 <= j < k < |tried| ==> tried[j].port != tried[k].port
  {
    var initial := InitialPort(start, end, workspaceID, host);
    ProbeOrderIsPermutation(start, end, initial);
    var order := ProbeOrder(start, end, initial);
    assert port in order;
    var k :| 0 <= k < |order| && order[k] == port;
    assert tried[k] == Tried(port, 0);
  }

  /** A found port is the cyclically first one, counted from the hashed start, whose attempt succeeded. */
  lemma FoundIsCyclicallyFirst(
    tried: seq<Event>, start: int, end: int, workspaceID: string, host: string, t: Tunnel, port: int)
    requires Search(tried, SearchOrder(start, end, workspaceID, host), Some(t)) && start <= end
    requires
      var initial := InitialPort(start, end, workspaceID, host);
      if initial <= t.localPort then initial <= port < t.localPort
        else initial <= port <= end || start <= port < t.localPort
    ensures start <= t.localPort <= end && Tried(port, 0) in tried
  {
    var initial, n := InitialPort(start, end, workspaceID, host), |tried| - 1;
    var span := end - start + 1;
    var order := ProbeOrder(start, end, initial);
    ProbesFromAt(start, end, initial, 0);
    PortAtIsCyclic(start, end, initial, n);
    var k := if initial <= port then port - initial else port - initial + span;
    assert t.localPort == order[n] == PortAt(start, end, initial, n);
    assert k < n;
    PortAtIsCyclic(start, end, initial, k);
    assert tried[k] == Tried(order[k], 0) && order[k] == port;
  }

  /**
   One attempt: a port that already answers is never taken; a process is reported
   only after its own port answered; one that is not reported is stopped.
   */
  ghost predicate Attempt(before: seq<Event>, after: seq<Event>, port: int, pid: int) {
    && |before| + 1 < |after| && before < after && after[|after| - 1] == Tried(port, pid)
    && if pid == 0 then Declined(before, after[..|after| - 1], port)
          else Opened(before, after[..|after| - 1], port, pid)
  }

  ghost predicate Opened(before: seq<Event>, after: seq<Event>, port: int, pid: int) {
    && |before| + 2 < |after| && SawPort(after[|before|], port, false) && SawPort(after[|after| - 1], port, true)
    && after[|before| + 1] == Spawned(port, pid)
  }

  ghost predicate Declined(before: seq<Event>, after: seq<Event>, port: int) {
    && |before| < |after| && after[|before|].Probed?
    && if SawPort(after[|before|], port, true) then |after| == |before| + 1 else
         && |before| + 1 < |after| && SawPort(after[|before|], port, false) && after[|before| + 1].Spawned?
         && (after[|before| + 1].pid == 0 || after[|after| - 1] == Killed(after[|before| + 1].pid))
  }

  ghost predicate SawPort(e: Event, port: int, reachable: bool) {
    e.Probed? && e.port == port && e.token.None? && IsReachable(e.status) == reachable
  }

  /** What an attempt adds to a log that waited for the port of a started process. */
  ghost function Verdict(port: int, pid: int, up: bool): seq<Event> {
    if up then [Tried(port, pid)] else if pid == 0 then [Tried(port, 0)] else [Killed(pid), Tried(port, 0)]
  }

  lemma SpawnCounts(probed: seq<Event>, waited: seq<Event>, port: int, pid: int, up: bool)
    requires Idle(probed + [Spawned(port, pid)], waited)
    ensures Tries(waited + Verdict(port, pid, up)) == Tries(probed) + [Tried(port, if up then pid else 0)]
    ensures Running(waited + Verdict(port, pid, up)) == Running(probed) + if up && pid != 0 then [pid] else []
  {
    LogGrows(probed, Spawned(port, pid));
    if up || pid == 0 {
      LogGrows(waited, Tried(port, pid));
    } else {
      StopCounts(waited, port, pid);
      JustStarted(Running(probed), pid);
    }
  }

  lemma StopCounts(waited: seq<Event>, port: int, pid: int)
    requires pid != 0
    ensures Tries(waited + Verdict(port, pid, false)) == Tries(waited) + [Tried(port, 0)]
    ensures Running(waited + Verdict(port, pid, false)) == Stopped(Running(waited), pid)
  {
    LogGrows(waited, Killed(pid));
    LogGrows(waited + [Killed(pid)], Tried(port, 0));
    assert waited + [Killed(pid)] + [Tried(port, 0)] == waited + Verdict(port, pid, false);
  }

  lemma SpawnShape(probed: seq<Event>, waited: seq<Event>, port: int, pid: int, up: bool)
    requires |probed| > 0 && SawPort(probed[|probed| - 1], port, false)
    requires probed + [Spawned(port, pid)] <= waited
    requires up ==> |probed| + 1 < |waited| && SawPort(waited[|waited| - 1], port, true)
    ensures Attempt(probed[..|probed| - 1], waited + Verdict(port, pid, up), port, if up then pid else 0)
  {
    var before, after := probed[..|probed| - 1], waited + Verdict(port, pid, up);
    assert waited[|probed|] == Spawned(port, pid);
    assert after[|before|] == probed[|before|] && after[|before| + 1] == Spawned(port, pid);
    assert after[..|after| - 1] == if up || pid == 0 then waited else waited + [Killed(pid)];
  }

  /** An attempt as a whole: its shape, the one try it counts as, and the one process it may leave running. */
  ghost predicate Trial(before: seq<Event>, after: seq<Event>, port: int, pid: int) {
    && Attempt(before, after, port, pid) && Tries(after) == Tries(before) + [Tried(port, pid)]
    && Running(after) == Running(before) + if pid == 0 then [] else [pid]
  }

  lemma TakenTrial(before: seq<Event>, probed: seq<Event>, port: int)
    requires |probed| > 0 && before == probed[..|probed| - 1] && SawPort(probed[|probed| - 1], port, true)
    requires Idle(before, probed)
    ensures Trial(before, probed + [Tried(port, 0)], port, 0)
  {
    LogGrows(probed, Tried(port, 0));
    assert (probed + [Tried(port, 0)])[..|probed|] == probed;
  }

  lemma SpawnTrial(before: seq<Event>, probed: seq<Event>, waited: seq<Event>, port: int, pid: int, up: bool)
    requires |probed| > 0 && before == probed[..|probed| - 1] && SawPort(probed[|probed| - 1], port, false)
    requires Idle(before, probed)
    requires Idle(probed + [Spawned(port, pid)], waited)
    requires up ==> |probed| + 1 < |waited| && SawPort(waited[|waited| - 1], port, true)
    ensures Trial(before, waited + Verdict(port, pid, up), port, if up then pid else 0)
  {
    SpawnCounts(probed, waited, port, pid, up);
    SpawnShape(probed, waited, port, pid, up);
  }

  // ---------- Outcomes as values ----------

  datatype Recovery =
    | StillHealthy
    | Reopened(localPort: int, tunnelPID: int)
    | NoTunnel
    | Unhealthy(tunnelPID: int) // a tunnel came up, the stub behind it did not

  function Recovered(b: Binding, r: Recovery): Option<Binding> {
    match r
    case StillHealthy => Some(b)
    case Reopened(localPort, pid) => Some(b.(localPort := localPort, tunnelPID := Some(pid), status := Ready))
    case _ => None
  }

  /** The processes a recovery starts and leaves running. */
  function RecoveryProcess(r: Recovery): seq<int> {
    match r
    case Reopened(_, pid) => [pid]
    case Unhealthy(pid) => [pid]
    case _ => []
  }

  datatype Boot =
    | Unprepared
    | NoPort
    | NeverHealthy(tunnelPID: int)
    | Booted(remotePort: int, localPort: int, token: string, tunnelPID: int)

  /** The processes a bootstrap starts and leaves running. */
  function BootProcess(boot: Boot): seq<int> {
    match boot
    case NeverHealthy(pid) => [pid]
    case Booted(_, _, _, pid) => [pid]
    case _ => []
  }


  // ---------- How a bootstrap or a recovery will end ----------

  /** A tunnel on the first free port of an order, and a healthy answer through it. */
  datatype Opening = Shut | Silent(tunnel: Tunnel) | Open(tunnel: Tunnel)

  function OpeningAt(env: Environment, timing: Timing, order: seq<int>, token: string, now: nat): Opening {
    var search := Searched(env, timing.connect, order, now);
    match search.0
    case None => Shut
    case Some(tunnel) =>
      var healthy := Polled(env, tunnel.localPort, Some(token), search.1 + timing.health, search.1);
      if healthy.0 then Open(tunnel) else Silent(tunnel)
  }

  function OpeningOf(found: Option<Tunnel>, healthy: bool): Opening {
    match found
    case None => Shut
    case Some(tunnel) => if healthy then Open(tunnel) else Silent(tunnel)
  }


  function OpeningProcess(o: Opening): seq<int> {
    match o
    case Shut => []
    case Silent(tunnel) => [tunnel.pid]
    case Open(tunnel) => [tunnel.pid]
  }

  /** A bootstrap as a whole, once everything is prepared: it ends as the network has it end, and the log shows it. */
  ghost predicate Boots(
    env: Environment, timing: Timing, order: seq<int>, token: string, remotePort: int, before: seq<Event>, started: nat,
    after: seq<Event>, boot: Boot)
  {
    var opening := OpeningAt(env, timing, order, token, started);
    && boot == BootOf(opening, remotePort, token) && Opens(before, after, order, token, timing.health, opening)
    && Running(after) == Running(before) + BootProcess(boot)
    && (boot.Booted? ==> EndsHealthy(before, after, boot.localPort, token))
  }

  lemma BootsBy(
    env: Environment, timing: Timing, order: seq<int>, token: string, remotePort: int, before: seq<Event>, started: nat,
    after: seq<Event>, opening: Opening)
    requires opening == OpeningAt(env, timing, order, token, started)
    requires Opens(before, after, order, token, timing.health, opening)
    ensures Boots(env, timing, order, token, remotePort, before, started, after, BootOf(opening, remotePort, token))
  {
  }

  /**
   What a log shows of an opening: the search, then a healthy answer through the port found, or none
   in all the time allowed.
   */
  ghost predicate Opens(
    before: seq<Event>, after: seq<Event>, order: seq<int>, token: string, timeout: nat, o: Opening)
  {
    && before <= after && Running(after) == Running(before) + OpeningProcess(o)
    && match o
       case Shut => Search(TriesSince(before, after), order, None)
       case Silent(tunnel) =>
         && Search(TriesSince(before, after), order, Some(tunnel))
         && exists since :: before <= since && TimedOut(since, after, tunnel.localPort, token, timeout)
       case Open(tunnel) =>
         && Search(TriesSince(before, after), order, Some(tunnel))
         && EndsHealthy(before, after, tunnel.localPort, token)
  }

  lemma NothingFound(
    env: Environment, timing: Timing, order: seq<int>, token: string, before: seq<Event>, started: nat,
    after: seq<Event>, ended: nat)
    requires Hunt(env, timing.connect, order, before, started, after, ended, None)
    ensures OpeningAt(env, timing, order, token, started) == Shut
    ensures Opens(before, after, order, token, timing.health, Shut)
  {
  }

  lemma WaitedBehind(
    env: Environment, timing: Timing, order: seq<int>, token: string, before: seq<Event>, started: nat,
    since: seq<Event>, later: nat,
    after: seq<Event>, tunnel: Tunnel, healthy: bool)
    requires Hunt(env, timing.connect, order, before, started, since, later, Some(tunnel)) && Idle(since, after)
    requires healthy == Polled(env, tunnel.localPort, Some(token), later + timing.health, later).0
    requires if healthy then EndsHealthy(since, after, tunnel.localPort, token)
      else TimedOut(since, after, tunnel.localPort, token, timing.health)
    ensures
      var opening := OpeningOf(Some(tunnel), healthy);
      OpeningAt(env, timing, order, token, started) == opening
        && Opens(before, after, order, token, timing.health, opening)
  {
    OpeningIs(env, timing, order, token, started, tunnel, later, healthy);
    OpensAfter(before, since, after, order, token, timing.health, tunnel, healthy);
  }

  lemma OpeningIs(
    env: Environment, timing: Timing, order: seq<int>, token: string, now: nat, tunnel: Tunnel, later: nat,
    healthy: bool)
    requires (Some(tunnel), later) == Searched(env, timing.connect, order, now)
    requires healthy == Polled(env, tunnel.localPort, Some(token), later + timing.health, later).0
    ensures OpeningAt(env, timing, order, token, now) == OpeningOf(Some(tunnel), healthy)
  {
  }

  lemma OpensAfter(
    before: seq<Event>, since: seq<Event>, after: seq<Event>, order: seq<int>, token: string, timeout: nat,
    tunnel: Tunnel, healthy: bool)
    requires before <= since && Idle(since, after)
    requires Search(TriesSince(before, since), order, Some(tunnel)) && Running(since) == Running(before) + [tunnel.pid]
    requires if healthy then EndsHealthy(since, after, tunnel.localPort, token)
      else TimedOut(since, after, tunnel.localPort, token, timeout)
    ensures Opens(before, after, order, token, timeout, OpeningOf(Some(tunnel), healthy))
  {
    assert TriesSince(before, after) == TriesSince(before, since);
  }

  function BootOf(opening: Opening, remotePort: int, token: string): Boot {
    match opening
    case Shut => NoPort
    case Silent(tunnel) => NeverHealthy(tunnel.pid)
    case Open(tunnel) => Booted(remotePort, tunnel.localPort, token, tunnel.pid)
  }

  function RecoveryOf(opening: Opening): Recovery {
    match opening
    case Shut => NoTunnel
    case Silent(tunnel) => Unhealthy(tunnel.pid)
    case Open(tunnel) => Reopened(tunnel.localPort, tunnel.pid)
  }

  /** A binding whose port answers health is kept as it is; else its port is tried first. */
  function ReconnectAt(env: Environment, timing: Timing, order: seq<int>, b: Binding, now: nat): Recovery {
    if IsOK(env.status(now, b.localPort, Some(b.token))) then StillHealthy
    else RecoveryOf(OpeningAt(env, timing, [b.localPort] + order, b.token, now + env.latency(now)))
  }

  /** Recovery asks once, and reconnecting asks again. */
  function RecoveryAt(env: Environment, timing: Timing, order: seq<int>, b: Binding, now: nat): Recovery {
    if IsOK(env.status(now, b.localPort, Some(b.token))) then StillHealthy
    else ReconnectAt(env, timing, order, b, now + env.latency(now))
  }

  /** Every port of the order, at its turn, answers already or does not come up. */
  ghost predicate AllDecline(env: Environment, timing: Timing, order: seq<int>, now: nat) {
    forall k ::
      0 <= k < |order| ==> Attempted(env, timing.connect, order[k], StartOf(env, timing.connect, order, k, now)).0 == 0
  }

  lemma OpeningLeavesIff(env: Environment, timing: Timing, order: seq<int>, token: string, now: nat)
    ensures
      var o := OpeningAt(env, timing, order, token, now);
      && (o.Shut? <==> AllDecline(env, timing, order, now))
      && (OpeningProcess(o) == [] <==> o.Shut?) && OpeningProcess(o) == RecoveryProcess(RecoveryOf(o))
  {
    SearchFailsIff(env, timing.connect, order, now);
  }

  /**
   A bootstrap that fails after its preparation leaves no process behind exactly
   when no port comes up at its turn: a tunnel in front of a stub that never gets
   healthy is not taken down again.
   */
  lemma FailureLeavesNoProcessIff(
    env: Environment, timing: Timing, order: seq<int>, remotePort: int, token: string, now: nat)
    ensures
      var boot := BootOf(OpeningAt(env, timing, order, token, now), remotePort, token);
      && (AllDecline(env, timing, order, now) <==> boot.NoPort?)
      && (BootProcess(boot) == [] <==> AllDecline(env, timing, order, now))
  {
    OpeningLeavesIff(env, timing, order, token, now);
  }

  /** The same for a recovery, which first asks twice whether there is anything to do. */
  lemma RecoveryLeavesNoProcessIff(env: Environment, timing: Timing, order: seq<int>, b: Binding, now: nat)
    ensures
      var again := now + env.latency(now);
      RecoveryProcess(RecoveryAt(env, timing, order, b, now)) == [] <==>
        || IsOK(env.status(now, b.localPort, Some(b.token)))
        || IsOK(env.status(again, b.localPort, Some(b.token)))
        || AllDecline(env, timing, [b.localPort] + order, again + env.latency(again))
  {
    var again := now + env.latency(now);
    if !IsOK(env.status(now, b.localPort, Some(b.token))) && !IsOK(env.status(again, b.localPort, Some(b.token))) {
      RecoveryLeavesItsOpening(env, timing, order, b, now);
      OpeningLeavesIff(env, timing, [b.localPort] + order, b.token, again + env.latency(again));
    } else {
      assert RecoveryAt(env, timing, order, b, now) == StillHealthy;
    }
  }

  lemma RecoveryLeavesItsOpening(env: Environment, timing: Timing, order: seq<int>, b: Binding, now: nat)
    requires !IsOK(env.status(now, b.localPort, Some(b.token)))
    requires !IsOK(env.status(now + env.latency(now), b.localPort, Some(b.token)))
    ensures
      var again := now + env.latency(now);
      RecoveryProcess(RecoveryAt(env, timing, order, b, now)) ==
      OpeningProcess(OpeningAt(env, timing, [b.localPort] + order, b.token, again + env.latency(again)))
  {
    RecoveryIsReconnect(env, timing, order, b, now);
    ReconnectIsOpening(env, timing, order, b, now + env.latency(now));
  }

  /**
   What a log shows of a recovery: the port answered at once, or after one or two
   probes it was opened again; a binding handed out answered as the last act.
   */
  ghost predicate Recovers(
    before: seq<Event>, after: seq<Event>, order: seq<int>, b: Binding, timeout: nat, recovery: Recovery)
  {
    && before <= after && Running(after) == Running(before) + RecoveryProcess(recovery)
    && (Recovered(b, recovery).Some? ==> EndsHealthy(before, after, Recovered(b, recovery).value.localPort, b.token))
    && if recovery.StillHealthy? then Idle(before, after)
       else exists o, probed ::
         recovery == RecoveryOf(o) && Idle(before, probed) && Opens(probed, after, order, b.token, timeout, o)
  }

  lemma RecoversBy(
    before: seq<Event>, probed: seq<Event>, after: seq<Event>, order: seq<int>, b: Binding, timeout: nat,
    o: Opening)
    requires Idle(before, probed) && Opens(probed, after, order, b.token, timeout, o)
    ensures Recovers(before, after, order, b, timeout, RecoveryOf(o))
  {
  }

  lemma ReconnectsBy(
    env: Environment, timing: Timing, fallback: seq<int>, b: Binding, now: nat, before: seq<Event>,
    probed: seq<Event>, after: seq<Event>,
    o: Opening)
    requires !IsOK(env.status(now, b.localPort, Some(b.token))) && Idle(before, probed)
    requires o == OpeningAt(env, timing, [b.localPort] + fallback, b.token, now + env.latency(now))
    requires Opens(probed, after, [b.localPort] + fallback, b.token, timing.health, o)
    ensures ReconnectAt(env, timing, fallback, b, now) == RecoveryOf(o)
    ensures Recovers(before, after, [b.localPort] + fallback, b, timing.health, RecoveryOf(o))
  {
    ReconnectIsOpening(env, timing, fallback, b, now);
    RecoversBy(before, probed, after, [b.localPort] + fallback, b, timing.health, o);
  }

  lemma RecoversLater(
    before: seq<Event>, probed: seq<Event>, after: seq<Event>, order: seq<int>, b: Binding, timeout: nat,
    r: Recovery)
    requires Idle(before, probed) && Recovers(probed, after, order, b, timeout, r)
    ensures Recovers(before, after, order, b, timeout, r)
  {
    if !r.StillHealthy? {
      var o, later :| r == RecoveryOf(o) && Idle(probed, later) && Opens(later, after, order, b.token, timeout, o);
      assert Idle(before, later);
    }
  }

  lemma AnswersAtOnce(
    env: Environment, timing: Timing, order: seq<int>, b: Binding, now: nat, before: seq<Event>, after: seq<Event>,
    fallback: seq<int>)
    requires IsOK(env.status(now, b.localPort, Some(b.token))) && Idle(before, after)
    requires EndsHealthy(before, after, b.localPort, b.token)
    ensures ReconnectAt(env, timing, order, b, now) == RecoveryAt(env, timing, order, b, now) == StillHealthy
    ensures Recovers(before, after, fallback, b, timing.health, StillHealthy)
  {
  }

  lemma RecoveryIsReconnect(env: Environment, timing: Timing, order: seq<int>, b: Binding, now: nat)
    requires !IsOK(env.status(now, b.localPort, Some(b.token)))
    ensures RecoveryAt(env, timing, order, b, now) == ReconnectAt(env, timing, order, b, now + env.latency(now))
  {
  }

  lemma ReconnectIsOpening(env: Environment, timing: Timing, order: seq<int>, b: Binding, now: nat)
    requires !IsOK(env.status(now, b.localPort, Some(b.token)))
    ensures ReconnectAt(env, timing, order, b, now) ==
      RecoveryOf(OpeningAt(env, timing, [b.localPort] + order, b.token, now + env.latency(now)))
  {
  }

  /** Closing the binding's tunnel at `now` signals its process. */
  predicate Signals(env: Environment, now: nat, b: Binding) {
    b.tunnelPID.Some? && b.tunnelPID.value != 0 && env.kill(now, b.tunnelPID.value)
  }

  /** The signal is sent, if there is a process to send it to and it can be sent. */
  predicate KillWorks(env: Environment, now: nat, b: Binding) {
    match b.tunnelPID
    case None => false
    case Some(pid) => pid != 0 && env.kill(now, pid)
  }

  /**
   What closing a tunnel does.  A signal that works is logged first, and the port
   has five seconds to stop answering.  Without one no process is signalled, and a
   port that answers at once fails it; if there was a process to signal, the port
   must then be seen not to answer within five seconds, too.
   */
  ghost predicate Closing(
    env: Environment, b: Binding, now: nat, before: seq<Event>, after: seq<Event>, closed: bool)
  {
    && before < after && SawPort(after[|after| - 1], b.localPort, !closed) && Tries(after) == Tries(before)
    && Running(after) == (if Signals(env, now, b) then Stopped(Running(before), b.tunnelPID.value) else Running(before))
    && if KillWorks(env, now, b) then
         && after[|before|] == Killed(b.tunnelPID.value)
               && Running(after) == Stopped(Running(before), b.tunnelPID.value)
         && (closed <==> ClosesBy(env, b.localPort, now, now + 5000))
       else
         var answers, later := IsReachable(env.status(now, b.localPort, None)), now + env.latency(now);
         && (forall k :: |before| <= k < |after| ==> after[k].Probed?) && Running(after) == Running(before)
         && SawPort(after[|before|], b.localPort, answers)
         && if answers then !closed && |after| == |before| + 1
            else if b.tunnelPID.None? || b.tunnelPID.value == 0 then closed && |after| == |before| + 1
            else closed <==> ClosesBy(env, b.localPort, later, later + 5000)
  }

  lemma ClosingAtOnce(env: Environment, b: Binding, now: nat, before: seq<Event>, after: seq<Event>, closed: bool)
    requires !KillWorks(env, now, b) && Idle(before, after) && |after| > 0 && before == after[..|after| - 1]
    requires SawPort(after[|after| - 1], b.localPort, !closed)
    requires closed == !IsReachable(env.status(now, b.localPort, None))
    requires closed ==> b.tunnelPID.None? || b.tunnelPID.value == 0
    ensures Closing(env, b, now, before, after, closed)
  {
  }

  lemma ClosingWaits(
    env: Environment, b: Binding, now: nat, before: seq<Event>, begun: seq<Event>, after: seq<Event>, closed: bool)
    requires b.tunnelPID.Some? && b.tunnelPID.value != 0 && Idle(begun, after) && begun < after
    requires SawPort(after[|after| - 1], b.localPort, !closed) && forall k ::
      |begun| <= k < |after| ==> after[k].Probed?
    requires |begun| > 0 && before == begun[..|begun| - 1]
    requires
      if KillWorks(env, now, b) then
        begun[|begun| - 1] == Killed(b.tunnelPID.value) && (closed <==> ClosesBy(env, b.localPort, now, now + 5000))
      else
        var later := now + env.latency(now);
        && SawPort(begun[|begun| - 1], b.localPort, false) && !IsReachable(env.status(now, b.localPort, None))
        && Idle(before, begun) && (closed <==> ClosesBy(env, b.localPort, later, later + 5000))
    ensures Closing(env, b, now, before, after, closed)
  {
    if KillWorks(env, now, b) {
      assert begun == before + [Killed(b.tunnelPID.value)];
      LogGrows(before, Killed(b.tunnelPID.value));
    }
    assert after[|before|] == begun[|before|];
  }

  class SSHManager {
    const env: Environment
    const start: int
    const end: int
    const stubPort: int
    const timing: Timing
    var now: nat
    ghost var log: seq<Event>

    constructor (env: Environment, start: int, end: int, stubPort: int, timing: Timing, now: nat)
      ensures this.env == env && this.start == start && this.end == end && this.stubPort == stubPort
      ensures this.timing == timing && this.now == now && log == []
    {
      this.env, this.start, this.end, this.stubPort := env, start, end, stubPort;
      this.timing, this.now, log := timing, now, [];
    }

    /** One GET of /global/health. */
    method Fetch(port: int, token: Option<string>) returns (status: nat)
      modifies this
      ensures log == old(log) + [Probed(port, token, status)]
      ensures Idle(old(log), log)
      ensures status == env.status(old(now), port, token) && now == old(now) + env.latency(old(now))
    {
      status := env.status(now, port, token);
      now := now + env.latency(now);
      LogGrows(log, Probed(port, token, status));
      log := log + [Probed(port, token, status)];
    }

    method IsPortReachable(port: int) returns (reachable: bool)
      modifies this
      ensures |log| > 0 && old(log) == log[..|log| - 1] && SawPort(log[|log| - 1], port, reachable)
      ensures Idle(old(log), log)
      ensures reachable == IsReachable(env.status(old(now), port, None)) && now == old(now) + env.latency(old(now))
      ensures var status := env.status(old(now), port, None);
        reachable <==> (200 <= status <= 299 || status == 401 || status == 403)
    {
      var status := Fetch(port, None);
      reachable := IsReachable(status);
    }

    method IsHealthReachable(port: int, token: string) returns (healthy: bool)
      modifies this
      ensures |log| > 0 && old(log) == log[..|log| - 1] && (healthy ==> EndsHealthy(old(log), log, port, token))
      ensures Idle(old(log), log)
      ensures healthy == IsOK(env.status(old(now), port, Some(token))) && now == old(now) + env.latency(old(now))
      ensures healthy <==> 200 <= env.status(old(now), port, Some(token)) <= 299
    {
      var status := Fetch(port, Some(token));
      healthy := IsOK(status);
    }

    /** Polls until the deadline; false stands for the thrown error. */
    method WaitForHealth(port: int, token: string) returns (healthy: bool)
      modifies this
      ensures Idle(old(log), log)
      ensures healthy ==> EndsHealthy(old(log), log, port, token)
      ensures !healthy ==> TimedOut(old(log), log, port, token, timing.health) && now >= old(now) + timing.health
      ensures (healthy, now) == Polled(env, port, Some(token), old(now) + timing.health, old(now))
    {
      var deadline := now + timing.health;
      ghost var outcome := Polled(env, port, Some(token), deadline, now);
      while now < deadline
        invariant Idle(old(log), log)
        invariant now >= old(now) && TimedOut(old(log), log, port, token, now - old(now))
        invariant outcome == Polled(env, port, Some(token), deadline, now)
        decreases deadline - now
      {
        var status := Fetch(port, Some(token));
        if IsOK(status) {
          return true;
        }
        now := now + 300;
      }
      return false;
    }

    method WaitForPortReachable(port: int) returns (reachable: bool)
      modifies this
      ensures Idle(old(log), log)
      ensures reachable || timing.connect > 0 ==>
        old(log) < log && SawPort(log[|log| - 1], port, reachable)
      ensures !reachable ==> now >= old(now) + timing.connect
      ensures (reachable, now) == Polled(env, port, None, old(now) + timing.connect, old(now))
    {
      var deadline := now + timing.connect;
      ghost var outcome := Polled(env, port, None, deadline, now);
      while now < deadline
        invariant Idle(old(log), log) && now >= old(now)
        invariant now > old(now) ==>
          old(log) < log && SawPort(log[|log| - 1], port, false)
        invariant outcome == Polled(env, port, None, deadline, now)
        decreases deadline - now
      {
        reachable := IsPortReachable(port);
        if reachable {
          return true;
        }
        now := now + 200;
      }
      return false;
    }

    method WaitForPortClosed(port: int) returns (closed: bool)
      modifies this
      ensures Idle(old(log), log)
      ensures old(log) < log && SawPort(log[|log| - 1], port, !closed)
      ensures closed <==> ClosesBy(env, port, old(now), old(now) + 5000)
      ensures forall k :: |old(log)| <= k < |log| ==> log[k].Probed?
    {
      var deadline := now + 5000;
      ghost var n: nat := 0;
      while now < deadline
        invariant Idle(old(log), log) && now >= old(now) && now == ProbeTime(env, 200, old(now), n)
        invariant forall m: nat :: m < n ==> IsReachable(env.status(ProbeTime(env, 200, old(now), m), port, None))
        invariant forall k :: |old(log)| <= k < |log| ==> log[k].Probed?
        invariant now > old(now) ==>
          old(log) < log && SawPort(log[|log| - 1], port, true)
        decreases deadline - now
      {
        var reachable := IsPortReachable(port);
        if !reachable {
          return true;
        }
        now := now + 200;
        n := n + 1;
      }
      StaysOpen(env, port, old(now), deadline, n);
      return false;
    }

    method TryStartTunnel(port: int) returns (pid: int)
      modifies this
      ensures Trial(old(log), log, port, pid)
      ensures (pid, now) == Attempted(env, timing.connect, port, old(now))
    {
      var taken := IsPortReachable(port);
      ghost var probed := log;
      if taken {
        TakenIs(env, timing.connect, port, old(now));
        TakenTrial(old(log), log, port);
        log := log + [Tried(port, 0)];
        return 0;
      }
      pid := env.spawn(now, port);
      log := log + [Spawned(port, pid)];
      var up := WaitForPortReachable(port);
      AttemptIs(env, timing.connect, port, old(now), up, now);
      SpawnTrial(old(log), probed, log, port, pid, up);
      log := log + Verdict(port, pid, up);
      if !up {
        pid := 0;
      }
    }

    /** Tries every port of the range once, cyclically from the hashed one; None stands for the thrown error. */
    method EnsureTunnel(workspaceID: string, host: string) returns (found: Option<Tunnel>)
      modifies this
      ensures Hunt(env, timing.connect, SearchOrder(start, end, workspaceID, host), old(log), old(now), log, now, found)
      ensures found.Some? ==> start <= found.value.localPort <= end
    {
      var span := end - start + 1;
      ghost var tried: seq<Event> := [];
      var hashed := AllocateInitialLocalPort(start, end, workspaceID, host);
      if span <= 0 {
        return None;
      }
      var initial := hashed.value;
      ghost var order, timeout, before, began := ProbeOrder(start, end, initial), timing.connect, log, now;
      ProbesFromAt(start, end, initial, 0);
      assert order[0..] == order;
      for attempt := 0 to span
        invariant |tried| == attempt && Trying(env, timeout, order, before, began, log, now, tried)
      {
        var port := PortAt(start, end, initial, attempt);
        assert start <= port <= end && port == order[attempt];
        ghost var last, at := log, now;
        var pid := TryStartTunnel(port);
        TryNext(env, timeout, order, before, began, last, at, tried, log, now, pid);
        tried := tried + [Tried(port, pid)];
        if pid != 0 {
          return Some(Tunnel(port, pid));
        }
      }
      HuntEnds(env, timeout, order, before, began, log, now, tried, None);
      return None;
    }

    /** The binding's own port first, then the whole range. */
    method EnsureSpecificOrFallbackTunnel(
      workspaceID: string, host: string, preferred: int)
      returns (found: Option<Tunnel>)
      modifies this
      ensures
        Hunt(env, timing.connect, [preferred] + SearchOrder(start, end, workspaceID, host), old(log), old(now), log,
          now, found)
    {
      ghost var order := SearchOrder(start, end, workspaceID, host);
      var pid := TryStartTunnel(preferred);
      if pid != 0 {
        HuntAtOnce(env, timing.connect, preferred, order, old(log), old(now), log, now, pid);
        return Some(Tunnel(preferred, pid));
      }
      ghost var between, later := log, now;
      found := EnsureTunnel(workspaceID, host);
      HuntAfterMiss(env, timing.connect, preferred, order, old(log), old(now), between, later, log, now, found);
    }

    /**
     Whichever way the binding is recovered, the port handed out is one that
     answered a health probe with the binding's token as the last act of the call.
     */
    method EnsureRecoveredBinding(b: Binding, host: string) returns (recovery: Recovery)
      modifies this
      ensures recovery == RecoveryAt(env, timing, SearchOrder(start, end, b.workspaceID, host), b, old(now))
      ensures Recovers(old(log), log, [b.localPort] + SearchOrder(start, end, b.workspaceID, host), b, timing.health,
        recovery)
    {
      ghost var order := SearchOrder(start, end, b.workspaceID, host);
      var healthy := IsHealthReachable(b.localPort, b.token);
      if healthy {
        AnswersAtOnce(env, timing, order, b, old(now), old(log), log, [b.localPort] + order);
        return StillHealthy;
      }
      RecoveryIsReconnect(env, timing, order, b, old(now));
      ghost var probed := log;
      recovery := Reconnect(b, host);
      RecoversLater(old(log), probed, log, [b.localPort] + order, b, timing.health, recovery);
    }

    method Reconnect(b: Binding, host: string) returns (recovery: Recovery)
      modifies this
      ensures recovery == ReconnectAt(env, timing, SearchOrder(start, end, b.workspaceID, host), b, old(now))
      ensures Recovers(old(log), log, [b.localPort] + SearchOrder(start, end, b.workspaceID, host), b, timing.health,
        recovery)
    {
      ghost var fallback := SearchOrder(start, end, b.workspaceID, host);
      ghost var order := [b.localPort] + fallback;
      var healthy := IsHealthReachable(b.localPort, b.token);
      if healthy {
        AnswersAtOnce(env, timing, fallback, b, old(now), old(log), log, order);
        return StillHealthy;
      }
      ghost var probed := log;
      var opening := Reopen(b, host);
      ReconnectsBy(env, timing, fallback, b, old(now), old(log), probed, log, opening);
      return RecoveryOf(opening);
    }

    /** The rest of `Reconnect`: find a port, the binding's own first, and wait for the stub behind it. */
    method Reopen(b: Binding, host: string) returns (opening: Opening)
      modifies this
      ensures
        var order := [b.localPort] + SearchOrder(start, end, b.workspaceID, host);
        && opening == OpeningAt(env, timing, order, b.token, old(now))
        && Opens(old(log), log, order, b.token, timing.health, opening)
    {
      var tunnel := EnsureSpecificOrFallbackTunnel(b.workspaceID, host, b.localPort);
      ghost var order := [b.localPort] + SearchOrder(start, end, b.workspaceID, host);
      ghost var since, later := log, now;
      if tunnel.None? {
        NothingFound(env, timing, order, b.token, old(log), old(now), log, now);
        return Shut;
      }
      var healthy := WaitForHealth(tunnel.value.localPort, b.token);
      WaitedBehind(env, timing, order, b.token, old(log), old(now), since, later, log, tunnel.value, healthy);
      return if healthy then Open(tunnel.value) else Silent(tunnel.value);
    }

    /** `prepared` is whether all the remote installation steps succeeded; the token is freshly drawn. */
    method Bootstrap(workspaceID: string, host: string, prepared: bool, token: string) returns (boot: Boot)
      modifies this
      ensures
        if prepared then
          Boots(env, timing, SearchOrder(start, end, workspaceID, host), token, stubPort, old(log), old(now), log, boot)
        else
          boot == Unprepared && log == old(log)
      ensures boot.Booted? ==> start <= boot.localPort <= end
    {
      if !prepared {
        return Unprepared;
      }
      var tunnel := EnsureTunnel(workspaceID, host);
      ghost var order := SearchOrder(start, end, workspaceID, host);
      ghost var since, later := log, now;
      if tunnel.None? {
        NothingFound(env, timing, order, token, old(log), old(now), log, now);
        BootsBy(env, timing, order, token, stubPort, old(log), old(now), log, Shut);
        return NoPort;
      }
      var healthy := WaitForHealth(tunnel.value.localPort, token);
      WaitedBehind(env, timing, order, token, old(log), old(now), since, later, log, tunnel.value, healthy);
      BootsBy(env, timing, order, token, stubPort, old(log), old(now), log, OpeningOf(tunnel, healthy));
      if !healthy {
        return NeverHealthy(tunnel.value.pid);
      }
      return Booted(stubPort, tunnel.value.localPort, token, tunnel.value.pid);
    }

    /** Succeeds only after the binding's port was seen not to answer; false stands for the thrown error. */
    method CloseRecoveredBinding(b: Binding) returns (closed: bool)
      modifies this
      ensures Closing(env, b, old(now), old(log), log, closed)
      ensures b.tunnelPID.Some? && b.tunnelPID.value != 0 ==>
        && |log| > |old(log)|
        && if env.kill(old(now), b.tunnelPID.value) then log[|old(log)|] == Killed(b.tunnelPID.value)
           else log[|old(log)|].Probed?
    {
      if b.tunnelPID.Some? && b.tunnelPID.value != 0 {
        if env.kill(now, b.tunnelPID.value) {
          LogGrows(log, Killed(b.tunnelPID.value));
          log := log + [Killed(b.tunnelPID.value)];
        } else {
          var reachable := IsPortReachable(b.localPort);
          if reachable {
            ClosingAtOnce(env, b, old(now), old(log), log, false);
            return false;
          }
        }
        ghost var begun := log;
        closed := WaitForPortClosed(b.localPort);
        ClosingWaits(env, b, old(now), old(log), begun, log, closed);
      } else {
        var reachable := IsPortReachable(b.localPort);
        closed := !reachable;
        ClosingAtOnce(env, b, old(now), old(log), log, closed);
      }
    }
  }
}
