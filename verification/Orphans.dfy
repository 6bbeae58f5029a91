/**
 A run at await granularity that ends with a stored binding whose host nobody
 leases: a status check waits for recovery while a disconnect of the same
 workspace completes, and then stores what it recovered.
 */
module Orphans {
  import opened Wrappers
  import opened Leases
  import opened Providers
  import opened RuntimeState
  import opened Tunnels
  import opened Lifecycle
  import opened Bootstraps

  const HOST := HostConfig("h", [], "h", [])
  const CONFIG := Config(map["p" := ProviderConfig([], [HOST])], Exclusive)
  const REQUEST := HostRequest("p", Some("h"), [])
  const LEASE := Lease("h", "w", Exclusive)
  const BOUND := Binding("w", "p", "h", 1, 2, "secret", Exclusive, RuntimeState.Status.Ready, Some(3), None)
  const MOVED := BOUND.(localPort := 4, tunnelPID := Some(5))

  /** The one host is taken when free and found again when held. */
  lemma Resolutions()
    ensures Resolve(CONFIG, map[], REQUEST, "w") == Resolution(Ok(HOST), map["h" := LEASE])
    ensures Resolve(CONFIG, map["h" := LEASE], REQUEST, "w") == Resolution(Ok(HOST), map["h" := LEASE])
  {
    var candidates := Candidates(CONFIG, REQUEST);
    assert HOST in CONFIG.providers["p"].hosts;
    assert HOST in candidates && candidates[0] in candidates;
    FirstHeldSpec(candidates, map[], "w");
  }

  lemma Extend(b: seq<State>, a: Action, s': State) returns (b': seq<State>)
    requires Behavior(b) && Step(Last(b), a, s')
    ensures Behavior(b') && b' == b + [s'] && Last(b') == s'
  {
    b' := b + [s'];
    forall i | 0 <= i < |b'| - 1 ensures Next(b'[i], b'[i + 1]) {
      if i < |b| - 1 {
        assert Next(b[i], b[i + 1]);
      }
    }
  }

  lemma CreateOne() returns (b: seq<State>)
    ensures Behavior(b) && Last(b) == State(CONFIG, map["h" := LEASE], [BOUND], {"w"}, map[])
  {
    Resolutions();
    var s0 := State(CONFIG, map[], [], {}, map[]);
    b := [s0];
    var s1 := State(CONFIG, map["h" := LEASE], [], {"w"}, map[0 := Booting(REQUEST, "w", "h")]);
    b := Extend(b, StartCreate(0, REQUEST, "w"), s1);
    var s2 := s1.(bindings := [BOUND], tasks := map[]);
    b := Extend(b, FinishCreate(0, Booted(1, 2, "secret", 3), NotWanted), s2);
  }

  /** Both calls have read the binding and wait for the network. */
  lemma BothWait() returns (b: seq<State>)
    ensures Behavior(b)
    ensures Last(b) == State(CONFIG, map["h" := LEASE], [BOUND], {"w"},
                             map[1 := Awaiting(Kind.Status, BOUND, []), 2 := Awaiting(Kind.Closing, BOUND, [])])
  {
    b := CreateOne();
    Resolutions();
    var s := Last(b);
    assert BOUND in s.bindings;
    var queue := [BOUND];
    assert OwnHost(BOUND) == REQUEST && queue[0] == BOUND && queue[1..] == [];
    var s1 := s.(tasks := map[1 := Looping(Kind.Status, queue)]);
    b := Extend(b, StartLoop(1, Kind.Status, queue), s1);
    var s2 := s1.(tasks := map[1 := Awaiting(Kind.Status, BOUND, [])]);
    b := Extend(b, NextRound(1), s2);
    var s3 := s2.(tasks := s2.tasks[2 := Looping(Kind.Closing, queue)]);
    b := Extend(b, StartLoop(2, Kind.Closing, queue), s3);
    var s4 := s3.(tasks := s3.tasks[2 := Awaiting(Kind.Closing, BOUND, [])]);
    b := Extend(b, NextRound(2), s4);
  }

  lemma AgreementCanBeLost()
    ensures exists b, c :: Behavior(b) && c in Last(b).bindings && c.host !in Last(b).leases
  {
    var b := BothWait();
    var s := Last(b);
    var s1 := s.(leases := map[], bindings := [], tasks := s.tasks[2 := Looping(Kind.Closing, [])]);
    assert Forget(WorldOf(s), BOUND) == World(CONFIG, map[], []);
    b := Extend(b, Closed(2, true), s1);
    var s2 := s1.(bindings := [MOVED], tasks := s1.tasks[1 := Looping(Kind.Status, [])]);
    b := Extend(b, Answer(1, Reopened(4, 5), None), s2);
    assert MOVED in Last(b).bindings;
  }
}
