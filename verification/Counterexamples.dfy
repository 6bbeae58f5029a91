/**
 An input for each property of the plugin that holds only on a condition: what
 happens when the condition fails.  (`Orphans` has the one for late answers.)
 */
module Counterexamples {
  import opened Wrappers
  import opened Leases
  import opened Providers
  import opened RuntimeState
  import opened Ports
  import opened Tunnels
  import opened Lifecycle
  import opened Bootstraps
  import opened Orphans
  import opened Processes
  import opened Plugin

  // ---------- Creates ----------

  const BOOTED := Booted(1, 2, "secret", 3)

  lemma CreateThenFail()
    ensures DoCreate(World(CONFIG, map[], []), REQUEST, "w", BOOTED, NotWanted).world ==
      World(CONFIG, map["h" := LEASE], [BOUND])
    ensures DoCreate(World(CONFIG, map["h" := LEASE], [BOUND]), REQUEST, "w", Unprepared, NotWanted).world ==
      World(CONFIG, map[], [BOUND])
  {
    Resolutions();
  }

  /** A create for a workspace that is bound already fails, and gives away the lease its binding relies on. */
  lemma FailedRebindingLosesAgreement(w: World, create: Operation, again: Operation)
    requires w == World(CONFIG, map[], [])
    requires create == Operation.Create(REQUEST, "w", BOOTED, NotWanted)
    requires again == Operation.Create(REQUEST, "w", Unprepared, NotWanted)
    ensures Agreement(w) && Legal(w, [create]) && Agreement(Run(w, [create]))
    ensures Run(w, [create] + [again]) == World(CONFIG, map[], [BOUND]) && !Agreement(Run(w, [create] + [again]))
  {
    CreateThenFail();
    assert [] + [create] == [create];
    RunGrows(w, [], create);
    LegalGrows(w, [], create);
    RunGrows(w, [create], again);
    assert BOUND in [BOUND];
  }

  /** A create for an empty identifier takes no lease, and stores a binding all the same. */
  lemma EmptyIdentifierLosesAgreement(w: World)
    requires w == World(CONFIG, map[], [])
    ensures Agreement(w)
    ensures
      var after := DoCreate(w, REQUEST, "", BOOTED, NotWanted).world;
      after.leases == map[] && |after.bindings| == 1 && !Agreement(after)
  {
    var candidates := Candidates(CONFIG, REQUEST);
    assert HOST in CONFIG.providers["p"].hosts;
    assert HOST in candidates && candidates[0] in candidates;
    UnnamedCreate(w, REQUEST, BOOTED, NotWanted);
  }

  /**
   A workspace takes its lease when it is configured; its create fails, and the lease map is not what
   it was before.
   */
  lemma FailedCreateAfterConfigure()
    ensures
      var empty := World(CONFIG, map[], []);
      var configured := Apply(empty, Operation.Configure(REQUEST, "w")).world;
      var after := DoCreate(configured, REQUEST, "w", Unprepared, NotWanted);
      after.handed == None && configured.leases == map["h" := LEASE] && after.world.leases == map[]
  {
    Resolutions();
  }

  // ---------- The entry point called during a bootstrap ----------

  lemma ResolvesWhenFree(id: string)
    requires id != ""
    ensures Resolve(CONFIG, map[], REQUEST, id) == Resolution(Ok(HOST), map["h" := Lease("h", id, Exclusive)])
  {
    var candidates := Candidates(CONFIG, REQUEST);
    assert HOST in CONFIG.providers["p"].hosts;
    assert HOST in candidates && candidates[0] in candidates;
    FirstHeldSpec(candidates, map[], id);
  }

  /** The first bootstrap is under way, and the entry point has been called again. */
  lemma CalledDuringBoot() returns (b: seq<State>)
    ensures Behavior(b) && Last(b) == State(CONFIG, map[], [], {"w"}, map[0 := Booting(REQUEST, "w", "h")])
  {
    Resolutions();
    b := [State(CONFIG, map[], [], {}, map[])];
    var booting := State(CONFIG, map["h" := LEASE], [], {"w"}, map[0 := Booting(REQUEST, "w", "h")]);
    b := Orphans.Extend(b, StartCreate(0, REQUEST, "w"), booting);
    b := Orphans.Extend(b, Action.Reinit(CONFIG), booting.(leases := map[]));
  }

  /** Its lease is gone, and a second bootstrap starts on the same host. */
  lemma ReinitDuringBootLosesExclusion()
    ensures exists b ::
      && Behavior(b) && Last(b).tasks == map[0 := Booting(REQUEST, "w", "h"), 1 := Booting(REQUEST, "v", "h")]
  {
    ResolvesWhenFree("v");
    var b := CalledDuringBoot();
    var s := State(CONFIG, map["h" := Lease("h", "v", Exclusive)], [], {"w", "v"},
                   map[0 := Booting(REQUEST, "w", "h"), 1 := Booting(REQUEST, "v", "h")]);
    b := Orphans.Extend(b, StartCreate(1, REQUEST, "v"), s);
  }

  /** Or it binds without its lease: the agreement, still there before, is gone. */
  lemma ReinitDuringBootLosesAgreement()
    ensures exists b ::
      && Behavior(b) && |b| > 1 && Agreement(WorldOf(b[|b| - 2])) && Last(b).bindings == [BOUND]
            && Last(b).leases == map[]
  {
    var b := CalledDuringBoot();
    assert Agreement(WorldOf(Last(b)));
    b := Orphans.Extend(b, FinishCreate(0, BOOTED, NotWanted), State(CONFIG, map[], [BOUND], {"w"}, map[]));
  }

  // ---------- Tunnels left behind ----------

  /** Ports come up once asked for; the stub behind them answers health with `health`. */
  function Network(health: nat): Environment {
    Environment(
      (at: nat, port: int, token: Option<string>) => if token.Some? then health else if at == 0 then 0 else 401,
      (at: nat) => 1, (at: nat, port: int) => 7, (at: nat, pid: int) => true)
  }

  const TIMING := Timing(1, 1)

  lemma PortComesUp(health: nat, port: int, order: seq<int>)
    requires order == [port]
    ensures Searched(Network(health), 1, order, 0) == (Some(Tunnel(port, 7)), 2)
  {
    assert Polled(Network(health), port, None, 2, 1) == (true, 2);
    assert Attempted(Network(health), 1, port, 0) == (7, 2);
  }

  lemma HowItEnds(health: nat, port: int, order: seq<int>, token: string)
    requires order == [port]
    ensures OpeningAt(Network(health), TIMING, order, token, 0) ==
      if IsOK(health) then Open(Tunnel(port, 7)) else Silent(Tunnel(port, 7))
  {
    PortComesUp(health, port, order);
    var env := Network(health);
    assert Polled(env, port, Some(token), 3, 303).0 == false;
    assert Polled(env, port, Some(token), 3, 2).0 == IsOK(health);
  }

  lemma CreateFails(id: string, boot: Boot, setup: Setup)
    requires id != "" && (!boot.Booted? || setup.WorkspaceFailed? || setup.SessionFailed?)
    ensures DoCreate(World(CONFIG, map[], []), REQUEST, id, boot, setup) == Effect(None, World(CONFIG, map[], []))
  {
    ResolvesWhenFree(id);
  }

  /** A new installation with one local port, in a given network. */
  method Install(health: nat, port: int) returns (p: Plugin)
    ensures fresh(p) && fresh(p.leases) && fresh(p.state) && fresh(p.state.file) && fresh(p.ssh) && p.Valid()
    ensures p.Now() == World(CONFIG, map[], []) && SetUp(p, health, port)
  {
    var file := new StateFile(Absent);
    var ssh := new SSHManager(Network(health), port, port, 4000, TIMING, 0);
    p := new Plugin(file, CONFIG, ssh);
  }

  ghost predicate SetUp(p: Plugin, health: nat, port: int)
    reads p.ssh
  {
    && p.ssh.env == Network(health) && p.ssh.timing == TIMING && p.ssh.now == 0 && p.ssh.log == []
    && p.ssh.start == port && p.ssh.end == port && p.ssh.stubPort == 4000
  }

  lemma BootInstalled(p: Plugin, health: nat, port: int, id: string, token: string)
    requires id != "" && SetUp(p, health, port) && p.Now() == World(CONFIG, map[], [])
    ensures p.BootAhead(REQUEST, id, true, token) ==
      if IsOK(health) then Booted(4000, port, token, 7) else NeverHealthy(7)
  {
    ResolvesWhenFree(id);
    var order := SearchOrder(port, port, id, "h");
    ProbeOrderIsPermutation(port, port, InitialPort(port, port, id, "h"));
    assert order == [port];
    HowItEnds(health, port, order, token);
  }

  /** A first create on it that has to fail. */
  method CreateIn(
    health: nat, port: int, id: string, token: string, setup: Setup)
    returns (p: Plugin, handed: Option<Binding>)
    requires id != "" && (!IsOK(health) || setup.WorkspaceFailed? || setup.SessionFailed?)
    ensures handed == None && p.leases.leases == map[] && p.state.bindings == [] && Running(p.ssh.log) == [7]
  {
    p := Install(health, port);
    BootInstalled(p, health, port, id, token);
    ghost var boot;
    handed, boot := p.CreateBinding(REQUEST, id, true, token, setup);
    CreateFails(id, boot, setup);
  }

  /** The stub never gets healthy: the create fails and gives its lease back, and the tunnel process goes on running. */
  method SilentStubLeaksTunnel(port: int, id: string, token: string) returns (p: Plugin, handed: Option<Binding>)
    requires id != ""
    ensures handed == None && p.leases.leases == map[] && p.state.bindings == [] && Running(p.ssh.log) == [7]
  {
    p, handed := CreateIn(503, port, id, token, NotWanted);
  }

  /** The bootstrap succeeds and the remote session does not: the same. */
  method FailedSessionLeaksTunnel(port: int, id: string, token: string) returns (p: Plugin, handed: Option<Binding>)
    requires id != ""
    ensures handed == None && p.leases.leases == map[] && p.state.bindings == [] && Running(p.ssh.log) == [7]
  {
    p, handed := CreateIn(200, port, id, token, SessionFailed);
  }

  // ---------- Processes that nothing records any more ----------

  lemma ResolvesWhenHeld(id: string)
    requires id != ""
    ensures
      var leases := map["h" := Lease("h", id, Exclusive)];
      Resolve(CONFIG, leases, REQUEST, id) == Resolution(Ok(HOST), leases)
  {
    var candidates := Candidates(CONFIG, REQUEST);
    assert HOST in CONFIG.providers["p"].hosts;
    assert HOST in candidates && candidates[0] in candidates;
    FirstHeldSpec(candidates, map["h" := Lease("h", id, Exclusive)], id);
  }

  function FirstBinding(port: int, id: string, token: string): Binding {
    Binding(id, "p", "h", 4000, port, token, Exclusive, RuntimeState.Status.Ready, Some(7), None)
  }

  /** The world after a first create on a new installation. */
  function FirstWorld(port: int, id: string, token: string): World {
    World(CONFIG, map["h" := Lease("h", id, Exclusive)], [FirstBinding(port, id, token)])
  }

  lemma FirstCreate(port: int, id: string, token: string)
    requires id != ""
    ensures DoCreate(World(CONFIG, map[], []), REQUEST, id, Booted(4000, port, token, 7), NotWanted) ==
      Effect(Some(FirstBinding(port, id, token)), FirstWorld(port, id, token))
  {
    ResolvesWhenFree(id);
  }

  /** A reuse round that gets no session forgets its binding, whatever came of the recovery. */
  lemma RoundWithoutSession(port: int, id: string, token: string, recovery: Recovery)
    requires id != ""
    ensures DoReuse(FirstWorld(port, id, token), FirstBinding(port, id, token), "p", None, recovery, None) ==
      Effect(None, World(CONFIG, map[], []))
  {
    ResolvesWhenHeld(id);
  }

  method FirstConnection(port: int, id: string, token: string) returns (p: Plugin, b: Binding)
    requires id != ""
    ensures fresh(p) && fresh(p.leases) && fresh(p.state) && fresh(p.state.file) && fresh(p.ssh) && p.Valid()
    ensures p.Now() == FirstWorld(port, id, token) && b == FirstBinding(port, id, token)
    ensures Running(p.ssh.log) == [7] && p.ssh.env == Network(200)
  {
    p := Install(200, port);
    BootInstalled(p, 200, port, id, token);
    ghost var boot;
    var handed;
    handed, boot := p.CreateBinding(REQUEST, id, true, token, NotWanted);
    FirstCreate(port, id, token);
    b := handed.value;
  }

  lemma NetworkStaysHealthy(p: Plugin, port: int, id: string, token: string)
    requires id != "" && p.Now() == FirstWorld(port, id, token) && p.ssh.env == Network(200)
    ensures p.RecoveryAhead(FirstBinding(port, id, token), Some("h")) == StillHealthy
  {
    ResolvesWhenHeld(id);
  }

  /** The tunnel is healthy, the session request fails: the record goes, the process stays. */
  method FailedReuseLosesProcess(port: int, id: string, token: string) returns (p: Plugin, handed: Option<Binding>)
    requires id != ""
    ensures handed == None && p.leases.leases == map[] && p.state.bindings == [] && Running(p.ssh.log) == [7]
  {
    var b;
    p, b := FirstConnection(port, id, token);
    NetworkStaysHealthy(p, port, id, token);
    ghost var recovery;
    handed, recovery := p.ReuseRound(b, "p", None, None);
    RoundWithoutSession(port, id, token, recovery);
  }

  lemma FirstInstallation(i: Installation, port: int, id: string, token: string)
    requires id != "" && i == Installation(FirstWorld(port, id, token), [7])
    ensures DistinctProcesses(i) && Tracked(i) && Agreement(i.world)
  {
    var b := FirstBinding(port, id, token);
    assert b in i.world.bindings && b.tunnelPID == Some(7);
    assert Recorded(i.world.bindings, 7);
  }

  /** A status round that opens no tunnel forgets the binding; its old process, not signalled, is recorded nowhere. */
  lemma StatusLosesProcess(i: Installation, port: int, id: string, token: string)
    requires id != "" && i == Installation(FirstWorld(port, id, token), [7])
    ensures
      var act := Act(Check(FirstBinding(port, id, token), NoTunnel), false);
      Tracked(i) && Possible(i, act) && After(i, act) == Installation(World(CONFIG, map[], []), [7])
      && !Tracked(After(i, act))
  {
    FirstInstallation(i, port, id, token);
    ResolvesWhenHeld(id);
    var act := Act(Check(FirstBinding(port, id, token), NoTunnel), false);
    assert OwnHost(FirstBinding(port, id, token)) == REQUEST;
    assert After(i, act).running == [7];
    assert 7 in After(i, act).running;
  }

  /** A recovery on another port records the new process in place of the old one, which may still run. */
  lemma ReopeningLosesProcess(i: Installation, port: int, id: string, token: string)
    requires id != "" && i == Installation(FirstWorld(port, id, token), [7])
    ensures
      var act := Act(Operation.Ready(FirstBinding(port, id, token), Reopened(port + 1, 8)), false);
      Tracked(i) && Possible(i, act) && After(i, act).running == [7, 8] && !Tracked(After(i, act))
  {
    FirstInstallation(i, port, id, token);
    ResolvesWhenHeld(id);
    var b := FirstBinding(port, id, token);
    var act := Act(Operation.Ready(b, Reopened(port + 1, 8)), false);
    assert OwnHost(b) == REQUEST && b in i.world.bindings;
    assert After(i, act).world.bindings == [b.(localPort := port + 1, tunnelPID := Some(8))];
    assert 7 in After(i, act).running;
  }
}
