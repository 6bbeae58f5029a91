/**
 The plugin's operations, one tool call at a time, as functions on its whole
 state: the configuration, the leases and the stored bindings.

 What SSH and HTTP answered is part of each operation's name, so a run is a
 sequence of operations and every outcome is covered.  The class in `Plugin`
 is proved to perform such runs.
 */
module Lifecycle {
  import opened Wrappers
  import opened Leases
  import opened Providers
  import opened RuntimeState
  import opened Tunnels

  datatype World = World(config: Config, leases: LeaseMap, bindings: seq<Binding>)

  /** What follows a successful bootstrap when a remote workspace and session are wanted too. */
  datatype Setup = NotWanted | WorkspaceFailed | SessionFailed | Connected(sessionID: string)

  datatype Operation =
    | Configure(request: HostRequest, workspaceID: string)
    | Create(request: HostRequest, workspaceID: string, boot: Boot, setup: Setup)
    | Ready(b: Binding, recovery: Recovery)
    | Check(b: Binding, recovery: Recovery)
    | Reuse(b: Binding, provider: string, host: Option<string>, recovery: Recovery, session: Option<string>)
    | Remove(b: Binding, closed: bool)
    | Reinit(config: Config)
    | Restart(config: Config)

  datatype Effect = Effect(handed: Option<Binding>, world: World)

  predicate Live(b: Binding) {
    b.status != Removed
  }

  predicate HasSession(b: Binding) {
    b.sessionID.Some? && b.sessionID.value != ""
  }

  // ---------- The operations ----------

  function NewBinding(
    w: World, request: HostRequest, host: string, workspaceID: string, boot: Boot, setup: Setup): Binding
    requires boot.Booted?
  {
    Binding(workspaceID, request.provider, host, boot.remotePort, boot.localPort, boot.token, w.config.leaseMode,
            Status.Ready, Some(boot.tunnelPID), if setup.Connected? then Some(setup.sessionID) else None)
  }

  /** Take a lease, bootstrap, and either store the binding or give the lease back. */
  function DoCreate(w: World, request: HostRequest, workspaceID: string, boot: Boot, setup: Setup): Effect {
    var r := Resolve(w.config, w.leases, request, workspaceID);
    if r.result.Err? then
      Effect(None, w.(leases := r.leases))
    else if !boot.Booted? || setup.WorkspaceFailed? || setup.SessionFailed? then
      Effect(None, w.(leases := Released(r.leases, r.result.value.name, workspaceID)))
    else
      var b := NewBinding(w, request, r.result.value.name, workspaceID, boot, setup);
      Effect(Some(b), w.(leases := r.leases, bindings := Stored(w.bindings, b)))
  }

  function OwnHost(b: Binding): HostRequest {
    HostRequest(b.provider, Some(b.host), [])
  }

  /** Re-take the lease, recover the tunnel, and store the result if it changed. */
  function DoReady(w: World, b: Binding, recovery: Recovery): Effect {
    var r := Resolve(w.config, w.leases, OwnHost(b), b.workspaceID);
    if r.result.Err? || Recovered(b, recovery).None? then
      Effect(None, w.(leases := r.leases))
    else
      var recovered := Recovered(b, recovery).value;
      if recovered.localPort != b.localPort || recovered.tunnelPID != b.tunnelPID || recovered.status != b.status then
        Effect(Some(recovered), w.(leases := r.leases, bindings := Stored(w.bindings, recovered)))
      else
        Effect(Some(b), w.(leases := r.leases))
  }

  function Forget(w: World, b: Binding): World {
    w.(leases := Released(w.leases, b.host, b.workspaceID), bindings := Deleted(w.bindings, b.workspaceID))
  }

  /** One round of the status loop: a binding that cannot be made ready is forgotten. */
  function DoCheck(w: World, b: Binding, recovery: Recovery): Effect {
    var e := DoReady(w, b, recovery);
    if e.handed.None? then Effect(None, Forget(e.world, b)) else e
  }

  /** A recovered binding without a session gets the requested one, if there is one. */
  function Reused(b: Binding, recovery: Recovery, session: Option<string>): Option<Binding> {
    match Recovered(b, recovery)
    case None => None
    case Some(r) => if HasSession(r) then Some(r) else if session.None? then None else Some(r.(sessionID := session))
  }

  /** A reuse round asks for the host the search is for, or else for the binding's own. */
  function ReuseRequest(b: Binding, provider: string, host: Option<string>): HostRequest {
    HostRequest(provider, if host.Some? then host else Some(b.host), [])
  }

  /** One round of the reuse loop. */
  function DoReuse(
    w: World, b: Binding, provider: string, host: Option<string>, recovery: Recovery, session: Option<string>): Effect
  {
    if b.status == Removed || b.provider != provider then
      Effect(None, w)
    else
      var request := ReuseRequest(b, provider, host);
      var r := Resolve(w.config, w.leases, request, b.workspaceID);
      if r.result.Err? then
        Effect(None, Forget(w.(leases := r.leases), b))
      else if r.result.value.name != b.host then
        Effect(None, w.(leases := Released(r.leases, r.result.value.name, b.workspaceID)))
      else if Reused(b, recovery, session).None? then
        Effect(None, Forget(w.(leases := r.leases), b))
      else
        var reused := Reused(b, recovery, session).value;
        Effect(Some(reused), w.(leases := r.leases, bindings := Stored(w.bindings, reused)))
  }

  function DoRemove(w: World, b: Binding, closed: bool): World {
    if closed then Forget(w, b) else w
  }

  /** Leases rebuilt from the live bindings, later ones winning. */
  function Rehydrated(bs: seq<Binding>): LeaseMap {
    if bs == [] then map[]
    else
      var front, last := Rehydrated(bs[..|bs| - 1]), bs[|bs| - 1];
      if Live(last) then front[last.host := Lease(last.host, last.workspaceID, last.leaseMode)] else front
  }

  function Apply(w: World, op: Operation): Effect {
    match op
    case Configure(request, id) => Effect(None, w.(leases := Resolve(w.config, w.leases, request, id).leases))
    case Create(request, id, boot, setup) => DoCreate(w, request, id, boot, setup)
    case Ready(b, recovery) => DoReady(w, b, recovery)
    case Check(b, recovery) => DoCheck(w, b, recovery)
    case Reuse(b, provider, host, recovery, session) => DoReuse(w, b, provider, host, recovery, session)
    case Remove(b, closed) => Effect(None, DoRemove(w, b, closed))
    case Reinit(config) => Effect(None, World(config, Rehydrated(w.bindings), w.bindings))
    case Restart(config) => Effect(None, World(config, Rehydrated(CompleteOnes(w.bindings)), CompleteOnes(w.bindings)))
  }

  // ---------- Runs ----------

  /** Bindings acted on are stored ones; created identifiers are non-empty and not bound; leases are exclusive. */
  ghost predicate Enabled(w: World, op: Operation) {
    match op
    case Configure(_, _) => true
    case Create(_, id, _, _) => id != "" && !Bound(w.bindings, id)
    case Ready(b, _) => b in w.bindings
    case Check(b, _) => b in w.bindings
    case Reuse(b, _, _, _, _) => b in w.bindings
    case Remove(b, _) => b in w.bindings
    case Reinit(config) => config.leaseMode == Exclusive
    case Restart(config) => config.leaseMode == Exclusive
  }

  function Run(w: World, ops: seq<Operation>): World {
    if ops == [] then w else Apply(Run(w, ops[..|ops| - 1]), ops[|ops| - 1]).world
  }

  ghost predicate Legal(w: World, ops: seq<Operation>) {
    forall k :: 0 <= k < |ops| ==> Enabled(Run(w, ops[..k]), ops[k])
  }

  lemma RunGrows(w: World, ops: seq<Operation>, op: Operation)
    ensures Run(w, ops + [op]) == Apply(Run(w, ops), op).world
  {
    assert (ops + [op])[..|ops|] == ops;
  }

  lemma LegalGrows(w: World, ops: seq<Operation>, op: Operation)
    requires Legal(w, ops) && Enabled(Run(w, ops), op)
    ensures Legal(w, ops + [op])
  {
    var longer := ops + [op];
    forall k | 0 <= k < |longer| ensures Enabled(Run(w, longer[..k]), longer[k]) {
      assert longer[..k] == ops[..k];
    }
  }

  // ---------- Agreement of bindings and leases ----------

  /**
   Every stored binding is live (nothing writes the status "removed"), named, and its host is leased
   by its workspace.
   */
  ghost predicate Leased(leases: LeaseMap, bs: seq<Binding>) {
    forall b :: b in bs ==> Live(b) && b.workspaceID != "" && HeldBy(leases, b.host, b.workspaceID)
  }

  ghost predicate Agreement(w: World) {
    && w.config.leaseMode == Exclusive
    && UniqueIDs(w.bindings)
    && Leased(w.leases, w.bindings)
  }

  lemma SameIDSameBinding(bs: seq<Binding>, b: Binding, c: Binding)
    requires UniqueIDs(bs) && b in bs && c in bs && b.workspaceID == c.workspaceID
    ensures b == c
  {
  }

  /** Taking leases never costs anybody a lease. */
  lemma ResolveKeepsLeased(w: World, request: HostRequest, id: string, bs: seq<Binding>)
    requires w.config.leaseMode == Exclusive && Leased(w.leases, bs)
    ensures Leased(Resolve(w.config, w.leases, request, id).leases, bs)
  {
    if id != "" {
      ResolveSound(w.config, w.leases, request, id);
    }
  }

  /** Releasing a host of a workspace costs only that workspace's own binding on that host. */
  lemma ReleaseKeepsLeased(leases: LeaseMap, bs: seq<Binding>, host: string, id: string)
    requires Leased(leases, bs)
    requires forall b :: b in bs && b.workspaceID == id ==> b.host != host
    ensures Leased(Released(leases, host, id), bs)
  {
  }

  lemma ForgetKeepsAgreement(w: World, b: Binding)
    requires Agreement(w)
    ensures Agreement(Forget(w, b))
  {
    DeletedSpec(w.bindings, b.workspaceID);
    var left := Deleted(w.bindings, b.workspaceID);
    assert Leased(w.leases, left);
    ReleaseKeepsLeased(w.leases, left, b.host, b.workspaceID);
  }

  lemma StoreKeepsAgreement(w: World, b: Binding)
    requires Agreement(w) && Live(b) && b.workspaceID != "" && HeldBy(w.leases, b.host, b.workspaceID)
    ensures Agreement(w.(bindings := Stored(w.bindings, b)))
  {
    StoredSpec(w.bindings, b);
  }

  lemma CreateKeepsAgreement(w: World, request: HostRequest, id: string, boot: Boot, setup: Setup)
    requires Agreement(w) && id != "" && !Bound(w.bindings, id)
    ensures Agreement(DoCreate(w, request, id, boot, setup).world)
  {
    ResolveSound(w.config, w.leases, request, id);
    ResolveKeepsLeased(w, request, id, w.bindings);
    var r := Resolve(w.config, w.leases, request, id);
    var e := DoCreate(w, request, id, boot, setup);
    if e.handed.Some? {
      StoreKeepsAgreement(w.(leases := r.leases), e.handed.value);
    } else if r.result.Ok? {
      ReleaseKeepsLeased(r.leases, w.bindings, r.result.value.name, id);
    }
  }

  lemma ReadyKeepsAgreement(w: World, b: Binding, recovery: Recovery)
    requires Agreement(w) && b in w.bindings
    ensures Agreement(DoReady(w, b, recovery).world)
  {
    ResolveKeepsLeased(w, OwnHost(b), b.workspaceID, w.bindings);
    var r := Resolve(w.config, w.leases, OwnHost(b), b.workspaceID);
    var w1 := w.(leases := r.leases);
    var e := DoReady(w, b, recovery);
    if e.world != w1 {
      StoreKeepsAgreement(w1, e.handed.value);
    }
  }

  lemma CheckKeepsAgreement(w: World, b: Binding, recovery: Recovery)
    requires Agreement(w) && b in w.bindings
    ensures Agreement(DoCheck(w, b, recovery).world)
  {
    ReadyKeepsAgreement(w, b, recovery);
    var e := DoReady(w, b, recovery);
    if e.handed.None? {
      ForgetKeepsAgreement(e.world, b);
    }
  }

  lemma ReuseKeepsAgreement(
    w: World, b: Binding, provider: string, host: Option<string>, recovery: Recovery, session: Option<string>)
    requires Agreement(w) && b in w.bindings
    ensures Agreement(DoReuse(w, b, provider, host, recovery, session).world)
  {
    if b.provider == provider {
      var request := ReuseRequest(b, provider, host);
      ResolveKeepsLeased(w, request, b.workspaceID, w.bindings);
      var r := Resolve(w.config, w.leases, request, b.workspaceID);
      var w1 := w.(leases := r.leases);
      var e := DoReuse(w, b, provider, host, recovery, session);
      if e.handed.Some? {
        StoreKeepsAgreement(w1, e.handed.value);
      } else if r.result.Ok? && r.result.value.name != b.host {
        forall c | c in w.bindings && c.workspaceID == b.workspaceID ensures c.host != r.result.value.name {
          SameIDSameBinding(w.bindings, b, c);
        }
        ReleaseKeepsLeased(r.leases, w.bindings, r.result.value.name, b.workspaceID);
      } else {
        ForgetKeepsAgreement(w1, b);
      }
    }
  }

  // ---------- Restart ----------

  ghost predicate DistinctHosts(bs: seq<Binding>) {
    forall i, j :: 0 <= i < j < |bs| && Live(bs[i]) && Live(bs[j]) ==> bs[i].host != bs[j].host
  }

  /** The leases are exactly the projection of the live bindings: nothing missing, nothing left over. */
  ghost predicate Projection(leases: LeaseMap, bs: seq<Binding>) {
    && (forall b ::
          b in bs && Live(b) ==> b.host in leases && leases[b.host] == Lease(b.host, b.workspaceID, b.leaseMode))
    && (forall host :: host in leases ==> exists b :: b in bs && Live(b) && b.host == host)
  }

  lemma {:induction false} RehydratedIsProjection(bs: seq<Binding>)
    requires DistinctHosts(bs)
    ensures Projection(Rehydrated(bs), bs)
  {
    if bs != [] {
      var front, last := bs[..|bs| - 1], bs[|bs| - 1];
      RehydratedIsProjection(front);
      assert bs == front + [last];
      forall host | host in Rehydrated(bs) ensures exists b :: b in bs && Live(b) && b.host == host {
        if host in Rehydrated(front) {
          var b :| b in front && Live(b) && b.host == host;
          assert b in bs;
        } else {
          assert last in bs;
        }
      }
      forall b | b in bs && Live(b)
        ensures b.host in Rehydrated(bs) && Rehydrated(bs)[b.host] == Lease(b.host, b.workspaceID, b.leaseMode)
      {
        if b in front {
          var k :| 0 <= k < |front| && front[k] == b;
          assert bs[k] == b;
        }
      }
    }
  }

  /**
   Whatever the bindings, a host's lease is rebuilt from the last live binding on it, and there are
   no other leases.
   */
  lemma {:induction false} LastOnHostWins(bs: seq<Binding>, host: string)
    ensures
      if host in Rehydrated(bs) then
        exists k :: && 0 <= k < |bs| && IsLastOn(bs, k, host)
                    && Rehydrated(bs)[host] == Lease(host, bs[k].workspaceID, bs[k].leaseMode)
      else
        forall k :: 0 <= k < |bs| && bs[k].host == host ==> bs[k].status == Removed
  {
    if bs != [] {
      var n := |bs| - 1;
      LastOnHostWins(bs[..n], host);
      if bs[n].status != Removed && bs[n].host == host {
        assert IsLastOn(bs, n, host);
      } else if host in Rehydrated(bs[..n]) {
        var k :| && 0 <= k < n && IsLastOn(bs[..n], k, host)
                 && Rehydrated(bs[..n])[host] == Lease(host, bs[k].workspaceID, bs[k].leaseMode);
        assert IsLastOn(bs, k, host);
      } else {
        assert forall k :: 0 <= k < n ==> bs[..n][k] == bs[k];
      }
    }
  }

  ghost predicate IsLastOn(bs: seq<Binding>, k: nat, host: string)
    requires k < |bs|
  {
    && bs[k].host == host && bs[k].status != Removed
    && forall m :: k < m < |bs| && bs[m].host == host ==> bs[m].status == Removed
  }

  /** No two live bindings share a host. */
  lemma AgreementMeansDistinctHosts(w: World)
    requires Agreement(w)
    ensures DistinctHosts(w.bindings)
  {
    forall i, j | 0 <= i < j < |w.bindings| ensures w.bindings[i].host != w.bindings[j].host {
      assert w.bindings[i] in w.bindings && w.bindings[j] in w.bindings;
    }
  }

  /** Starting over with the complete ones among agreeing bindings. */
  lemma RehydrateKeepsAgreement(w: World, config: Config, bs: seq<Binding>)
    requires Agreement(w) && config.leaseMode == Exclusive
    requires UniqueIDs(bs) && forall b :: b in bs ==> b in w.bindings
    ensures Agreement(World(config, Rehydrated(bs), bs)) && Projection(Rehydrated(bs), bs)
  {
    forall i, j | 0 <= i < j < |bs| ensures bs[i].host != bs[j].host {
      assert bs[i] in bs && bs[j] in bs;
    }
    RehydratedIsProjection(bs);
  }

  /**
   A state file is loaded into agreement if and only if no entry kept is marked removed and no two
   name the same host.
   */
  lemma StartAgreesIff(config: Config, text: Text)
    requires config.leaseMode == Exclusive
    ensures
      var bs := Load(text);
      Agreement(World(config, Rehydrated(bs), bs)) <==> (forall b :: b in bs ==> Live(b)) && DistinctHosts(bs)
  {
    var bs := Load(text);
    if text.Items? {
      LoadItemsUnique(text.items);
    }
    if Agreement(World(config, Rehydrated(bs), bs)) {
      AgreementMeansDistinctHosts(World(config, Rehydrated(bs), bs));
    }
    if DistinctHosts(bs) {
      RehydratedIsProjection(bs);
    }
  }

  lemma RestartKeepsAgreement(w: World, config: Config)
    requires Agreement(w) && config.leaseMode == Exclusive
    ensures
      var after := Apply(w, Operation.Restart(config)).world;
      Agreement(after) && Projection(after.leases, after.bindings)
  {
    KeptOnes(w.bindings);
    RehydrateKeepsAgreement(w, config, CompleteOnes(w.bindings));
  }

  lemma KeptOnes(bs: seq<Binding>)
    requires UniqueIDs(bs)
    ensures UniqueIDs(CompleteOnes(bs)) && forall b :: b in CompleteOnes(bs) ==> b in bs
  {
    UniqueSubset(bs);
    CompleteOnesSpec(bs);
  }

  /**
   A restart keeps exactly the complete bindings, in order, and leaves exactly
   one lease per kept binding: leases that had no binding are dropped.
   */
  lemma RestartProjects(w: World, config: Config)
    requires Agreement(w) && config.leaseMode == Exclusive
    ensures
      var after := Apply(w, Operation.Restart(config)).world;
      && after.bindings == Load(Save(w.bindings))
      && Agreement(after) && Projection(after.leases, after.bindings)
      && ((forall b :: b in w.bindings ==> Complete(b)) ==> after.bindings == w.bindings)
  {
    RestartKeepsAgreement(w, config);
    LoadSavedItems(w.bindings);
    CompleteOnesSpec(w.bindings);
  }

  // ---------- Over whole runs ----------

  lemma ApplyKeepsAgreement(w: World, op: Operation)
    requires Agreement(w) && Enabled(w, op)
    ensures Agreement(Apply(w, op).world)
  {
    match op
    case Configure(request, id) => ResolveKeepsLeased(w, request, id, w.bindings);
    case Create(request, id, boot, setup) => CreateKeepsAgreement(w, request, id, boot, setup);
    case Ready(b, recovery) => ReadyKeepsAgreement(w, b, recovery);
    case Check(b, recovery) => CheckKeepsAgreement(w, b, recovery);
    case Reuse(b, provider, host, recovery, session) => ReuseKeepsAgreement(w, b, provider, host, recovery, session);
    case Remove(b, _) => ForgetKeepsAgreement(w, b);
    case Reinit(config) => RehydrateKeepsAgreement(w, config, w.bindings);
    case Restart(config) => RestartKeepsAgreement(w, config);
  }

  /**
   Exclusive mode: after any sequence of operations and restarts, whatever SSH
   and HTTP answered, every stored binding's host is leased by that binding's
   workspace, so no two bindings share a host.
   */
  lemma {:induction false} LegalRunsKeepAgreement(w: World, ops: seq<Operation>)
    requires Agreement(w) && Legal(w, ops)
    ensures Agreement(Run(w, ops)) && DistinctHosts(Run(w, ops).bindings)
  {
    if ops != [] {
      var front, last := ops[..|ops| - 1], ops[|ops| - 1];
      forall k | 0 <= k < |front| ensures Enabled(Run(w, front[..k]), front[k]) {
        assert front[..k] == ops[..k];
      }
      LegalRunsKeepAgreement(w, front);
      assert Enabled(Run(w, ops[..|ops| - 1]), ops[|ops| - 1]);
      ApplyKeepsAgreement(Run(w, front), last);
    }
    AgreementMeansDistinctHosts(Run(w, ops));
  }

  // ---------- Creating: exact rollback, and the exact condition without fresh identifiers ----------

  /**
   A failed create gives back exactly what it took.  The lease map is unchanged
   if and only if the workspace did not already lease the selected host; the
   bindings never change.
   */
  lemma FailedCreateRollsBack(w: World, request: HostRequest, id: string, boot: Boot, setup: Setup)
    requires w.config.leaseMode == Exclusive && DoCreate(w, request, id, boot, setup).handed.None?
    ensures
      var r := Resolve(w.config, w.leases, request, id);
      var after := DoCreate(w, request, id, boot, setup).world;
      && after.bindings == w.bindings
      && (after.leases == w.leases <==> !(r.result.Ok? && HeldBy(w.leases, r.result.value.name, id)))
      && ((forall host :: !HeldBy(w.leases, host, id)) ==> after == w)
  {
    if request.provider in w.config.providers {
      FirstHeldSpec(Candidates(w.config, request), w.leases, id);
      FirstFreeSpec(Candidates(w.config, request), w.leases);
    }
    var r := Resolve(w.config, w.leases, request, id);
    if r.result.Ok? {
      var host := r.result.value.name;
      if HeldBy(w.leases, host, id) {
        assert host !in DoCreate(w, request, id, boot, setup).world.leases;
      } else {
        assert host !in w.leases;
        assert Released(r.leases, host, id) == w.leases;
      }
    }
  }

  ghost predicate BoundTo(bs: seq<Binding>, id: string, host: string) {
    exists b :: b in bs && b.workspaceID == id && b.host == host
  }

  lemma RebindingCreate(w: World, request: HostRequest, id: string, boot: Boot, setup: Setup)
    requires Agreement(w) && id != ""
    ensures
      var r := Resolve(w.config, w.leases, request, id);
      var e := DoCreate(w, request, id, boot, setup);
      Agreement(e.world) <==> !(e.handed.None? && r.result.Ok? && BoundTo(w.bindings, id, r.result.value.name))
  {
    ResolveSound(w.config, w.leases, request, id);
    ResolveKeepsLeased(w, request, id, w.bindings);
    var r := Resolve(w.config, w.leases, request, id);
    var e := DoCreate(w, request, id, boot, setup);
    if e.handed.Some? {
      StoreKeepsAgreement(w.(leases := r.leases), e.handed.value);
    } else if r.result.Ok? {
      if BoundTo(w.bindings, id, r.result.value.name) {
        var b :| b in w.bindings && b.workspaceID == id && b.host == r.result.value.name;
        assert !HeldBy(e.world.leases, b.host, id);
      } else {
        ReleaseKeepsLeased(r.leases, w.bindings, r.result.value.name, id);
      }
    }
  }

  /**
   An empty identifier leases nothing: a create that fails changes nothing, and one that succeeds
   stores an unleased binding.
   */
  lemma UnnamedCreate(w: World, request: HostRequest, boot: Boot, setup: Setup)
    requires Agreement(w)
    ensures Agreement(DoCreate(w, request, "", boot, setup).world) <==>
      DoCreate(w, request, "", boot, setup).handed.None?
  {
    var e := DoCreate(w, request, "", boot, setup);
    if request.provider in w.config.providers {
      FirstFreeSpec(Candidates(w.config, request), w.leases);
    }
    if e.handed.Some? {
      StoredSpec(w.bindings, e.handed.value);
      assert e.handed.value in e.world.bindings;
    }
  }

  /**
   Creating a workspace, whatever its identifier, is sure to keep agreement if and
   only if no host is selected, or the identifier is not empty and not bound to the
   host selected.
   */
  lemma RebindingCreateKeepsAgreementIff(w: World, request: HostRequest, id: string)
    requires Agreement(w)
    ensures
      var r := Resolve(w.config, w.leases, request, id);
      (forall boot, setup :: Agreement(DoCreate(w, request, id, boot, setup).world)) <==>
        !(r.result.Ok? && (id == "" || BoundTo(w.bindings, id, r.result.value.name)))
  {
    var r := Resolve(w.config, w.leases, request, id);
    forall boot, setup ensures
      var e := DoCreate(w, request, id, boot, setup);
      Agreement(e.world) <==>
        if id == "" then e.handed.None?
        else !(e.handed.None? && r.result.Ok? && BoundTo(w.bindings, id, r.result.value.name))
    {
      if id == "" {
        UnnamedCreate(w, request, boot, setup);
      } else {
        RebindingCreate(w, request, id, boot, setup);
      }
    }
    assert DoCreate(w, request, id, Unprepared, NotWanted).handed.None?;
    assert r.result.Ok? ==> DoCreate(w, request, id, Booted(1, 2, "", 3), NotWanted).handed.Some?;
  }

  /** Removing either keeps everything or takes away exactly this binding and its lease. */
  lemma RemoveIsAllOrNothing(w: World, b: Binding, closed: bool)
    requires Agreement(w) && b in w.bindings
    ensures
      var after := DoRemove(w, b, closed);
      if !closed then after == w
      else
        && !Bound(after.bindings, b.workspaceID) && after.leases == w.leases - {b.host}
        && forall c :: c in after.bindings <==> c in w.bindings && c != b
  {
    DeletedSpec(w.bindings, b.workspaceID);
    forall c | c in w.bindings && c.workspaceID == b.workspaceID ensures c == b {
      SameIDSameBinding(w.bindings, b, c);
    }
  }

  // ---------- What the operations hand out, field by field ----------

  /** A create hands out a ready binding with everything it was asked for, and nothing if any of its steps failed. */
  lemma CreateHandsOut(w: World, request: HostRequest, id: string, boot: Boot, setup: Setup)
    ensures
      var r := Resolve(w.config, w.leases, request, id);
      var e := DoCreate(w, request, id, boot, setup);
      if r.result.Ok? && boot.Booted? && (setup.NotWanted? || setup.Connected?) then
        && e.handed == Some(Binding(
             id, request.provider, r.result.value.name, boot.remotePort, boot.localPort, boot.token, w.config.leaseMode,
             Status.Ready, Some(boot.tunnelPID), if setup.Connected? then Some(setup.sessionID) else None))
        && (UniqueIDs(w.bindings) ==> e.handed.value in e.world.bindings) && e.world.leases == r.leases
      else
        e.handed == None && e.world.bindings == w.bindings
  {
    var e := DoCreate(w, request, id, boot, setup);
    if e.handed.Some? && UniqueIDs(w.bindings) {
      StoredSpec(w.bindings, e.handed.value);
    }
  }

  /**
   Making ready hands out the binding as it is if it was healthy, else with the new port and process;
   else nothing.
   */
  lemma ReadyHandsOut(w: World, b: Binding, recovery: Recovery)
    ensures
      var r := Resolve(w.config, w.leases, HostRequest(b.provider, Some(b.host), []), b.workspaceID);
      var handed := DoReady(w, b, recovery).handed;
      if r.result.Ok? && recovery.StillHealthy? then
        handed == Some(b)
      else if r.result.Ok? && recovery.Reopened? then
        handed ==
          Some(b.(localPort := recovery.localPort, tunnelPID := Some(recovery.tunnelPID), status := Status.Ready))
      else
        handed == None && DoReady(w, b, recovery).world.bindings == w.bindings
    ensures DoReady(w, b, recovery).world.leases ==
      Resolve(w.config, w.leases, HostRequest(b.provider, Some(b.host), []), b.workspaceID).leases
    ensures DoReady(w, b, recovery).handed == Some(b) ==> DoReady(w, b, recovery).world.bindings == w.bindings
  {
  }

  /** A binding with a session keeps it; one without is handed out exactly when it gets one, and with that one. */
  lemma ReusedKeepsSession(b: Binding, recovery: Recovery, session: Option<string>)
    ensures
      var reused := Reused(b, recovery, session);
      if !(recovery.StillHealthy? || recovery.Reopened?) then
        reused == None
      else if b.sessionID != None && b.sessionID != Some("") then
        reused.Some? && reused.value.sessionID == b.sessionID
      else
        (reused.Some? <==> session.Some?) && (reused.Some? ==> reused.value.sessionID == session)
    ensures
      var reused := Reused(b, recovery, session);
      reused.Some? ==>
        && reused.value.localPort == (if recovery.Reopened? then recovery.localPort else b.localPort)
        && reused.value.tunnelPID == (if recovery.Reopened? then Some(recovery.tunnelPID) else b.tunnelPID)
        && reused.value.status == (if recovery.Reopened? then Status.Ready else b.status)
        && reused.value == b.(localPort := reused.value.localPort, tunnelPID := reused.value.tunnelPID,
                              status := reused.value.status, sessionID := reused.value.sessionID)
  {
  }

  // ---------- What forgetting leaves ----------

  lemma ForgetLeavesNothing(w: World, b: Binding)
    requires UniqueIDs(w.bindings)
    ensures !Bound(Forget(w, b).bindings, b.workspaceID) && !HeldBy(Forget(w, b).leases, b.host, b.workspaceID)
    ensures forall host :: host in w.leases && !(host == b.host && w.leases[host].workspaceID == b.workspaceID) ==>
      host in Forget(w, b).leases && Forget(w, b).leases[host] == w.leases[host]
  {
    DeletedSpec(w.bindings, b.workspaceID);
  }

  /** A status round that cannot make a binding ready leaves neither its record nor its lease. */
  lemma FailedCheckLeavesNothing(w: World, b: Binding, recovery: Recovery)
    requires UniqueIDs(w.bindings) && DoCheck(w, b, recovery).handed.None?
    ensures
      var after := DoCheck(w, b, recovery).world;
      !Bound(after.bindings, b.workspaceID) && !HeldBy(after.leases, b.host, b.workspaceID)
  {
    ForgetLeavesNothing(DoReady(w, b, recovery).world, b);
  }

  /** What recovery hands out is what is stored, with the same identity, host and token. */
  lemma ReadyIsCoherent(w: World, b: Binding, recovery: Recovery)
    requires UniqueIDs(w.bindings) && b in w.bindings && DoReady(w, b, recovery).handed.Some?
    ensures
      var e := DoReady(w, b, recovery);
      var handed := e.handed.value;
      && handed in e.world.bindings && Recovered(b, recovery) == Some(handed)
      && handed == b.(localPort := handed.localPort, tunnelPID := handed.tunnelPID, status := handed.status)
      && forall c :: c in w.bindings && c != b ==> c in e.world.bindings
  {
    var e := DoReady(w, b, recovery);
    StoredSpec(w.bindings, e.handed.value);
    forall c | c in w.bindings && c != b ensures c.workspaceID != b.workspaceID {
      if c.workspaceID == b.workspaceID {
        SameIDSameBinding(w.bindings, b, c);
      }
    }
  }
}
