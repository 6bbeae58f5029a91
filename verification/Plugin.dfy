/**
 The plugin object: module-level leases and bindings that the tool calls change
 step by step.  Each method is proved to perform a run of `Lifecycle`
 operations; what the network did comes back as the ghost part of that run.
 */
module Plugin {
  import opened Wrappers
  import opened Leases
  import opened Providers
  import opened RuntimeState
  import opened Tunnels
  import opened Lifecycle
  import opened ReuseSearch
  import opened Processes

  class Plugin {
    const leases: LeaseManager
    const state: BindingStore
    const ssh: SSHManager
    var providers: ProviderRegistry

    ghost predicate Valid()
      reads this, state, state.file, providers
    {
      state.Valid() && providers.leases == leases
    }

    ghost function Now(): World
      reads this, providers, leases, state
    {
      World(providers.config, leases.leases, state.bindings)
    }

    /** The state together with the tunnel processes still running. */
    ghost function Installed(): Installation
      reads this, providers, leases, state, ssh
    {
      Installation(Now(), Running(ssh.log))
    }

    /** How the bootstrap of a create started now will end; `Unprepared` if there will be none. */
    ghost function BootAhead(request: HostRequest, workspaceID: string, prepared: bool, token: string): Boot
      reads this, providers, leases, ssh
    {
      var r := Resolve(providers.config, leases.leases, request, workspaceID);
      if r.result.Err? || !prepared then Unprepared
      else
        var order := SearchOrder(ssh.start, ssh.end, workspaceID, r.result.value.name);
        BootOf(OpeningAt(ssh.env, ssh.timing, order, token, ssh.now), ssh.stubPort, token)
    }

    /** How the recovery of a binding started now will end; `NoTunnel` if its lease cannot be taken again. */
    ghost function RecoveryAhead(b: Binding, wanted: Option<string>): Recovery
      reads this, providers, leases, ssh
    {
      var r := Resolve(providers.config, leases.leases, HostRequest(b.provider, wanted, []), b.workspaceID);
      if r.result.Err? then NoTunnel
      else RecoveryAt(ssh.env, ssh.timing, SearchOrder(ssh.start, ssh.end, b.workspaceID, r.result.value.name), b,
        ssh.now)
    }

    /** Process start: load the file, then rebuild the leases. */
    constructor (file: StateFile, config: Config, ssh: SSHManager)
      ensures Valid() && fresh(leases) && fresh(state) && fresh(providers) && this.ssh == ssh && state.file == file
      ensures Now() == World(config, Rehydrated(Load(file.text)), Load(file.text))
    {
      var l := new LeaseManager();
      leases := l;
      state := new BindingStore(file);
      providers := new ProviderRegistry(config, l);
      this.ssh := ssh;
      new;
      RehydrateLeasesFromState();
    }

    method RehydrateLeasesFromState()
      requires Valid()
      modifies leases
      ensures Valid() && leases.leases == Rehydrated(state.bindings)
    {
      leases.Clear();
      var list := state.bindings;
      for i := 0 to |list|
        invariant Valid() && state.bindings == list
        invariant leases.leases == Rehydrated(list[..i])
      {
        assert list[..i + 1][..i] == list[..i];
        if list[i].status != Removed {
          leases.Restore(list[i].host, list[i].workspaceID, list[i].leaseMode);
        }
      }
      assert list[..|list|] == list;
    }

    /** The plugin entry point called again in the same process. */
    method Reinitialise(config: Config)
      requires Valid()
      modifies this, leases
      ensures Valid() && Now() == Apply(old(Now()), Operation.Reinit(config)).world
    {
      providers := new ProviderRegistry(config, leases);
      RehydrateLeasesFromState();
    }

    /** A new process over the same file performs a restart. */
    method StartAgain(config: Config, ssh: SSHManager) returns (next: Plugin)
      requires Valid()
      ensures Valid() && Now() == old(Now())
      ensures next.Valid() && fresh(next) && fresh(next.leases) && next.state.file == state.file && next.ssh == ssh
      ensures next.Now() == Apply(Now(), Operation.Restart(config)).world
    {
      state.LoadsAgain();
      next := new Plugin(state.file, config, ssh);
    }

    method ConfigureWorkspace(request: HostRequest, workspaceID: string) returns (result: Result<HostConfig>)
      requires Valid()
      modifies leases
      ensures Valid() && Now() == Apply(old(Now()), Configure(request, workspaceID)).world
      ensures Resolution(result, leases.leases) == Resolve(providers.config, old(leases.leases), request, workspaceID)
    {
      result := providers.AcquireResolved(request, workspaceID);
    }

    /**
     The common body of the three create paths.  `setup` is what the two HTTP
     calls that follow a bootstrap answered; the adapter's own create makes none.
     */
    method CreateBinding(request: HostRequest, workspaceID: string, prepared: bool, token: string, setup: Setup)
      returns (handed: Option<Binding>, ghost boot: Boot)
      requires Valid()
      modifies leases, state, state.file, ssh
      ensures Valid() && Effect(handed, Now()) == DoCreate(old(Now()), request, workspaceID, boot, setup)
      ensures Agreement(old(Now())) && workspaceID != "" && !Bound(old(state.bindings), workspaceID) ==>
        Agreement(Now())
      ensures old(ssh.log) <= ssh.log && Running(ssh.log) == old(Running(ssh.log)) + BootProcess(boot)
      ensures boot == old(BootAhead(request, workspaceID, prepared, token))
      ensures handed.Some? ==>
        handed.value.token == token && EndsHealthy(old(ssh.log), ssh.log, handed.value.localPort, token)
      ensures Running(ssh.log) == old(Running(ssh.log)) <==> boot.Unprepared? || boot.NoPort?
      ensures Performed(old(Installed()), Installed(), Act(Create(request, workspaceID, boot, setup), false))
    {
      var selection := providers.AcquireResolved(request, workspaceID);
      boot := Unprepared;
      ghost var i := old(Installed());
      if selection.Err? {
        CreatePerforms(i, Installed(), request, workspaceID, boot, setup);
        return None, boot;
      }
      var host := selection.value.name;
      var booted := ssh.Bootstrap(workspaceID, host, prepared, token);
      boot := booted;
      if !booted.Booted? || setup.WorkspaceFailed? || setup.SessionFailed? {
        providers.Release(host, workspaceID);
        CreatePerforms(i, Installed(), request, workspaceID, boot, setup);
        return None, boot;
      }
      var session := if setup.Connected? then Some(setup.sessionID) else None;
      var b := Binding(workspaceID, request.provider, host, booted.remotePort, booted.localPort, booted.token,
                       providers.config.leaseMode, Status.Ready, Some(booted.tunnelPID), session);
      state.Set(b);
      CreatePerforms(i, Installed(), request, workspaceID, boot, setup);
      return Some(b), boot;
    }

    /** Hands out a binding whose port has just answered a health probe, and stores exactly what it hands out. */
    method EnsureBindingReady(b: Binding) returns (handed: Option<Binding>, ghost recovery: Recovery)
      requires Valid()
      modifies leases, state, state.file, ssh
      ensures Valid() && Effect(handed, Now()) == DoReady(old(Now()), b, recovery)
      ensures Agreement(old(Now())) && b in old(state.bindings) ==> Agreement(Now())
      ensures old(ssh.log) <= ssh.log && Running(ssh.log) == old(Running(ssh.log)) + RecoveryProcess(recovery)
      ensures recovery == old(RecoveryAhead(b, Some(b.host)))
      ensures handed.Some? ==> EndsHealthy(old(ssh.log), ssh.log, handed.value.localPort, b.token)
      ensures Performed(old(Installed()), Installed(), Act(Operation.Ready(b, recovery), false))
    {
      var selection := providers.AcquireResolved(HostRequest(b.provider, Some(b.host), []), b.workspaceID);
      recovery := NoTunnel;
      handed := None;
      if selection.Ok? {
        var outcome := ssh.EnsureRecoveredBinding(b, selection.value.name);
        recovery := outcome;
        handed := Recovered(b, outcome);
        if handed.Some? {
          var r := handed.value;
          if r.localPort != b.localPort || r.tunnelPID != b.tunnelPID || r.status != b.status {
            state.Set(r);
          } else {
            handed := Some(b);
          }
        }
      }
      ReadyPerforms(old(Installed()), Installed(), b, recovery);
    }

    /** The two remote deletions are best effort; what counts is whether the tunnel closes. */
    method CloseRemote(b: Binding) returns (closed: bool)
      modifies ssh
      ensures old(ssh.log) < ssh.log && SawPort(ssh.log[|ssh.log| - 1], b.localPort, !closed)
      ensures Running(ssh.log) ==
        if Signals(ssh.env, old(ssh.now), b) then Stopped(old(Running(ssh.log)), b.tunnelPID.value)
        else old(Running(ssh.log))
    {
      closed := ssh.CloseRecoveredBinding(b);
    }

    /** Remote cleanup is best effort; a tunnel that does not close keeps both the binding and its lease. */
    method RemoveBinding(b: Binding) returns (closed: bool)
      requires Valid()
      modifies leases, state, state.file, ssh
      ensures Valid() && Now() == DoRemove(old(Now()), b, closed)
      ensures Agreement(old(Now())) ==> Agreement(Now())
      ensures old(ssh.log) < ssh.log && SawPort(ssh.log[|ssh.log| - 1], b.localPort, !closed)
      ensures Performed(old(Installed()), Installed(),
        Act(Operation.Remove(b, closed), Signals(ssh.env, old(ssh.now), b)))
    {
      if Agreement(Now()) {
        ForgetKeepsAgreement(Now(), b);
      }
      closed := CloseRemote(b);
      if closed {
        ForgetBinding(b);
      }
      RemovePerforms(old(Installed()), Installed(), b, closed, Signals(ssh.env, old(ssh.now), b));
    }

    /** The lease and the record go, in either order. */
    method ForgetBinding(b: Binding)
      requires Valid()
      modifies leases, state, state.file
      ensures Valid() && Now() == Forget(old(Now()), b)
    {
      providers.Release(b.host, b.workspaceID);
      state.Delete(b.workspaceID);
    }

    method RemoveWorkspace(workspaceID: string) returns (closed: bool)
      requires Valid()
      modifies leases, state, state.file, ssh
      ensures Valid()
      ensures match Lookup(old(state.bindings), workspaceID)
        case None => Now() == old(Now())
        case Some(b) => Now() == DoRemove(old(Now()), b, closed)
    {
      var b := Lookup(state.bindings, workspaceID);
      if b.None? {
        return true;
      }
      closed := RemoveBinding(b.value);
    }

    method GetTarget(workspaceID: string) returns (handed: Option<Binding>, ghost recovery: Recovery)
      requires Valid()
      modifies leases, state, state.file, ssh
      ensures Valid()
      ensures match Lookup(old(state.bindings), workspaceID)
        case None => handed == None && Now() == old(Now())
        case Some(b) => Effect(handed, Now()) == DoReady(old(Now()), b, recovery)
      ensures handed.Some? ==> EndsHealthy(old(ssh.log), ssh.log, handed.value.localPort, handed.value.token)
    {
      recovery := NoTunnel;
      var b := Lookup(state.bindings, workspaceID);
      if b.None? {
        return None, recovery;
      }
      handed, recovery := EnsureBindingReady(b.value);
    }

    /** The fallible middle of a reuse round. */
    method RecoverWithSession(b: Binding, host: string, newSession: Option<string>)
      returns (reused: Option<Binding>, ghost recovery: Recovery)
      modifies ssh
      ensures reused == Reused(b, recovery, newSession)
      ensures recovery.StillHealthy? || recovery.Reopened? ==>
        if b.sessionID != None && b.sessionID != Some("") then
          reused.Some? && reused.value.sessionID == b.sessionID
        else
          (reused.Some? <==> newSession.Some?) && (reused.Some? ==> reused.value.sessionID == newSession)
      ensures old(ssh.log) <= ssh.log && Running(ssh.log) == old(Running(ssh.log)) + RecoveryProcess(recovery)
      ensures recovery ==
        RecoveryAt(ssh.env, ssh.timing, SearchOrder(ssh.start, ssh.end, b.workspaceID, host), b, old(ssh.now))
      ensures reused.Some? ==>
        reused.value.token == b.token && EndsHealthy(old(ssh.log), ssh.log, reused.value.localPort, b.token)
    {
      var outcome := ssh.EnsureRecoveredBinding(b, host);
      recovery := outcome;
      var recovered := Recovered(b, outcome);
      if recovered.None? {
        return None, recovery;
      }
      var r := recovered.value;
      if !HasSession(r) {
        if newSession.None? {
          return None, recovery;
        }
        r := r.(sessionID := newSession);
      }
      return Some(r), recovery;
    }

    /** One round of the reuse loop; `newSession` is the answer to a session request, if one is made. */
    method ReuseRound(b: Binding, provider: string, host: Option<string>, newSession: Option<string>)
      returns (handed: Option<Binding>, ghost recovery: Recovery)
      requires Valid()
      modifies leases, state, state.file, ssh
      ensures Valid() && Effect(handed, Now()) == DoReuse(old(Now()), b, provider, host, recovery, newSession)
      ensures old(ssh.log) <= ssh.log && Running(ssh.log) == old(Running(ssh.log)) + RecoveryProcess(recovery)
      ensures Running(ssh.log) == old(Running(ssh.log)) <==> recovery.StillHealthy? || recovery.NoTunnel?
      ensures recovery ==
        if Recoverable(old(Now()), b, provider, host) then
          old(RecoveryAhead(b, if host.Some? then host else Some(b.host)))
        else NoTunnel
      ensures handed.Some? ==>
        handed.value.token == b.token && EndsHealthy(old(ssh.log), ssh.log, handed.value.localPort, b.token)
      ensures Performed(old(Installed()), Installed(), Act(Reuse(b, provider, host, recovery, newSession), false))
      ensures
        Recoverable(old(Now()), b, provider, host) && (recovery.StillHealthy? || recovery.Reopened?) ==>
          if b.sessionID != None && b.sessionID != Some("") then
            handed.Some? && handed.value.sessionID == b.sessionID
          else
            (handed.Some? <==> newSession.Some?) && (handed.Some? ==> handed.value.sessionID == newSession)
    {
      recovery := NoTunnel;
      handed := None;
      if b.status != Removed && b.provider == provider {
        var wanted := if host.Some? then host else Some(b.host);
        var selection := providers.AcquireResolved(HostRequest(provider, wanted, []), b.workspaceID);
        if selection.Ok? && selection.value.name != b.host {
          providers.Release(selection.value.name, b.workspaceID);
        } else {
          if selection.Ok? {
            handed, recovery := RecoverWithSession(b, selection.value.name, newSession);
          }
          if handed.Some? {
            state.Set(handed.value);
          } else {
            ForgetBinding(b);
          }
        }
      }
      ReusePerforms(old(Installed()), Installed(), b, provider, host, recovery, newSession);
    }

    /** One round of the loop, with the record of the fruitless rounds before it. */
    method ReuseNext(
      b: Binding, provider: string, host: Option<string>, newSession: Option<string>, ghost w: World,
      ghost done: seq<Operation>)
      returns (found: Option<Binding>, ghost ops: seq<Operation>)
      requires Valid() && Now() == Run(w, done) && |done| < |w.bindings| && b == w.bindings[|done|]
      requires Rounds(w.bindings, done, provider, host) && Fruitless(w, done)
      modifies leases, state, state.file, ssh
      ensures Valid() && Now() == Run(w, ops) && |ops| == |done| + 1
      ensures if found.Some? then Found(w, ops, provider, host, found)
        else Rounds(w.bindings, ops, provider, host) && Fruitless(w, ops)
      ensures old(ssh.log) <= ssh.log
      ensures found.Some? ==> EndsHealthy(old(ssh.log), ssh.log, found.value.localPort, found.value.token)
    {
      ghost var recovery;
      found, recovery := ReuseRound(b, provider, host, newSession);
      ghost var op := Reuse(b, provider, host, recovery, newSession);
      RoundsGrow(w, w.bindings, done, op, provider, host, Effect(found, Now()));
      ops := done + [op];
    }

    method FindReusableBinding(provider: string, host: Option<string>, newSession: string -> Option<string>)
      returns (found: Option<Binding>, ghost ops: seq<Operation>)
      requires Valid()
      modifies leases, state, state.file, ssh
      ensures Valid() && Now() == Run(old(Now()), ops)
      ensures Agreement(old(Now())) ==> Agreement(Now())
      ensures old(ssh.log) <= ssh.log
      ensures found.None? ==> SearchedInVain(old(Now()), ops, provider, host)
      ensures found.Some? ==>
        Found(old(Now()), ops, provider, host, found)
          && EndsHealthy(old(ssh.log), ssh.log, found.value.localPort, found.value.token)
    {
      var list := state.bindings;
      ops := [];
      for i := 0 to |list|
        invariant Valid() && |ops| == i && Now() == Run(old(Now()), ops)
        invariant Rounds(list, ops, provider, host) && Fruitless(old(Now()), ops) && old(ssh.log) <= ssh.log
      {
        ghost var log := ssh.log;
        var session := newSession(list[i].workspaceID);
        found, ops := ReuseNext(list[i], provider, host, session, old(Now()), ops);
        if found.Some? {
          EndsLater(old(ssh.log), log, ssh.log, found.value.localPort, found.value.token);
          FoundKeepsAgreement(old(Now()), ops, provider, host, found);
          return;
        }
      }
      found := None;
      if Agreement(old(Now())) {
        FruitlessSearch(old(Now()), ops, provider, host);
      }
    }

    /** Recovers every binding it can and forgets the rest. */
    method RemoteStatus() returns (rows: seq<Option<Binding>>, ghost ops: seq<Operation>)
      requires Valid()
      modifies leases, state, state.file, ssh
      ensures Valid() && Now() == Run(old(Now()), ops)
      ensures |ops| == |old(state.bindings)| && Checked(old(Now()), ops, rows)
      ensures Agreement(old(Now())) ==>
        && Agreement(Now())
        && forall b :: b in state.bindings <==> Some(b) in rows
      ensures old(ssh.log) <= ssh.log
      ensures forall k :: 0 <= k < |rows| ==> RowAnswered(old(ssh.log), ssh.log, rows[k])
    {
      var list := state.bindings;
      rows, ops := [], [];
      for i := 0 to |list|
        invariant Valid() && |ops| == i && Now() == Run(old(Now()), ops)
        invariant Checked(old(Now()), ops, rows) && |rows| == i && old(ssh.log) <= ssh.log
        invariant forall k :: 0 <= k < i ==> RowAnswered(old(ssh.log), ssh.log, rows[k])
      {
        ghost var before, recovery, log := ops, NoTunnel, ssh.log;
        var handed;
        handed, recovery := CheckRound(list[i]);
        CheckedGrows(old(Now()), before, rows, recovery, Effect(handed, Now()));
        ops := before + [Check(list[i], recovery)];
        RowsStayAnswered(old(ssh.log), log, ssh.log, rows, handed);
        rows := rows + [handed];
      }
      if Agreement(old(Now())) {
        StatusReportsWhatIsStored(old(Now()), ops, rows);
        assert forall b :: b in state.bindings <==> ReportedOrUnreached(old(Now()), rows, b);
      }
    }

    /** One round of the status loop. */
    method CheckRound(b: Binding) returns (handed: Option<Binding>, ghost recovery: Recovery)
      requires Valid()
      modifies leases, state, state.file, ssh
      ensures Valid() && Effect(handed, Now()) == DoCheck(old(Now()), b, recovery)
      ensures old(ssh.log) <= ssh.log
      ensures handed.Some? ==> EndsHealthy(old(ssh.log), ssh.log, handed.value.localPort, handed.value.token)
      ensures recovery == old(RecoveryAhead(b, Some(b.host)))
      ensures Performed(old(Installed()), Installed(), Act(Check(b, recovery), false))
    {
      handed, recovery := EnsureBindingReady(b);
      if handed.None? {
        state.Delete(b.workspaceID);
        providers.Release(b.host, b.workspaceID);
      }
      CheckPerforms(old(Installed()), Installed(), b, recovery);
    }

    /** One round of the disconnect loop, with the record of the rounds before it. */
    method RemoveTarget(b: Binding, ghost began: seq<Event>, ghost w: World, ghost done: seq<Operation>)
      returns (closed: bool, ghost ops: seq<Operation>)
      requires Valid() && Now() == Run(w, done) && began <= ssh.log && AllSeen(began, ssh.log, done)
      modifies leases, state, state.file, ssh
      ensures ops == done + [Operation.Remove(b, closed)]
      ensures Valid() && Now() == Run(w, ops) && began <= ssh.log && AllSeen(began, ssh.log, ops)
      ensures Agreement(old(Now())) ==> Agreement(Now())
    {
      ghost var log := ssh.log;
      closed := RemoveBinding(b);
      RemovalsStaySeen(began, log, ssh.log, done, b, closed);
      RunRemove(w, done, b, closed);
      ops := done + [Operation.Remove(b, closed)];
    }

    /** Disconnects one binding or all of them, stopping at the first tunnel that does not close. */
    method RemoteDisconnect(workspaceID: Option<string>) returns (ok: bool, ghost ops: seq<Operation>)
      requires Valid()
      modifies leases, state, state.file, ssh
      ensures Valid() && Now() == Run(old(Now()), ops)
      ensures Agreement(old(Now())) ==> Agreement(Now())
      ensures Disconnected(Targets(old(state.bindings), workspaceID), ops, ok)
      ensures Aimed(old(state.bindings), workspaceID, ops, ok)
      ensures old(ssh.log) <= ssh.log && AllSeen(old(ssh.log), ssh.log, ops)
    {
      var list := Targets(state.bindings, workspaceID);
      forall done, success | Disconnected(list, done, success)
        ensures Aimed(state.bindings, workspaceID, done, success) {
        DisconnectAims(state.bindings, workspaceID, done, success);
      }
      ops := [];
      if list == [] {
        return false, ops;
      }
      for i := 0 to |list|
        invariant Valid() && |ops| == i && Now() == Run(old(Now()), ops) && ops == Removals(list[..i])
        invariant Agreement(old(Now())) ==> Agreement(Now())
        invariant old(ssh.log) <= ssh.log && AllSeen(old(ssh.log), ssh.log, ops)
      {
        DisconnectGrows(list, i, ops);
        var closed;
        closed, ops := RemoveTarget(list[i], old(ssh.log), old(Now()), ops);
        if !closed {
          return false, ops;
        }
      }
      assert list[..|list|] == list;
      return true, ops;
    }

    /** The create that follows a search in vain, with the record of that search. */
    method CreateConnectedBinding(
      provider: string, host: Option<string>, workspaceID: string, prepared: bool, token: string, setup: Setup,
      ghost w: World, ghost searched: seq<Operation>)
      returns (handed: Option<Binding>, ghost ops: seq<Operation>)
      requires Valid() && Now() == Run(w, searched) && SearchedInVain(w, searched, provider, host)
      modifies leases, state, state.file, ssh
      ensures Valid() && Now() == Run(w, ops) && SearchedThenCreated(w, ops, provider, host, workspaceID, setup, handed)
      ensures Agreement(w) && workspaceID != "" && !Bound(w.bindings, workspaceID) && Agreement(old(Now())) ==>
        Agreement(Now())
      ensures old(ssh.log) <= ssh.log
      ensures handed.Some? ==> EndsHealthy(old(ssh.log), ssh.log, handed.value.localPort, handed.value.token)
    {
      SearchKeepsUnbound(w, searched, provider, host, workspaceID);
      ghost var boot;
      handed, boot := CreateBinding(HostRequest(provider, host, []), workspaceID, prepared, token, setup);
      ghost var op := Create(HostRequest(provider, host, []), workspaceID, boot, setup);
      ops := searched + [op];
      CreateEndsSearch(w, searched, op, provider, host, workspaceID, setup, handed);
    }

    /** Reuses a binding if it can, else connects a new one; either way the port handed out has just answered. */
    method RemoteSwitch(
      provider: string, host: Option<string>, workspaceID: string, prepared: bool, token: string, setup: Setup,
      newSession: string -> Option<string>)
      returns (handed: Option<Binding>, created: bool, ghost ops: seq<Operation>)
      requires Valid()
      modifies leases, state, state.file, ssh
      ensures Valid() && Now() == Run(old(Now()), ops)
      ensures Agreement(old(Now())) && workspaceID != "" && !Bound(old(state.bindings), workspaceID) ==>
        Agreement(Now())
      ensures !created && handed.Some? ==> Found(old(Now()), ops, provider, host, handed)
      ensures created || handed.None? ==>
        SearchedThenCreated(old(Now()), ops, provider, host, workspaceID, setup, handed)
      ensures created ==> handed.Some?
      ensures handed.Some? ==> EndsHealthy(old(ssh.log), ssh.log, handed.value.localPort, handed.value.token)
    {
      created := false;
      handed, ops := FindReusableBinding(provider, host, newSession);
      if handed.None? {
        ghost var log := ssh.log;
        handed, ops := CreateConnectedBinding(provider, host, workspaceID, prepared, token, setup, old(Now()), ops);
        created := handed.Some?;
        if created {
          EndsLater(old(ssh.log), log, ssh.log, handed.value.localPort, handed.value.token);
        }
      }
    }

    /**
     Connects as `RemoteSwitch` does and cleans up what it created.  The health
     check in between decides only the report.
     */
    method RemoteDoctor(
      provider: string, host: Option<string>, workspaceID: string, prepared: bool, token: string, setup: Setup,
      newSession: string -> Option<string>)
      returns (created: bool, closed: bool, ghost ops: seq<Operation>)
      requires Valid()
      modifies leases, state, state.file, ssh
      ensures Valid() && Now() == Run(old(Now()), ops)
      ensures Agreement(old(Now())) && workspaceID != "" && !Bound(old(state.bindings), workspaceID) ==>
        Agreement(Now())
      ensures created ==>
        && |ops| == |old(state.bindings)| + 2
        && SearchedInVain(old(Now()), ops[..|old(state.bindings)|], provider, host)
        && CreateFor(ops[|old(state.bindings)|], provider, host, workspaceID, setup)
        && CreatedThenRemoved(Run(old(Now()), ops[..|old(state.bindings)|]), ops[|old(state.bindings)|..],
              workspaceID, closed)
      ensures !created ==>
        || (exists found :: Found(old(Now()), ops, provider, host, found))
        || SearchedThenCreated(old(Now()), ops, provider, host, workspaceID, setup, None)
      ensures created ==>
        && ssh.log != [] && ops[|ops| - 1].Remove?
        && SawPort(ssh.log[|ssh.log| - 1], ops[|ops| - 1].b.localPort, !closed)
    {
      var handed;
      handed, created, ops := RemoteSwitch(provider, host, workspaceID, prepared, token, setup, newSession);
      closed := false;
      if created {
        ghost var before := ops;
        closed := RemoveBinding(handed.value);
        ops := before + [Operation.Remove(handed.value, closed)];
        RunRemove(old(Now()), before, handed.value, closed);
        DoctorTrace(old(Now()), before, workspaceID, handed, closed);
        assert ops[|ops| - 1] == Operation.Remove(handed.value, closed);
      }
    }
  }

  // ---------- What the loops add up to ----------

  function Targets(bs: seq<Binding>, workspaceID: Option<string>): seq<Binding> {
    if workspaceID.None? || workspaceID.value == "" then bs
      else Filter(bs, (b: Binding) => b.workspaceID == workspaceID.value)
  }

  /** The targets go in order up to the first that does not close; success is having had targets that all closed. */
  ghost predicate Disconnected(list: seq<Binding>, ops: seq<Operation>, ok: bool) {
    if ok then list != [] && ops == Removals(list)
    else if list == [] then ops == []
    else 0 < |ops| <= |list| && ops == Removals(list[..|ops| - 1]) + [Operation.Remove(list[|ops| - 1], false)]
  }

  /**
   With an identifier exactly the binding of that identifier is acted on, if there
   is one; without one, the stored bindings in their order, all of them on success.
   */
  ghost predicate Aimed(bs: seq<Binding>, workspaceID: Option<string>, ops: seq<Operation>, ok: bool) {
    && (forall k :: 0 <= k < |ops| ==> ops[k].Remove? && ops[k].b in bs)
    && if workspaceID != None && workspaceID != Some("") then
         && |ops| == (if exists b :: b in bs && b.workspaceID == workspaceID.value then 1 else 0)
         && forall k :: 0 <= k < |ops| ==> ops[k].b.workspaceID == workspaceID.value
       else
         && |ops| <= |bs| && (ok ==> |ops| == |bs|) && (bs != [] ==> ops != [])
         && forall k :: 0 <= k < |ops| ==> ops[k].b == bs[k]
  }

  lemma {:induction false} FilterUnique(bs: seq<Binding>, id: string)
    requires UniqueIDs(bs)
    ensures
      var found := Filter(bs, (b: Binding) => b.workspaceID == id);
      |found| == (if exists b :: b in bs && b.workspaceID == id then 1 else 0)
  {
    if bs != [] {
      UniqueTail(bs);
      FilterUnique(bs[1..], id);
      assert bs[0].workspaceID == id ==> !exists b :: b in bs[1..] && b.workspaceID == id;
      assert (exists b :: b in bs && b.workspaceID == id) <==>
        bs[0].workspaceID == id || exists b :: b in bs[1..] && b.workspaceID == id;
    }
  }

  lemma DisconnectTakesPrefix(list: seq<Binding>, ops: seq<Operation>, ok: bool)
    requires Disconnected(list, ops, ok)
    ensures |ops| <= |list| && (list != [] ==> ops != []) && (ok ==> |ops| == |list|)
    ensures forall k :: 0 <= k < |ops| ==> ops[k].Remove? && ops[k].b == list[k]
  {
  }

  lemma DisconnectAims(bs: seq<Binding>, workspaceID: Option<string>, ops: seq<Operation>, ok: bool)
    requires UniqueIDs(bs) && Disconnected(Targets(bs, workspaceID), ops, ok)
    ensures Aimed(bs, workspaceID, ops, ok)
  {
    var list := Targets(bs, workspaceID);
    DisconnectTakesPrefix(list, ops, ok);
    assert forall k :: 0 <= k < |list| ==> list[k] in list;
    if workspaceID != None && workspaceID != Some("") {
      FilterUnique(bs, workspaceID.value);
    }
  }

  ghost function Removals(list: seq<Binding>): seq<Operation> {
    seq(|list|, k requires 0 <= k < |list| => Operation.Remove(list[k], true))
  }

  lemma RemovalsGrow(list: seq<Binding>, i: nat)
    requires i < |list|
    ensures Removals(list[..i + 1]) == Removals(list[..i]) + [Operation.Remove(list[i], true)]
  {
  }

  lemma DisconnectGrows(list: seq<Binding>, i: nat, ops: seq<Operation>)
    requires i < |list| && ops == Removals(list[..i])
    ensures ops + [Operation.Remove(list[i], true)] == Removals(list[..i + 1])
    ensures Disconnected(list, ops + [Operation.Remove(list[i], false)], false)
  {
    RemovalsGrow(list, i);
  }

  lemma RunRemove(w: World, ops: seq<Operation>, b: Binding, closed: bool)
    ensures Run(w, ops + [Operation.Remove(b, closed)]) == DoRemove(Run(w, ops), b, closed)
  {
    RunGrows(w, ops, Operation.Remove(b, closed));
  }

  lemma RoundsGrow(
    w: World, list: seq<Binding>, ops: seq<Operation>, op: Operation, provider: string, host: Option<string>, e: Effect)
    requires Rounds(list, ops, provider, host) && Fruitless(w, ops) && |ops| < |list|
    requires op.Reuse? && op.b == list[|ops|] && op.provider == provider && op.host == host
    requires e == DoReuse(Run(w, ops), op.b, provider, host, op.recovery, op.session)
    ensures Rounds(list, ops + [op], provider, host) && Run(w, ops + [op]) == e.world
    ensures if e.handed.None? then Fruitless(w, ops + [op])
            else (ops + [op])[..|ops|] == ops && Apply(Run(w, ops), op).handed == e.handed
  {
    RunGrows(w, ops, op);
    assert (ops + [op])[..|ops|] == ops;
    if e.handed.None? {
      FruitlessGrows(w, ops, op);
    }
  }

  lemma FruitlessGrows(w: World, ops: seq<Operation>, op: Operation)
    requires Fruitless(w, ops) && Apply(Run(w, ops), op).handed.None?
    ensures Fruitless(w, ops + [op])
  {
    var longer := ops + [op];
    forall k | 0 <= k < |longer| ensures FruitlessAt(w, longer, k) {
      assert longer[..k] == ops[..k];
      if k < |ops| {
        assert FruitlessAt(w, ops, k);
      }
    }
  }

  /** Round `k` of a status sweep checked the `k`-th stored binding and reported row `k`. */
  ghost predicate CheckedAt(w: World, ops: seq<Operation>, rows: seq<Option<Binding>>, k: nat)
    requires k < |ops| == |rows| <= |w.bindings|
  {
    && ops[k].Check? && ops[k].b == w.bindings[k]
    && rows[k] == DoCheck(Run(w, ops[..k]), w.bindings[k], ops[k].recovery).handed
  }

  /** Status rounds over a prefix of the stored bindings, and the rows they reported. */
  ghost predicate Checked(w: World, ops: seq<Operation>, rows: seq<Option<Binding>>) {
    && |rows| == |ops| <= |w.bindings|
    && forall k :: 0 <= k < |ops| ==> CheckedAt(w, ops, rows, k)
  }

  lemma CheckedGrows(w: World, ops: seq<Operation>, rows: seq<Option<Binding>>, recovery: Recovery, e: Effect)
    requires Checked(w, ops, rows) && |ops| < |w.bindings|
    requires e == DoCheck(Run(w, ops), w.bindings[|ops|], recovery)
    ensures
      var longer := ops + [Check(w.bindings[|ops|], recovery)];
      Checked(w, longer, rows + [e.handed]) && Run(w, longer) == e.world
  {
    var op := Check(w.bindings[|ops|], recovery);
    RunGrows(w, ops, op);
    var longer := ops + [op];
    assert longer[..|ops|] == ops;
    forall k | 0 <= k < |longer| ensures CheckedAt(w, longer, rows + [e.handed], k) {
      if k < |ops| {
        assert CheckedAt(w, ops, rows, k) && longer[..k] == ops[..k];
      }
    }
  }

  ghost predicate SearchedInVain(w: World, ops: seq<Operation>, provider: string, host: Option<string>) {
    Rounds(w.bindings, ops, provider, host) && |ops| == |w.bindings| && Fruitless(w, ops)
  }

  ghost predicate Found(
    w: World, ops: seq<Operation>, provider: string, host: Option<string>, handed: Option<Binding>)
  {
    && Rounds(w.bindings, ops, provider, host) && |ops| > 0 && Fruitless(w, ops[..|ops| - 1])
    && handed.Some? && Apply(Run(w, ops[..|ops| - 1]), ops[|ops| - 1]).handed == handed
  }

  lemma SearchKeepsUnbound(w: World, ops: seq<Operation>, provider: string, host: Option<string>, id: string)
    requires SearchedInVain(w, ops, provider, host)
    ensures Agreement(w) && !Bound(w.bindings, id) ==> !Bound(Run(w, ops).bindings, id)
  {
    if Agreement(w) {
      FruitlessSearch(w, ops, provider, host);
    }
  }

  lemma FoundKeepsAgreement(
    w: World, ops: seq<Operation>, provider: string, host: Option<string>, found: Option<Binding>)
    requires Found(w, ops, provider, host, found)
    ensures Agreement(w) ==> Agreement(Run(w, ops))
  {
    if Agreement(w) {
      var front, last := ops[..|ops| - 1], ops[|ops| - 1];
      assert front + [last] == ops;
      assert Rounds(w.bindings, front + [last], provider, host) && Fruitless(w, front);
      ReusedIsLeasedCandidate(w, front, last, provider, host, found.value);
    }
  }

  ghost predicate CreateFor(op: Operation, provider: string, host: Option<string>, workspaceID: string, setup: Setup) {
    op.Create? && op.request == HostRequest(provider, host, []) && op.workspaceID == workspaceID && op.setup == setup
  }

  ghost predicate CreatedThenRemoved(w: World, ops: seq<Operation>, workspaceID: string, closed: bool) {
    && |ops| == 2 && ops[0].Create? && ops[0].workspaceID == workspaceID
    && var e := Apply(w, ops[0]);
    && e.handed.Some? && ops[1] == Operation.Remove(e.handed.value, closed)
  }

  /** A whole search that found nothing, and then a create for the same provider and host. */
  ghost predicate SearchedThenCreated(
    w: World, ops: seq<Operation>, provider: string, host: Option<string>, workspaceID: string, setup: Setup,
    handed: Option<Binding>)
  {
    && |ops| == |w.bindings| + 1
    && SearchedInVain(w, ops[..|w.bindings|], provider, host)
    && CreateFor(ops[|w.bindings|], provider, host, workspaceID, setup)
    && handed == Apply(Run(w, ops[..|w.bindings|]), ops[|w.bindings|]).handed
  }

  lemma CreateEndsSearch(
    w: World, ops: seq<Operation>, op: Operation, provider: string, host: Option<string>, workspaceID: string,
    setup: Setup,
    handed: Option<Binding>)
    requires SearchedInVain(w, ops, provider, host) && CreateFor(op, provider, host, workspaceID, setup)
    requires handed == Apply(Run(w, ops), op).handed
    ensures SearchedThenCreated(w, ops + [op], provider, host, workspaceID, setup, handed)
    ensures Run(w, ops + [op]) == Apply(Run(w, ops), op).world
  {
    assert (ops + [op])[..|ops|] == ops;
    RunGrows(w, ops, op);
  }

  lemma DoctorTrace(w: World, ops: seq<Operation>, workspaceID: string, handed: Option<Binding>, closed: bool)
    requires |ops| > 0 && ops[|ops| - 1].Create? && ops[|ops| - 1].workspaceID == workspaceID
    requires handed.Some? && handed == Apply(Run(w, ops[..|ops| - 1]), ops[|ops| - 1]).handed
    ensures
      var n, longer := |ops| - 1, ops + [Operation.Remove(handed.value, closed)];
      longer[..n] == ops[..n] && CreatedThenRemoved(Run(w, longer[..n]), longer[n..], workspaceID, closed)
  {
    var n, longer := |ops| - 1, ops + [Operation.Remove(handed.value, closed)];
    assert longer[..n] == ops[..n] && longer[n..] == [ops[n], Operation.Remove(handed.value, closed)];
  }

  /** The preflight leaves no trace: create then remove of a fresh workspace restores leases and bindings exactly. */
  lemma DoctorLeavesNoTrace(w: World, ops: seq<Operation>, workspaceID: string)
    requires w.config.leaseMode == Exclusive && workspaceID != "" && CreatedThenRemoved(w, ops, workspaceID, true)
    requires !Bound(w.bindings, workspaceID) && forall host :: !HeldBy(w.leases, host, workspaceID)
    ensures Run(w, ops) == w
  {
    var b := Apply(w, ops[0]).handed.value;
    assert ops == ([] + [ops[0]]) + [Operation.Remove(b, true)];
    RunGrows(w, [], ops[0]);
    RunRemove(w, [] + [ops[0]], b, true);
    CreateThenForget(w, ops[0].request, workspaceID, ops[0].boot, ops[0].setup);
  }

  lemma CreateThenForget(w: World, request: HostRequest, id: string, boot: Boot, setup: Setup)
    requires w.config.leaseMode == Exclusive && id != ""
    requires !Bound(w.bindings, id) && forall host :: !HeldBy(w.leases, host, id)
    requires DoCreate(w, request, id, boot, setup).handed.Some?
    ensures var e := DoCreate(w, request, id, boot, setup); Forget(e.world, e.handed.value) == w
  {
    var e := DoCreate(w, request, id, boot, setup);
    ResolveSound(w.config, w.leases, request, id);
    DeleteUndoesStore(w.bindings, e.handed.value);
    assert !HeldBy(w.leases, e.handed.value.host, id);
    assert Released(e.world.leases, e.handed.value.host, id) == w.leases;
  }

  /** A row that reports a binding does so after a healthy answer from its port during the sweep. */
  ghost predicate RowAnswered(before: seq<Event>, after: seq<Event>, row: Option<Binding>) {
    row.Some? ==> exists k :: |before| <= k < |after| && HealthyProbe(after[k], row.value.localPort, row.value.token)
  }

  lemma RowsStayAnswered(
    before: seq<Event>, log: seq<Event>, after: seq<Event>, rows: seq<Option<Binding>>, row: Option<Binding>)
    requires before <= log <= after
    requires forall k :: 0 <= k < |rows| ==> RowAnswered(before, log, rows[k])
    requires row.Some? ==> EndsHealthy(log, after, row.value.localPort, row.value.token)
    ensures forall k :: 0 <= k <= |rows| ==> RowAnswered(before, after, (rows + [row])[k])
  {
    forall k | 0 <= k < |rows| ensures RowAnswered(before, after, rows[k]) {
      if rows[k].Some? {
        var j :| |before| <= j < |log| && HealthyProbe(log[j], rows[k].value.localPort, rows[k].value.token);
        assert after[j] == log[j];
      }
    }
  }

  ghost predicate PortSeen(before: seq<Event>, after: seq<Event>, port: int, reachable: bool) {
    exists k :: |before| <= k < |after| && SawPort(after[k], port, reachable)
  }

  /** The port of each binding asked to go was seen: not answering if it went, answering if it stayed. */
  ghost predicate AllSeen(before: seq<Event>, after: seq<Event>, ops: seq<Operation>) {
    forall k :: 0 <= k < |ops| ==> Seen(before, after, ops[k])
  }

  ghost predicate Seen(before: seq<Event>, after: seq<Event>, op: Operation) {
    op.Remove? && PortSeen(before, after, op.b.localPort, !op.closed)
  }

  lemma RemovalsStaySeen(
    before: seq<Event>, log: seq<Event>, after: seq<Event>, ops: seq<Operation>, b: Binding, closed: bool)
    requires before <= log < after && SawPort(after[|after| - 1], b.localPort, !closed)
    requires AllSeen(before, log, ops)
    ensures before <= after && AllSeen(before, after, ops + [Operation.Remove(b, closed)])
  {
    forall k | 0 <= k < |ops| ensures Seen(before, after, ops[k]) {
      assert Seen(before, log, ops[k]);
      var j :| |before| <= j < |log| && SawPort(log[j], ops[k].b.localPort, !ops[k].closed);
      assert after[j] == log[j];
    }
    assert Seen(before, after, Operation.Remove(b, closed));
  }

  // ---------- Sweeps over all bindings ----------

  /** An operation on one stored binding leaves the others stored. */
  lemma SweepStepFrame(v: World, op: Operation)
    requires Agreement(v) && (op.Check? || op.Remove?) && op.b in v.bindings
    ensures forall c :: c in v.bindings && c != op.b ==> c in Apply(v, op).world.bindings
  {
    if op.Check? {
      CheckStores(v, op.b, op.recovery);
    } else {
      ForgetKeepsOthers(v, op.b);
    }
  }

  /** The bindings that the first operations of a sweep have not reached are still stored, so the sweep is legal. */
  lemma {:induction false} SweepIsLegal(w: World, ops: seq<Operation>)
    requires Agreement(w) && |ops| <= |w.bindings|
    requires forall k :: 0 <= k < |ops| ==> (ops[k].Check? || ops[k].Remove?) && ops[k].b == w.bindings[k]
    ensures Legal(w, ops) && Agreement(Run(w, ops))
    ensures forall k :: |ops| <= k < |w.bindings| ==> w.bindings[k] in Run(w, ops).bindings
  {
    if ops != [] {
      var n := |ops| - 1;
      var front, last := ops[..n], ops[n];
      assert ops == front + [last];
      SweepIsLegal(w, front);
      var v := Run(w, front);
      assert last.b in v.bindings;
      RunGrows(w, front, last);
      LegalGrows(w, front, last);
      ApplyKeepsAgreement(v, last);
      SweepStepFrame(v, last);
      forall k | |ops| <= k < |w.bindings| ensures w.bindings[k] in Run(w, ops).bindings {
        assert w.bindings[k] in v.bindings && w.bindings[k] != last.b;
      }
    }
  }

  lemma CheckStores(v: World, b: Binding, recovery: Recovery)
    requires UniqueIDs(v.bindings) && b in v.bindings
    ensures
      var e := DoCheck(v, b, recovery);
      forall c :: c in e.world.bindings <==> (c in v.bindings && c != b) || e.handed == Some(c)
  {
    DeletedSpec(v.bindings, b.workspaceID);
    var e := DoReady(v, b, recovery);
    if e.handed.Some? {
      StoredSpec(v.bindings, e.handed.value);
    }
    forall c | c in v.bindings && c != b ensures c.workspaceID != b.workspaceID {
      if c.workspaceID == b.workspaceID {
        SameIDSameBinding(v.bindings, b, c);
      }
    }
  }

  /** Stored after a status sweep: what a row reported as connected, or what the sweep has not reached. */
  ghost predicate ReportedOrUnreached(w: World, rows: seq<Option<Binding>>, c: Binding)
    requires |rows| <= |w.bindings|
  {
    Some(c) in rows || c in w.bindings[|rows|..]
  }

  lemma RowKeepsID(w: World, ops: seq<Operation>, rows: seq<Option<Binding>>, k: nat)
    requires Checked(w, ops, rows) && k < |rows| && rows[k].Some?
    ensures rows[k].value.workspaceID == w.bindings[k].workspaceID
  {
    assert CheckedAt(w, ops, rows, k);
  }

  /** The next binding has not been reported yet: rows keep the identifiers of their bindings. */
  lemma NextNotReported(w: World, ops: seq<Operation>, rows: seq<Option<Binding>>)
    requires UniqueIDs(w.bindings) && Checked(w, ops, rows) && |ops| < |w.bindings|
    ensures Some(w.bindings[|ops|]) !in rows
  {
    forall k | 0 <= k < |rows| ensures rows[k] != Some(w.bindings[|ops|]) {
      if rows[k].Some? {
        RowKeepsID(w, ops, rows, k);
      }
    }
  }

  lemma CheckedPrefix(w: World, ops: seq<Operation>, rows: seq<Option<Binding>>)
    requires Checked(w, ops, rows) && ops != []
    ensures
      var n := |ops| - 1;
      && Checked(w, ops[..n], rows[..n]) && ops[n].Check?
      && Effect(rows[n], Run(w, ops)) == DoCheck(Run(w, ops[..n]), w.bindings[n], ops[n].recovery)
  {
    var n := |ops| - 1;
    assert CheckedAt(w, ops, rows, n);
    forall k | 0 <= k < n ensures CheckedAt(w, ops[..n], rows[..n], k) {
      assert CheckedAt(w, ops, rows, k) && ops[..n][..k] == ops[..k];
    }
  }

  /**
   After a status sweep the stored bindings are exactly those reported as connected, besides those
   not reached yet.
   */
  lemma {:induction false} StatusReportsWhatIsStored(w: World, ops: seq<Operation>, rows: seq<Option<Binding>>)
    requires Agreement(w) && Checked(w, ops, rows)
    ensures forall c :: c in Run(w, ops).bindings <==> ReportedOrUnreached(w, rows, c)
    ensures Agreement(Run(w, ops))
    decreases |ops|
  {
    if ops == [] {
      assert w.bindings[0..] == w.bindings;
    } else {
      var n := |ops| - 1;
      CheckedPrefix(w, ops, rows);
      StatusReportsWhatIsStored(w, ops[..n], rows[..n]);
      NextNotReported(w, ops[..n], rows[..n]);
      RowsAdvance(w, Run(w, ops[..n]), ops[n].recovery, Run(w, ops), rows, n);
    }
  }

  lemma RowsAdvance(w: World, v: World, recovery: Recovery, v': World, rows: seq<Option<Binding>>, n: nat)
    requires UniqueIDs(w.bindings) && n < |w.bindings| && |rows| == n + 1
    requires Agreement(v) && Effect(rows[n], v') == DoCheck(v, w.bindings[n], recovery)
    requires forall c :: c in v.bindings <==> ReportedOrUnreached(w, rows[..n], c)
    requires Some(w.bindings[n]) !in rows[..n]
    ensures Agreement(v')
    ensures forall c :: c in v'.bindings <==> ReportedOrUnreached(w, rows, c)
  {
    var b := w.bindings[n];
    assert rows == rows[..n] + [rows[n]];
    assert w.bindings[n..] == [b] + w.bindings[n + 1..];
    assert b !in w.bindings[n + 1..];
    assert ReportedOrUnreached(w, rows[..n], b);
    CheckStores(v, b, recovery);
    CheckKeepsAgreement(v, b, recovery);
  }

  /** Disconnecting everything, when every tunnel closes, leaves no binding at all. */
  lemma DisconnectAllLeavesNone(w: World)
    requires Agreement(w)
    ensures forall c :: c !in Run(w, Removals(w.bindings)).bindings
  {
    DisconnectedPrefix(w, |w.bindings|);
    assert w.bindings[..|w.bindings|] == w.bindings;
  }

  lemma {:induction false} DisconnectedPrefix(w: World, n: nat)
    requires Agreement(w) && n <= |w.bindings|
    ensures forall c :: c in Run(w, Removals(w.bindings[..n])).bindings <==> c in w.bindings[n..]
    ensures Agreement(Run(w, Removals(w.bindings[..n])))
  {
    if n == 0 {
      assert w.bindings[0..] == w.bindings && Removals(w.bindings[..0]) == [];
    } else {
      DisconnectedPrefix(w, n - 1);
      RemovalsGrow(w.bindings, n - 1);
      RunRemove(w, Removals(w.bindings[..n - 1]), w.bindings[n - 1], true);
      DisconnectStep(w, Run(w, Removals(w.bindings[..n - 1])), n - 1);
    }
  }

  lemma DisconnectStep(w: World, v: World, n: nat)
    requires UniqueIDs(w.bindings) && n < |w.bindings| && Agreement(v)
    requires forall c :: c in v.bindings <==> c in w.bindings[n..]
    ensures Agreement(DoRemove(v, w.bindings[n], true))
    ensures forall c :: c in DoRemove(v, w.bindings[n], true).bindings <==> c in w.bindings[n + 1..]
  {
    var b := w.bindings[n];
    assert w.bindings[n..] == [b] + w.bindings[n + 1..];
    assert b !in w.bindings[n + 1..];
    ForgetKeepsOthers(v, b);
    ForgetKeepsAgreement(v, b);
  }
}
