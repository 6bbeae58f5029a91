/**
 Which tunnel processes are accounted for: every process that was started and not
 signalled should be the recorded process of a stored binding, since nothing else
 remembers its identifier.  Each operation keeps that exactly on a condition, and
 what is lost once stays lost.
 */
module Processes {
  import opened Wrappers
  import opened Providers
  import opened RuntimeState
  import opened Tunnels
  import opened Lifecycle
  import opened ReuseSearch

  /** The plugin's state together with the processes it has started and not signalled. */
  datatype Installation = Installation(world: World, running: seq<int>)

  /** An operation, and whether its tunnel teardown signalled the binding's process. */
  datatype Act = Act(op: Operation, signalled: bool)

  /** The processes an operation starts and leaves running. */
  function Started(op: Operation): seq<int> {
    match op
    case Create(_, _, boot, _) => BootProcess(boot)
    case Ready(_, recovery) => RecoveryProcess(recovery)
    case Check(_, recovery) => RecoveryProcess(recovery)
    case Reuse(_, _, _, recovery, _) => RecoveryProcess(recovery)
    case _ => []
  }

  ghost function After(i: Installation, act: Act): Installation {
    Installation(
      Apply(i.world, act.op).world,
      if act.signalled && act.op.Remove? && act.op.b.tunnelPID.Some? then Stopped(i.running, act.op.b.tunnelPID.value)
      else i.running + Started(act.op))
  }

  // ---------- What is recorded ----------

  ghost predicate Recorded(bs: seq<Binding>, pid: int) {
    exists b :: b in bs && b.tunnelPID == Some(pid)
  }

  predicate OwnRuns(running: seq<int>, b: Binding) {
    b.tunnelPID.Some? && b.tunnelPID.value in running
  }

  /** Processes have distinct identifiers, and no two bindings record the same one. */
  ghost predicate DistinctProcesses(i: Installation) {
    UniqueIDs(i.world.bindings) && NoSharedProcess(i.world.bindings) && AllDifferent(i.running)
  }

  ghost predicate NoSharedProcess(bs: seq<Binding>) {
    forall b, c :: b in bs && c in bs && b.tunnelPID.Some? && b.tunnelPID == c.tunnelPID ==> b == c
  }

  /** Every process that runs is recorded by a stored binding. */
  ghost predicate Tracked(i: Installation) {
    forall pid :: pid in i.running ==> Recorded(i.world.bindings, pid)
  }

  /** The operation is legal, and a new process has an identifier that is neither running nor recorded. */
  ghost predicate Possible(i: Installation, act: Act) {
    && Enabled(i.world, act.op) && Orderly(i.world, act)
    && forall pid :: pid in Started(act.op) ==> pid !in i.running && !Recorded(i.world.bindings, pid)
  }

  /** An operation that does not get as far as a tunnel starts no process, and only a removal signals one. */
  predicate Orderly(w: World, act: Act) {
    && (Reaches(w, act.op) || Started(act.op) == [])
    && (act.signalled ==> act.op.Remove? && act.op.b.tunnelPID.Some?)
  }

  /** The operation leases the host it needs, so that a tunnel is opened or recovered. */
  predicate Reaches(w: World, op: Operation) {
    match op
    case Create(request, id, _, _) => Resolve(w.config, w.leases, request, id).result.Ok?
    case Ready(b, _) => Resolve(w.config, w.leases, OwnHost(b), b.workspaceID).result.Ok?
    case Check(b, _) => Resolve(w.config, w.leases, OwnHost(b), b.workspaceID).result.Ok?
    case Reuse(b, provider, host, _, _) => Recoverable(w, b, provider, host)
    case _ => true
  }

  predicate Recoverable(w: World, b: Binding, provider: string, host: Option<string>) {
    && b.status != Removed && b.provider == provider
    && var r := Resolve(w.config, w.leases, ReuseRequest(b, provider, host), b.workspaceID);
       r.result.Ok? && r.result.value.name == b.host
  }

  // ---------- When an operation keeps every process tracked ----------

  /** What becomes of a binding that is acted on, and of its own process. */
  predicate KeepsOwn(i: Installation, b: Binding, started: seq<int>, handed: bool, forgets: bool) {
    if handed then started == [] || !OwnRuns(i.running, b)
    else started == [] && (forgets ==> !OwnRuns(i.running, b))
  }

  /**
   A process it starts must end up recorded, and a binding it forgets, or records
   another process for, must not have one running.
   */
  predicate KeepsTracked(i: Installation, act: Act) {
    var handed := Apply(i.world, act.op).handed.Some?;
    match act.op
    case Create(_, _, boot, _) => handed || BootProcess(boot) == []
    case Ready(b, recovery) => KeepsOwn(i, b, RecoveryProcess(recovery), handed, false)
    case Check(b, recovery) => KeepsOwn(i, b, RecoveryProcess(recovery), handed, true)
    case Reuse(b, provider, host, recovery, _) =>
      Live(b) && !Spared(i.world, b, provider, host) ==> KeepsOwn(i, b, RecoveryProcess(recovery), handed, true)
    case Remove(b, closed) => !closed || act.signalled || !OwnRuns(i.running, b)
    case Restart(_) => forall b | b in i.world.bindings :: Complete(b) || !OwnRuns(i.running, b)
    case _ => true
  }

  // ---------- How each change of the stored bindings shows ----------

  lemma AppendRecords(bs: seq<Binding>, n: Binding, pid: int)
    requires UniqueIDs(bs) && !Bound(bs, n.workspaceID)
    ensures Recorded(Stored(bs, n), pid) <==> n.tunnelPID == Some(pid) || Recorded(bs, pid)
  {
    StoredSpec(bs, n);
    assert n in Stored(bs, n);
  }

  lemma DeleteRecords(i: Installation, b: Binding, pid: int)
    requires DistinctProcesses(i) && b in i.world.bindings
    ensures Recorded(Deleted(i.world.bindings, b.workspaceID), pid) <==>
      Recorded(i.world.bindings, pid) && b.tunnelPID != Some(pid)
  {
    var bs := i.world.bindings;
    DeletedSpec(bs, b.workspaceID);
    if Recorded(bs, pid) && b.tunnelPID != Some(pid) {
      var c :| c in bs && c.tunnelPID == Some(pid);
      OtherBinding(bs, b, c);
    }
  }

  lemma ReplaceRecords(i: Installation, b: Binding, n: Binding, pid: int)
    requires DistinctProcesses(i) && b in i.world.bindings && n.workspaceID == b.workspaceID
    ensures Recorded(Stored(i.world.bindings, n), pid) <==>
      n.tunnelPID == Some(pid) || (Recorded(i.world.bindings, pid) && b.tunnelPID != Some(pid))
  {
    var bs := i.world.bindings;
    StoredSpec(bs, n);
    assert n in Stored(bs, n);
    if Recorded(bs, pid) && b.tunnelPID != Some(pid) {
      var c :| c in bs && c.tunnelPID == Some(pid);
      OtherBinding(bs, b, c);
    }
  }

  lemma OtherBinding(bs: seq<Binding>, b: Binding, c: Binding)
    requires UniqueIDs(bs) && b in bs && c in bs && b != c
    ensures b.workspaceID != c.workspaceID
  {
    if b.workspaceID == c.workspaceID {
      SameIDSameBinding(bs, b, c);
    }
  }

  ghost predicate AllDifferent(running: seq<int>) {
    forall j, k :: 0 <= j < k < |running| ==> running[j] != running[k]
  }

  lemma AppendDifferent(running: seq<int>, pid: int)
    requires AllDifferent(running) && pid !in running
    ensures AllDifferent(running + [pid])
  {
  }

  lemma {:induction false} StoppedMembers(running: seq<int>, pid: int)
    requires AllDifferent(running)
    ensures AllDifferent(Stopped(running, pid))
    ensures forall p :: p in Stopped(running, pid) <==> p in running && p != pid
  {
    if running != [] {
      var n := |running| - 1;
      var front, last := running[..n], running[n];
      assert running == front + [last];
      StoppedMembers(front, pid);
      assert last !in front;
      if last != pid {
        AppendDifferent(Stopped(front, pid), last);
      }
    }
  }

  // ---------- Operations as changes of the stored bindings ----------

  datatype Change = Same | Append(n: Binding) | Delete(b: Binding) | Replace(b: Binding, n: Binding) | KeepComplete

  function ChangeOf(w: World, op: Operation): Change {
    var handed := Apply(w, op).handed;
    match op
    case Create(_, _, _, _) => if handed.Some? then Append(handed.value) else Same
    case Ready(b, recovery) => if handed.Some? && recovery.Reopened? then Replace(b, handed.value) else Same
    case Check(b, recovery) =>
      if handed.None? then Delete(b) else if recovery.Reopened? then Replace(b, handed.value) else Same
    case Reuse(b, provider, host, _, _) =>
      if handed.Some? then Replace(b, handed.value) else if Live(b) && !Spared(w, b, provider, host) then Delete(b)
        else Same
    case Remove(b, closed) => if closed then Delete(b) else Same
    case Restart(_) => KeepComplete
    case _ => Same
  }

  ghost predicate RecordedAfter(bs: seq<Binding>, change: Change, pid: int) {
    match change
    case Same => Recorded(bs, pid)
    case Append(n) => n.tunnelPID == Some(pid) || Recorded(bs, pid)
    case Delete(b) => Recorded(bs, pid) && b.tunnelPID != Some(pid)
    case Replace(b, n) => n.tunnelPID == Some(pid) || (Recorded(bs, pid) && b.tunnelPID != Some(pid))
    case KeepComplete => exists b :: b in bs && Complete(b) && b.tunnelPID == Some(pid)
  }

  function Changed(bs: seq<Binding>, change: Change): seq<Binding> {
    match change
    case Same => bs
    case Append(n) => Stored(bs, n)
    case Delete(b) => Deleted(bs, b.workspaceID)
    case Replace(b, n) => Stored(bs, n)
    case KeepComplete => CompleteOnes(bs)
  }

  /** A changed binding is a stored one, keeps its identifier, and a new one has a new identifier. */
  ghost predicate Proper(bs: seq<Binding>, change: Change) {
    match change
    case Append(n) => !Bound(bs, n.workspaceID)
    case Delete(b) => b in bs
    case Replace(b, n) => b in bs && n.workspaceID == b.workspaceID
    case _ => true
  }

  lemma ReadyChanges(i: Installation, b: Binding, recovery: Recovery)
    requires b in i.world.bindings
    requires forall pid :: pid in RecoveryProcess(recovery) ==> !Recorded(i.world.bindings, pid)
    ensures
      var e := DoReady(i.world, b, recovery);
      && (e.handed.Some? && recovery.Reopened? ==>
            && e.world.bindings == Stored(i.world.bindings, e.handed.value)
            && e.handed.value.workspaceID == b.workspaceID && e.handed.value.tunnelPID == Some(recovery.tunnelPID))
      && (e.handed.None? || !recovery.Reopened? ==> e.world.bindings == i.world.bindings)
      && (e.handed.Some? && !recovery.Reopened? ==> RecoveryProcess(recovery) == [])
  {
    if recovery.Reopened? && b.tunnelPID == Some(recovery.tunnelPID) {
      assert Recorded(i.world.bindings, recovery.tunnelPID);
    }
  }

  lemma OperationChanges(i: Installation, act: Act)
    requires Possible(i, act)
    ensures Proper(i.world.bindings, ChangeOf(i.world, act.op))
    ensures Apply(i.world, act.op).world.bindings == Changed(i.world.bindings, ChangeOf(i.world, act.op))
  {
    match act.op
    case Ready(b, recovery) => ReadyChanges(i, b, recovery);
    case Check(b, recovery) => ReadyChanges(i, b, recovery);
    case _ =>
  }

  lemma ChangeRecords(i: Installation, change: Change, pid: int)
    requires DistinctProcesses(i) && Proper(i.world.bindings, change)
    ensures Recorded(Changed(i.world.bindings, change), pid) <==> RecordedAfter(i.world.bindings, change, pid)
  {
    match change
    case Append(n) => AppendRecords(i.world.bindings, n, pid);
    case Delete(b) => DeleteRecords(i, b, pid);
    case Replace(b, n) => ReplaceRecords(i, b, n, pid);
    case KeepComplete => CompleteOnesSpec(i.world.bindings);
    case Same =>
  }

  /** What a stored binding records is the process just started, or what its predecessor recorded when none was. */
  lemma StoresItsProcess(i: Installation, act: Act)
    requires Possible(i, act)
    ensures
      match ChangeOf(i.world, act.op)
      case Append(n) => n.tunnelPID.Some? && Started(act.op) == [n.tunnelPID.value]
      case Replace(b, n) =>
        if Started(act.op) == [] then n.tunnelPID == b.tunnelPID
        else n.tunnelPID.Some? && Started(act.op) == [n.tunnelPID.value]
      case _ => true
  {
    match act.op
    case Ready(b, recovery) => ReadyChanges(i, b, recovery);
    case Check(b, recovery) => ReadyChanges(i, b, recovery);
    case _ =>
  }

  // ---------- The running processes ----------

  lemma RunningMembers(i: Installation, act: Act)
    requires DistinctProcesses(i) && Possible(i, act)
    ensures forall pid :: pid in After(i, act).running <==>
      || pid in Started(act.op)
      || (pid in i.running && !(act.signalled && act.op.b.tunnelPID == Some(pid)))
  {
    if act.signalled {
      StoppedMembers(i.running, act.op.b.tunnelPID.value);
    }
  }

  // ---------- The exact condition for one operation ----------

  ghost predicate TrackedAfter(i: Installation, act: Act) {
    forall pid :: pid in After(i, act).running ==> RecordedAfter(i.world.bindings, ChangeOf(i.world, act.op), pid)
  }

  lemma TrackedAfterIs(i: Installation, act: Act)
    requires DistinctProcesses(i) && Possible(i, act)
    ensures Tracked(After(i, act)) <==> TrackedAfter(i, act)
  {
    OperationChanges(i, act);
    forall pid
      ensures Recorded(After(i, act).world.bindings, pid) <==>
        RecordedAfter(i.world.bindings, ChangeOf(i.world, act.op), pid)
    {
      ChangeRecords(i, ChangeOf(i.world, act.op), pid);
    }
  }

  lemma RestartTracks(i: Installation, act: Act)
    requires DistinctProcesses(i) && Tracked(i) && Possible(i, act) && act.op.Restart?
    ensures TrackedAfter(i, act) <==> KeepsTracked(i, act)
  {
    var bs := i.world.bindings;
    if KeepsTracked(i, act) {
      forall pid | pid in i.running ensures RecordedAfter(bs, KeepComplete, pid) {
        var b :| b in bs && b.tunnelPID == Some(pid);
      }
    }
    if TrackedAfter(i, act) {
      forall b | b in bs ensures Complete(b) || !OwnRuns(i.running, b) {
        if OwnRuns(i.running, b) {
          assert b.tunnelPID.value in After(i, act).running;
          assert RecordedAfter(bs, ChangeOf(i.world, act.op), b.tunnelPID.value);
          var c :| c in bs && Complete(c) && c.tunnelPID == b.tunnelPID;
        }
      }
    }
  }

  lemma RemovalTracks(i: Installation, act: Act)
    requires DistinctProcesses(i) && Tracked(i) && Possible(i, act) && act.op.Remove?
    ensures TrackedAfter(i, act) <==> KeepsTracked(i, act)
  {
    RunningMembers(i, act);
    var b := act.op.b;
    if act.op.closed && !act.signalled && OwnRuns(i.running, b) {
      NotTracked(i, act, b.tunnelPID.value);
    } else {
      forall pid | pid in After(i, act).running
        ensures RecordedAfter(i.world.bindings, ChangeOf(i.world, act.op), pid)
      {
        assert pid in i.running && Recorded(i.world.bindings, pid);
      }
    }
  }

  lemma StartingTracks(i: Installation, act: Act)
    requires DistinctProcesses(i) && Tracked(i) && Possible(i, act)
    requires act.op.Create? || act.op.Ready? || act.op.Check? || act.op.Reuse?
    ensures TrackedAfter(i, act) <==> KeepsTracked(i, act)
  {
    StoresItsProcess(i, act);
    StartedIsOne(act.op);
    match ChangeOf(i.world, act.op)
    case Append(n) => AppendTracks(i, act, n);
    case Delete(b) => DeleteTracks(i, act, b);
    case Replace(b, n) => ReplaceTracks(i, act, b, n);
    case _ => SameTracks(i, act);
    ConditionIs(i, act);
  }

  lemma StartedIsOne(op: Operation)
    ensures Started(op) == [] || |Started(op)| == 1
  {
  }

  lemma NotTracked(i: Installation, act: Act, pid: int)
    requires pid in After(i, act).running && !RecordedAfter(i.world.bindings, ChangeOf(i.world, act.op), pid)
    ensures !TrackedAfter(i, act)
  {
  }

  lemma AppendTracks(i: Installation, act: Act, n: Binding)
    requires DistinctProcesses(i) && Tracked(i) && Possible(i, act) && !act.op.Remove?
    requires ChangeOf(i.world, act.op) == Append(n)
    requires n.tunnelPID.Some? && Started(act.op) == [n.tunnelPID.value]
    ensures TrackedAfter(i, act)
  {
    RunningMembers(i, act);
  }

  lemma SameTracks(i: Installation, act: Act)
    requires DistinctProcesses(i) && Tracked(i) && Possible(i, act) && !act.op.Remove?
    requires ChangeOf(i.world, act.op) == Same
    ensures TrackedAfter(i, act) <==> Started(act.op) == []
  {
    RunningMembers(i, act);
    if Started(act.op) != [] {
      NotTracked(i, act, Started(act.op)[0]);
    }
  }

  lemma DeleteTracks(i: Installation, act: Act, b: Binding)
    requires DistinctProcesses(i) && Tracked(i) && Possible(i, act) && !act.op.Remove?
    requires ChangeOf(i.world, act.op) == Delete(b)
    ensures TrackedAfter(i, act) <==> Started(act.op) == [] && !OwnRuns(i.running, b)
  {
    RunningMembers(i, act);
    if Started(act.op) != [] {
      NotTracked(i, act, Started(act.op)[0]);
    } else if OwnRuns(i.running, b) {
      NotTracked(i, act, b.tunnelPID.value);
    } else {
      forall pid | pid in After(i, act).running ensures RecordedAfter(i.world.bindings, Delete(b), pid) {
        assert pid in i.running && Recorded(i.world.bindings, pid);
      }
    }
  }

  lemma ReplaceTracks(i: Installation, act: Act, b: Binding, n: Binding)
    requires DistinctProcesses(i) && Tracked(i) && Possible(i, act) && !act.op.Remove?
    requires ChangeOf(i.world, act.op) == Replace(b, n) && b in i.world.bindings
    requires
      if Started(act.op) == [] then n.tunnelPID == b.tunnelPID
      else n.tunnelPID.Some? && Started(act.op) == [n.tunnelPID.value]
    ensures TrackedAfter(i, act) <==> Started(act.op) == [] || !OwnRuns(i.running, b)
  {
    RunningMembers(i, act);
    if Started(act.op) != [] && OwnRuns(i.running, b) {
      assert n.tunnelPID.value in Started(act.op) && Recorded(i.world.bindings, b.tunnelPID.value);
      NotTracked(i, act, b.tunnelPID.value);
    } else {
      forall pid | pid in After(i, act).running ensures RecordedAfter(i.world.bindings, Replace(b, n), pid) {
        assert pid in i.running ==> Recorded(i.world.bindings, pid);
      }
    }
  }

  /** The condition, read off the change of the stored bindings. */
  lemma ConditionIs(i: Installation, act: Act)
    requires Possible(i, act) && (act.op.Create? || act.op.Ready? || act.op.Check? || act.op.Reuse?)
    ensures
      KeepsTracked(i, act) <==>
      match ChangeOf(i.world, act.op)
      case Append(_) => true
      case Delete(b) => Started(act.op) == [] && !OwnRuns(i.running, b)
      case Replace(b, _) => Started(act.op) == [] || !OwnRuns(i.running, b)
      case _ => Started(act.op) == []
  {
    match act.op
    case Ready(b, recovery) => ReadyChanges(i, b, recovery);
    case Check(b, recovery) => ReadyChanges(i, b, recovery);
    case _ =>
  }

  /**
   An operation keeps every running process recorded if and only if every process
   it starts ends up recorded and no binding it forgets, or records another process
   for, has one running.
   */
  lemma KeepsTrackedIff(i: Installation, act: Act)
    requires DistinctProcesses(i) && Tracked(i) && Possible(i, act)
    ensures Tracked(After(i, act)) <==> KeepsTracked(i, act)
  {
    TrackedAfterIs(i, act);
    match act.op
    case Remove(_, _) => RemovalTracks(i, act);
    case Restart(_) => RestartTracks(i, act);
    case Configure(_, _) => SameTracks(i, act);
    case Reinit(_) => SameTracks(i, act);
    case _ => StartingTracks(i, act);
  }

  /** What a call of the plugin is proved to do: one operation, in an orderly way. */
  ghost predicate Performed(i: Installation, i': Installation, act: Act) {
    i' == After(i, act) && Orderly(i.world, act)
  }

  /** So it keeps every running process recorded if and only if the operation meets its condition. */
  lemma CallKeepsTrackedIff(i: Installation, i': Installation, act: Act)
    requires Performed(i, i', act) && DistinctProcesses(i) && Tracked(i) && Possible(i, act)
    ensures DistinctProcesses(i') && (Tracked(i') <==> KeepsTracked(i, act))
  {
    DistinctStays(i, act);
    KeepsTrackedIff(i, act);
  }

  lemma Performs(i: Installation, i': Installation, act: Act)
    requires i'.world == Apply(i.world, act.op).world && Orderly(i.world, act)
    requires i'.running ==
      if act.signalled && act.op.Remove? && act.op.b.tunnelPID.Some? then Stopped(i.running, act.op.b.tunnelPID.value)
      else i.running + Started(act.op)
    ensures Performed(i, i', act)
  {
  }

  lemma CreatePerforms(i: Installation, i': Installation, request: HostRequest, id: string, boot: Boot, setup: Setup)
    requires i'.world == DoCreate(i.world, request, id, boot, setup).world
    requires i'.running == i.running + BootProcess(boot)
    requires Resolve(i.world.config, i.world.leases, request, id).result.Err? ==> BootProcess(boot) == []
    ensures Performed(i, i', Act(Create(request, id, boot, setup), false))
    ensures i'.running == i.running <==> boot.Unprepared? || boot.NoPort?
    ensures Agreement(i.world) && id != "" && !Bound(i.world.bindings, id) ==> Agreement(i'.world)
  {
    LongerUnlessEmpty(i.running, BootProcess(boot));
    if Agreement(i.world) && id != "" && !Bound(i.world.bindings, id) {
      CreateKeepsAgreement(i.world, request, id, boot, setup);
    }
    Performs(i, i', Act(Create(request, id, boot, setup), false));
  }

  lemma ReadyPerforms(i: Installation, i': Installation, b: Binding, recovery: Recovery)
    requires i'.world == DoReady(i.world, b, recovery).world && i'.running == i.running + RecoveryProcess(recovery)
    requires Resolve(i.world.config, i.world.leases, OwnHost(b), b.workspaceID).result.Err? ==>
      RecoveryProcess(recovery) == []
    ensures Performed(i, i', Act(Operation.Ready(b, recovery), false))
    ensures Agreement(i.world) && b in i.world.bindings ==> Agreement(i'.world)
  {
    if Agreement(i.world) && b in i.world.bindings {
      ReadyKeepsAgreement(i.world, b, recovery);
    }
    Performs(i, i', Act(Operation.Ready(b, recovery), false));
  }

  lemma CheckPerforms(i: Installation, i': Installation, b: Binding, recovery: Recovery)
    requires i'.world == DoCheck(i.world, b, recovery).world && i'.running == i.running + RecoveryProcess(recovery)
    requires Orderly(i.world, Act(Operation.Ready(b, recovery), false))
    ensures Performed(i, i', Act(Check(b, recovery), false))
  {
    Performs(i, i', Act(Check(b, recovery), false));
  }

  lemma ReusePerforms(
    i: Installation, i': Installation, b: Binding, provider: string, host: Option<string>, recovery: Recovery,
    session: Option<string>)
    requires i'.world == DoReuse(i.world, b, provider, host, recovery, session).world
    requires i'.running == i.running + RecoveryProcess(recovery)
    requires Recoverable(i.world, b, provider, host) || RecoveryProcess(recovery) == []
    ensures Performed(i, i', Act(Reuse(b, provider, host, recovery, session), false))
    ensures i'.running == i.running <==> recovery.StillHealthy? || recovery.NoTunnel?
  {
    LongerUnlessEmpty(i.running, RecoveryProcess(recovery));
    Performs(i, i', Act(Reuse(b, provider, host, recovery, session), false));
  }

  lemma RemovePerforms(i: Installation, i': Installation, b: Binding, closed: bool, signalled: bool)
    requires i'.world == DoRemove(i.world, b, closed) && (signalled ==> b.tunnelPID.Some?)
    requires i'.running == if signalled then Stopped(i.running, b.tunnelPID.value) else i.running
    ensures Performed(i, i', Act(Operation.Remove(b, closed), signalled))
  {
    assert i.running + [] == i.running;
    Performs(i, i', Act(Operation.Remove(b, closed), signalled));
  }

  // ---------- Whole runs ----------

  lemma DistinctStays(i: Installation, act: Act)
    requires DistinctProcesses(i) && Possible(i, act)
    ensures DistinctProcesses(After(i, act))
  {
    OperationChanges(i, act);
    StoresItsProcess(i, act);
    StartedIsOne(act.op);
    if act.signalled {
      StoppedMembers(i.running, act.op.b.tunnelPID.value);
    } else if Started(act.op) != [] {
      assert Started(act.op)[0] in Started(act.op) && Started(act.op) == [Started(act.op)[0]];
      AppendDifferent(i.running, Started(act.op)[0]);
    } else {
      assert i.running + [] == i.running;
    }
    ChangeKeepsDistinct(i, ChangeOf(i.world, act.op), Started(act.op));
  }

  lemma ChangeKeepsDistinct(i: Installation, change: Change, started: seq<int>)
    requires DistinctProcesses(i) && Proper(i.world.bindings, change)
    requires forall pid :: pid in started ==> !Recorded(i.world.bindings, pid)
    requires
      match change
      case Append(n) => n.tunnelPID.Some? && started == [n.tunnelPID.value]
      case Replace(b, n) => if started == [] then n.tunnelPID == b.tunnelPID
        else n.tunnelPID.Some? && started == [n.tunnelPID.value]
      case _ => true
    ensures UniqueIDs(Changed(i.world.bindings, change)) && NoSharedProcess(Changed(i.world.bindings, change))
  {
    var bs := i.world.bindings;
    match change
    case Append(n) =>
      StoredSpec(bs, n);
      assert n.tunnelPID.value in started;
      forall c | c in bs && c.tunnelPID.Some? ensures c.tunnelPID != n.tunnelPID {
        assert Recorded(bs, c.tunnelPID.value);
      }
    case Delete(b) => DeletedSpec(bs, b.workspaceID);
    case Replace(b, n) => ReplaceKeepsDistinct(i, b, n);
    case KeepComplete => UniqueSubset(bs); CompleteOnesSpec(bs);
    case Same =>
  }

  lemma ReplaceKeepsDistinct(i: Installation, b: Binding, n: Binding)
    requires DistinctProcesses(i) && b in i.world.bindings && n.workspaceID == b.workspaceID
    requires n.tunnelPID == b.tunnelPID || (n.tunnelPID.Some? && !Recorded(i.world.bindings, n.tunnelPID.value))
    ensures UniqueIDs(Stored(i.world.bindings, n)) && NoSharedProcess(Stored(i.world.bindings, n))
  {
    var bs := i.world.bindings;
    StoredSpec(bs, n);
    forall c | c in bs && c.workspaceID != n.workspaceID && c.tunnelPID.Some? ensures c.tunnelPID != n.tunnelPID {
      assert Recorded(bs, c.tunnelPID.value);
    }
  }

  /** A process that nothing records is never recorded or signalled again. */
  lemma LostStaysLost(i: Installation, act: Act)
    requires DistinctProcesses(i) && Possible(i, act) && !Tracked(i)
    ensures !Tracked(After(i, act))
  {
    TrackedAfterIs(i, act);
    RunningMembers(i, act);
    StoresItsProcess(i, act);
    var bs := i.world.bindings;
    var pid :| pid in i.running && !Recorded(bs, pid);
    assert act.signalled ==> act.op.b in bs && act.op.b.tunnelPID != Some(pid);
    assert pid in After(i, act).running && pid !in Started(act.op);
    NeverRecordedAgain(i, act, pid);
  }

  lemma NeverRecordedAgain(i: Installation, act: Act, pid: int)
    requires Possible(i, act) && !Recorded(i.world.bindings, pid) && pid !in Started(act.op)
    ensures !RecordedAfter(i.world.bindings, ChangeOf(i.world, act.op), pid)
  {
    StoresItsProcess(i, act);
    OperationChanges(i, act);
    match ChangeOf(i.world, act.op)
    case Append(n) => assert n.tunnelPID.value in Started(act.op);
    case Replace(b, n) => assert Started(act.op) != [] ==> n.tunnelPID.value in Started(act.op);
    case _ =>
  }

  ghost function RunActs(i: Installation, acts: seq<Act>): Installation {
    if acts == [] then i else After(RunActs(i, acts[..|acts| - 1]), acts[|acts| - 1])
  }

  ghost predicate AllPossible(i: Installation, acts: seq<Act>) {
    forall k :: 0 <= k < |acts| ==> Possible(RunActs(i, acts[..k]), acts[k])
  }

  ghost predicate AllKeepTracked(i: Installation, acts: seq<Act>) {
    forall k :: 0 <= k < |acts| ==> KeepsTrackedAt(i, acts, k)
  }

  /** Over whole runs: every running process is recorded at the end if and only if every operation met its condition. */
  lemma {:induction false} RunTrackedIff(i: Installation, acts: seq<Act>)
    requires DistinctProcesses(i) && Tracked(i) && AllPossible(i, acts)
    ensures DistinctProcesses(RunActs(i, acts))
    ensures Tracked(RunActs(i, acts)) <==> AllKeepTracked(i, acts)
  {
    if acts != [] {
      var front, last := acts[..|acts| - 1], acts[|acts| - 1];
      forall k | 0 <= k < |front| ensures front[..k] == acts[..k] && front[k] == acts[k] {
      }
      assert AllPossible(i, front);
      RunTrackedIff(i, front);
      assert Possible(RunActs(i, front), last);
      DistinctStays(RunActs(i, front), last);
      if Tracked(RunActs(i, front)) {
        KeepsTrackedIff(RunActs(i, front), last);
      } else {
        LostStaysLost(RunActs(i, front), last);
      }
      LastMeetsIts(i, acts);
    }
  }

  ghost predicate KeepsTrackedAt(i: Installation, acts: seq<Act>, k: nat)
    requires k < |acts|
  {
    KeepsTracked(RunActs(i, acts[..k]), acts[k])
  }

  lemma LastMeetsIts(i: Installation, acts: seq<Act>)
    requires acts != []
    ensures
      var n := |acts| - 1;
      AllKeepTracked(i, acts) <==> AllKeepTracked(i, acts[..n]) && KeepsTracked(RunActs(i, acts[..n]), acts[n])
  {
    var n := |acts| - 1;
    var front := acts[..n];
    forall k | 0 <= k < n ensures KeepsTrackedAt(i, front, k) <==> KeepsTrackedAt(i, acts, k) {
      assert front[..k] == acts[..k] && front[k] == acts[k];
    }
    assert KeepsTrackedAt(i, acts, n) <==> KeepsTracked(RunActs(i, acts[..n]), acts[n]);
  }
}
