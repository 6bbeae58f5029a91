/**
 The plugin at the grain of its awaits: tool calls interleave wherever one of
 them waits for SSH or HTTP, and everything between two awaits is one step.

 A task is a call that is waiting.  Loops over the stored bindings work on the
 list they read when they started, however stale it has become.
 */
module Bootstraps {
  import opened Wrappers
  import opened Leases
  import opened Providers
  import opened RuntimeState
  import opened Tunnels
  import opened Lifecycle

  datatype Kind =
    | Status                                               // remote-status: a failure forgets the binding
    | Target                                               // getTarget, remote-workspace-list: a failure is thrown
    | Reusing(provider: string, host: Option<string>)      // the search before remote-switch and remote-doctor connect
    | Closing                                              // remote-disconnect, remote-workspace-remove

  datatype Task =
    // a create: from taking its lease until it binds or fails
    | Booting(request: HostRequest, workspaceID: string, host: string)
    | Looping(kind: Kind, queue: seq<Binding>)
    | Awaiting(kind: Kind, b: Binding, queue: seq<Binding>)
    | Failing(kind: Kind, b: Binding, queue: seq<Binding>)

  datatype State = State(
    config: Config, leases: LeaseMap, bindings: seq<Binding>, used: set<string>, tasks: map<nat, Task>)

  datatype Action =
    | Configured(request: HostRequest, workspaceID: string)
    | StartCreate(t: nat, request: HostRequest, workspaceID: string)
    | FinishCreate(t: nat, boot: Boot, setup: Setup)
    | StartLoop(t: nat, kind: Kind, queue: seq<Binding>)
    | NextRound(t: nat)
    | Answer(t: nat, recovery: Recovery, session: Option<string>)
    | Closed(t: nat, closed: bool)
    | HandleFailure(t: nat)
    | EndLoop(t: nat)
    | Reinit(config: Config)
    | CrashAndRestart(config: Config)

  function WorldOf(s: State): World {
    World(s.config, s.leases, s.bindings)
  }

  function WithWorld(s: State, w: World): State {
    s.(leases := w.leases, bindings := w.bindings)
  }

  // ---------- Steps ----------

  ghost predicate Initial(s: State) {
    s.config.leaseMode == Exclusive && s.leases == map[] && s.bindings == [] && s.used == {} && s.tasks == map[]
  }

  /** Each workspace identifier is created at most once. */
  ghost predicate DoStartCreate(s: State, t: nat, request: HostRequest, id: string, s': State) {
    && t !in s.tasks && id != "" && id !in s.used
    && var r := Resolve(s.config, s.leases, request, id);
    && s' == s.(leases := r.leases, used := s.used + {id},
                tasks := if r.result.Ok? then s.tasks[t := Booting(request, id, r.result.value.name)] else s.tasks)
  }

  /** The create binds, or gives its lease back. */
  ghost predicate DoFinishCreate(s: State, t: nat, boot: Boot, setup: Setup, s': State) {
    && t in s.tasks && s.tasks[t].Booting?
    && var Booting(request, id, host) := s.tasks[t];
    && s' == (if !boot.Booted? || setup.WorkspaceFailed? || setup.SessionFailed? then
                s.(leases := Released(s.leases, host, id), tasks := s.tasks - {t})
              else
                s.(bindings := Stored(s.bindings, NewBinding(WorldOf(s), request, host, id, boot, setup)),
                  tasks := s.tasks - {t}))
  }

  ghost predicate DoStartLoop(s: State, t: nat, kind: Kind, queue: seq<Binding>, s': State) {
    && t !in s.tasks && (forall b :: b in queue ==> b in s.bindings)
    && s' == s.(tasks := s.tasks[t := Looping(kind, queue)])
  }

  /** The synchronous part of a round, up to its first await. */
  ghost predicate DoNextRound(s: State, t: nat, s': State) {
    && t in s.tasks && s.tasks[t].Looping? && s.tasks[t].queue != []
    && var Looping(kind, queue) := s.tasks[t];
    && var b, rest := queue[0], queue[1..];
    && match kind
       case Closing => s' == s.(tasks := s.tasks[t := Awaiting(kind, b, rest)])
       case Reusing(provider, host) =>
         if b.status == Removed || b.provider != provider then
           s' == s.(tasks := s.tasks[t := Looping(kind, rest)])
         else
           var r := Resolve(s.config, s.leases, ReuseRequest(b, provider, host), b.workspaceID);
           if r.result.Err? then s' == s.(leases := r.leases, tasks := s.tasks[t := Failing(kind, b, rest)])
           else if r.result.value.name != b.host then
             s' == s.(leases := Released(r.leases, r.result.value.name, b.workspaceID),
               tasks := s.tasks[t := Looping(kind, rest)])
           else s' == s.(leases := r.leases, tasks := s.tasks[t := Awaiting(kind, b, rest)])
       case _ =>
         var r := Resolve(s.config, s.leases, OwnHost(b), b.workspaceID);
         s' == s.(leases := r.leases,
                  tasks := s.tasks[t := if r.result.Err? then Failing(kind, b, rest) else Awaiting(kind, b, rest)])
  }

  /** Recovery answers; what is stored may bring back a binding somebody else has removed meanwhile. */
  ghost predicate DoAnswer(s: State, t: nat, recovery: Recovery, session: Option<string>, s': State) {
    && t in s.tasks && s.tasks[t].Awaiting? && !s.tasks[t].kind.Closing?
    && var Awaiting(kind, b, rest) := s.tasks[t];
    && var recovered := Recovered(b, recovery);
    && s' == (if recovered.None? || (kind.Reusing? && !HasSession(recovered.value) && session.None?) then
                s.(tasks := s.tasks[t := Failing(kind, b, rest)])
              else
                var r := if kind.Reusing? && !HasSession(recovered.value) then recovered.value.(sessionID := session)
                  else recovered.value;
                s.(bindings := if kind.Reusing? || r != b then Stored(s.bindings, r) else s.bindings,
                   tasks := if kind.Reusing? then s.tasks - {t} else s.tasks[t := Looping(kind, rest)]))
  }

  ghost predicate DoClosed(s: State, t: nat, closed: bool, s': State) {
    && t in s.tasks && s.tasks[t].Awaiting? && s.tasks[t].kind.Closing?
    && var Awaiting(kind, b, rest) := s.tasks[t];
    && s' == (if closed then WithWorld(s, Forget(WorldOf(s), b)).(tasks := s.tasks[t := Looping(kind, rest)])
              else s.(tasks := s.tasks - {t}))
  }

  ghost predicate DoHandleFailure(s: State, t: nat, s': State) {
    && t in s.tasks && s.tasks[t].Failing?
    && var Failing(kind, b, rest) := s.tasks[t];
    && s' == (if kind.Target? then s.(tasks := s.tasks - {t})
              else WithWorld(s, Forget(WorldOf(s), b)).(tasks := s.tasks[t := Looping(kind, rest)]))
  }

  /**
   The plugin entry point called again in the same process: waiting calls go on, leases are rebuilt
   from the bindings.
   */
  ghost predicate DoReinit(s: State, config: Config, s': State) {
    config.leaseMode == Exclusive && s' == s.(config := config, leases := Rehydrated(s.bindings))
  }

  ghost predicate NobodyBoots(s: State) {
    forall t :: t in s.tasks ==> !s.tasks[t].Booting?
  }

  ghost predicate Step(s: State, a: Action, s': State) {
    match a
    case Configured(request, id) => s' == s.(leases := Resolve(s.config, s.leases, request, id).leases)
    case StartCreate(t, request, id) => DoStartCreate(s, t, request, id, s')
    case FinishCreate(t, boot, setup) => DoFinishCreate(s, t, boot, setup, s')
    case StartLoop(t, kind, queue) => DoStartLoop(s, t, kind, queue, s')
    case NextRound(t) => DoNextRound(s, t, s')
    case Answer(t, recovery, session) => DoAnswer(s, t, recovery, session, s')
    case Closed(t, closed) => DoClosed(s, t, closed, s')
    case HandleFailure(t) => DoHandleFailure(s, t, s')
    case EndLoop(t) => t in s.tasks && s.tasks[t].Looping? && s' == s.(tasks := s.tasks - {t})
    case Reinit(config) => DoReinit(s, config, s')
    case CrashAndRestart(config) =>
      && config.leaseMode == Exclusive
      && s' == State(config, Rehydrated(CompleteOnes(s.bindings)), CompleteOnes(s.bindings), s.used, map[])
  }

  ghost predicate Next(s: State, s': State) {
    exists a :: Step(s, a, s')
  }

  ghost predicate Behavior(b: seq<State>) {
    && |b| > 0 && Initial(b[0])
    && forall i :: 0 <= i < |b| - 1 ==> Next(b[i], b[i + 1])
  }

  // ---------- The invariant ----------

  /** The bindings a task may still act on. */
  function Mentioned(task: Task): seq<Binding> {
    match task
    case Booting(_, _, _) => []
    case Looping(_, queue) => queue
    case Awaiting(_, b, queue) => [b] + queue
    case Failing(_, b, queue) => [b] + queue
  }

  ghost predicate IsBooting(s: State, id: string) {
    exists t :: t in s.tasks && s.tasks[t].Booting? && s.tasks[t].workspaceID == id
  }

  /** A known binding's identifier was created and is not one still being created. */
  ghost predicate Known(s: State, b: Binding) {
    b.workspaceID != "" && b.workspaceID in s.used && !IsBooting(s, b.workspaceID)
  }

  ghost predicate TaskOK(s: State, t: nat)
    requires t in s.tasks
  {
    && (forall b :: b in Mentioned(s.tasks[t]) ==> Known(s, b))
    && (s.tasks[t].Booting? ==> s.tasks[t].workspaceID != "" && s.tasks[t].workspaceID in s.used)
  }

  ghost predicate OneBootEach(s: State) {
    forall t, u :: t in s.tasks && u in s.tasks && t != u && s.tasks[t].Booting? && s.tasks[u].Booting? ==>
      s.tasks[t].workspaceID != s.tasks[u].workspaceID
  }

  /** Identifiers are kept apart: what holds of every reachable state. */
  ghost predicate Inv(s: State) {
    && s.config.leaseMode == Exclusive && UniqueIDs(s.bindings)
    && (forall b :: b in s.bindings ==> Known(s, b))
    && (forall t :: t in s.tasks ==> TaskOK(s, t))
    && OneBootEach(s)
  }

  /** Every bootstrap under way leases its host. */
  ghost predicate BootsLeased(s: State) {
    forall t :: t in s.tasks && s.tasks[t].Booting? ==> HeldBy(s.leases, s.tasks[t].host, s.tasks[t].workspaceID)
  }

  // ---------- Preservation ----------

  /** The new state knows at least the identifiers the old one did, and any new boot has a new identifier. */
  ghost predicate NoNewBootOfKnown(s: State, s': State) {
    && s.used <= s'.used
    && forall t :: t in s'.tasks && s'.tasks[t].Booting? ==>
         (t in s.tasks && s'.tasks[t] == s.tasks[t]) || s'.tasks[t].workspaceID !in s.used
  }

  lemma KnownStays(s: State, s': State, b: Binding)
    requires NoNewBootOfKnown(s, s') && Known(s, b)
    ensures Known(s', b)
  {
  }

  lemma Reassemble(s: State, s': State)
    requires Inv(s) && NoNewBootOfKnown(s, s')
    requires s'.config.leaseMode == Exclusive && UniqueIDs(s'.bindings) && OneBootEach(s')
    requires forall b :: b in s'.bindings ==> b in s.bindings || Known(s', b)
    requires forall t, b :: t in s'.tasks && b in Mentioned(s'.tasks[t]) ==>
      b in s.bindings || (t in s.tasks && b in Mentioned(s.tasks[t]))
    requires forall t :: t in s'.tasks && s'.tasks[t].Booting? ==>
      || (t in s.tasks && s'.tasks[t] == s.tasks[t])
      || (s'.tasks[t].workspaceID != "" && s'.tasks[t].workspaceID in s'.used)
    ensures Inv(s')
  {
    forall b | b in s'.bindings ensures Known(s', b) {
      if b in s.bindings {
        KnownStays(s, s', b);
      }
    }
    forall t | t in s'.tasks ensures TaskOK(s', t) {
      forall b | b in Mentioned(s'.tasks[t]) ensures Known(s', b) {
        if b !in s.bindings {
          assert TaskOK(s, t);
        }
        KnownStays(s, s', b);
      }
      if t in s.tasks {
        assert TaskOK(s, t);
      }
    }
  }

  lemma StartCreateKeepsInv(s: State, t: nat, request: HostRequest, id: string, s': State)
    requires Inv(s) && DoStartCreate(s, t, request, id, s')
    ensures Inv(s')
  {
    forall u | u in s.tasks && s.tasks[u].Booting? ensures s.tasks[u].workspaceID != id {
      assert TaskOK(s, u);
    }
    Reassemble(s, s');
  }

  lemma FinishCreateKeepsInv(s: State, t: nat, boot: Boot, setup: Setup, s': State)
    requires Inv(s) && DoFinishCreate(s, t, boot, setup, s')
    ensures Inv(s')
  {
    var Booting(request, id, host) := s.tasks[t];
    assert TaskOK(s, t) && !IsBooting(s', id);
    if s'.bindings != s.bindings {
      StoredSpec(s.bindings, NewBinding(WorldOf(s), request, host, id, boot, setup));
    }
    Reassemble(s, s');
  }

  lemma NextRoundMentions(s: State, t: nat, s': State)
    requires DoNextRound(s, t, s')
    ensures s'.bindings == s.bindings && s'.config == s.config && s'.used == s.used
    ensures t in s'.tasks && s'.tasks == s.tasks[t := s'.tasks[t]] && !s'.tasks[t].Booting?
    ensures forall b :: b in Mentioned(s'.tasks[t]) ==> b in Mentioned(s.tasks[t])
  {
  }

  lemma AnswerKeepsInv(s: State, t: nat, recovery: Recovery, session: Option<string>, s': State)
    requires Inv(s) && DoAnswer(s, t, recovery, session, s')
    ensures Inv(s')
  {
    var b := s.tasks[t].b;
    assert TaskOK(s, t) && Known(s, b);
    forall r: Binding | r.workspaceID == b.workspaceID ensures Known(s', r) {
      KnownStays(s, s', b);
    }
    if s'.bindings != s.bindings {
      StoredSpec(s.bindings, Late(s, t, recovery, session));
    }
    Reassemble(s, s');
  }

  /** What a late answer stores. */
  function Late(s: State, t: nat, recovery: Recovery, session: Option<string>): Binding
    requires t in s.tasks && s.tasks[t].Awaiting? && Recovered(s.tasks[t].b, recovery).Some?
  {
    var recovered := Recovered(s.tasks[t].b, recovery).value;
    if s.tasks[t].kind.Reusing? && !HasSession(recovered) then recovered.(sessionID := session) else recovered
  }

  lemma ForgettingKeepsInv(s: State, t: nat, b: Binding, s': State)
    requires Inv(s) && t in s.tasks && !s.tasks[t].Booting? && b in Mentioned(s.tasks[t])
    requires s'.config == s.config && s'.used == s.used && s'.bindings == Forget(WorldOf(s), b).bindings
    requires t in s'.tasks && s'.tasks == s.tasks[t := s'.tasks[t]] && s'.tasks[t].Looping?
    requires forall c :: c in Mentioned(s'.tasks[t]) ==> c in Mentioned(s.tasks[t])
    ensures Inv(s')
  {
    DeletedSpec(s.bindings, b.workspaceID);
    Reassemble(s, s');
  }

  lemma RestartKeepsInv(s: State, config: Config, s': State)
    requires Inv(s) && Step(s, CrashAndRestart(config), s')
    ensures Inv(s')
  {
    UniqueSubset(s.bindings);
    CompleteOnesSpec(s.bindings);
    Reassemble(s, s');
  }

  lemma EndKeepsInv(s: State, t: nat, s': State)
    requires Inv(s) && t in s.tasks && s' == s.(tasks := s.tasks - {t})
    ensures Inv(s')
  {
    Reassemble(s, s');
  }

  lemma StepKeepsInv(s: State, a: Action, s': State)
    requires Inv(s) && Step(s, a, s')
    ensures Inv(s')
  {
    match a
    case Configured(_, _) => Reassemble(s, s');
    case StartCreate(t, request, id) => StartCreateKeepsInv(s, t, request, id, s');
    case FinishCreate(t, boot, setup) => FinishCreateKeepsInv(s, t, boot, setup, s');
    case NextRound(t) => NextRoundMentions(s, t, s'); Reassemble(s, s');
    case Answer(t, recovery, session) => AnswerKeepsInv(s, t, recovery, session, s');
    case CrashAndRestart(config) => RestartKeepsInv(s, config, s');
    case Closed(t, closed) =>
      if closed { ForgettingKeepsInv(s, t, s.tasks[t].b, s'); } else { EndKeepsInv(s, t, s'); }
    case HandleFailure(t) =>
      if s.tasks[t].kind.Target? { EndKeepsInv(s, t, s'); } else { ForgettingKeepsInv(s, t, s.tasks[t].b, s'); }
    case EndLoop(t) => EndKeepsInv(s, t, s');
    case Reinit(_) => Reassemble(s, s');
    case StartLoop(_, _, _) => Reassemble(s, s');
  }

  lemma {:induction false} BehaviorInv(b: seq<State>)
    requires Behavior(b)
    ensures Inv(Last(b))
  {
    if |b| > 1 {
      var before := b[..|b| - 1];
      assert Behavior(before) && Next(b[|b| - 2], b[|b| - 1]);
      BehaviorInv(before);
      var a :| Step(b[|b| - 2], a, b[|b| - 1]);
      StepKeepsInv(Last(before), a, Last(b));
    }
  }

  // ---------- Bootstraps keep their leases ----------

  lemma ResolveKeepsBootsLeased(s: State, request: HostRequest, id: string)
    requires s.config.leaseMode == Exclusive && BootsLeased(s)
    ensures BootsLeased(s.(leases := Resolve(s.config, s.leases, request, id).leases))
  {
    if id != "" {
      ResolveSound(s.config, s.leases, request, id);
    }
  }

  lemma ReleaseKeepsBootsLeased(s: State, host: string, id: string)
    requires BootsLeased(s) && !IsBooting(s, id)
    ensures BootsLeased(s.(leases := Released(s.leases, host, id)))
  {
  }

  lemma StartCreateKeepsBootsLeased(s: State, t: nat, request: HostRequest, id: string, s': State)
    requires Inv(s) && BootsLeased(s) && DoStartCreate(s, t, request, id, s')
    ensures BootsLeased(s')
  {
    ResolveSound(s.config, s.leases, request, id);
    ResolveKeepsBootsLeased(s, request, id);
  }

  lemma FinishCreateKeepsBootsLeased(s: State, t: nat, boot: Boot, setup: Setup, s': State)
    requires Inv(s) && BootsLeased(s) && DoFinishCreate(s, t, boot, setup, s')
    ensures BootsLeased(s')
  {
    var Booting(request, id, host) := s.tasks[t];
    var rest := s.(tasks := s.tasks - {t});
    assert !IsBooting(rest, id);
    ReleaseKeepsBootsLeased(rest, host, id);
  }

  lemma NextRoundKeepsBootsLeased(s: State, t: nat, s': State)
    requires Inv(s) && BootsLeased(s) && DoNextRound(s, t, s')
    ensures BootsLeased(s')
  {
    NextRoundMentions(s, t, s');
    var Looping(kind, queue) := s.tasks[t];
    var b := queue[0];
    assert TaskOK(s, t) && Known(s, b);
    var request :=
      if kind.Reusing? then ReuseRequest(b, kind.provider, kind.host) else OwnHost(b);
    var r := Resolve(s.config, s.leases, request, b.workspaceID);
    ResolveKeepsBootsLeased(s, request, b.workspaceID);
    if r.result.Ok? {
      ReleaseKeepsBootsLeased(s.(leases := r.leases), r.result.value.name, b.workspaceID);
    }
  }

  lemma ForgettingKeepsBootsLeased(s: State, a: Action, s': State)
    requires Inv(s) && BootsLeased(s) && Step(s, a, s') && (a.Closed? || a.HandleFailure?)
    ensures BootsLeased(s')
  {
    var b := s.tasks[a.t].b;
    assert TaskOK(s, a.t) && b in Mentioned(s.tasks[a.t]) && Known(s, b);
    ReleaseKeepsBootsLeased(s, b.host, b.workspaceID);
  }

  lemma {:induction false} RehydratedComesFromBindings(bs: seq<Binding>, host: string, id: string)
    ensures HeldBy(Rehydrated(bs), host, id) ==> Bound(bs, id)
  {
    if bs != [] {
      var front, last := bs[..|bs| - 1], bs[|bs| - 1];
      RehydratedComesFromBindings(front, host, id);
      assert last in bs && forall c :: c in front ==> c in bs;
    }
  }

  /**
   Calling the plugin entry point again in a running process rebuilds the leases
   from the bindings alone.  The bootstraps under way keep their leases through
   that if and only if there are none.
   */
  lemma ReinitKeepsBootLeasesIffNone(s: State, config: Config, s': State)
    requires Inv(s) && DoReinit(s, config, s')
    ensures BootsLeased(s') <==> NobodyBoots(s)
  {
    forall t | t in s.tasks && s.tasks[t].Booting?
      ensures !HeldBy(s'.leases, s.tasks[t].host, s.tasks[t].workspaceID)
    {
      RehydratedComesFromBindings(s.bindings, s.tasks[t].host, s.tasks[t].workspaceID);
      assert forall c :: c in s.bindings ==> Known(s, c);
    }
  }

  /** Exactly one kind of step costs a bootstrap its lease: the entry point called while one is under way. */
  lemma StepKeepsBootsLeasedIff(s: State, a: Action, s': State)
    requires Inv(s) && BootsLeased(s) && Step(s, a, s')
    ensures BootsLeased(s') <==> !(a.Reinit? && !NobodyBoots(s))
  {
    match a
    case Configured(request, id) => ResolveKeepsBootsLeased(s, request, id);
    case StartCreate(t, request, id) => StartCreateKeepsBootsLeased(s, t, request, id, s');
    case FinishCreate(t, boot, setup) => FinishCreateKeepsBootsLeased(s, t, boot, setup, s');
    case NextRound(t) => NextRoundKeepsBootsLeased(s, t, s');
    case Closed(_, _) => ForgettingKeepsBootsLeased(s, a, s');
    case HandleFailure(_) => ForgettingKeepsBootsLeased(s, a, s');
    case Reinit(config) => ReinitKeepsBootLeasesIffNone(s, config, s');
    case _ =>
  }

  /** The entry point is called while a bootstrap is under way. */
  ghost predicate Disturbs(s: State, s': State) {
    !NobodyBoots(s) && exists config :: DoReinit(s, config, s')
  }

  ghost predicate Undisturbed(b: seq<State>) {
    forall k :: 0 <= k < |b| - 1 ==> !Disturbs(b[k], b[k + 1])
  }

  lemma {:induction false} UndisturbedBootsLeased(b: seq<State>)
    requires Behavior(b) && Undisturbed(b)
    ensures BootsLeased(Last(b))
  {
    if |b| > 1 {
      var n, before := |b| - 2, b[..|b| - 1];
      assert Behavior(before) && Next(b[n], b[n + 1]);
      forall k | 0 <= k < |before| - 1 ensures !Disturbs(before[k], before[k + 1]) {
        assert !Disturbs(b[k], b[k + 1]);
      }
      BehaviorInv(before);
      UndisturbedBootsLeased(before);
      assert !Disturbs(b[n], b[n + 1]);
      var a :| Step(b[n], a, b[n + 1]);
      StepKeepsBootsLeasedIff(b[n], a, b[n + 1]);
    }
  }

  // ---------- The promises ----------

  /**
   In every interleaving in which the entry point is not called during a
   bootstrap, two bootstraps under way are on different hosts, each holding its
   own lease until it binds or fails.
   */
  lemma BootstrapsExcludeEachOther(b: seq<State>, t: nat, u: nat)
    requires Behavior(b) && Undisturbed(b) && t in Last(b).tasks && u in Last(b).tasks && t != u
    requires Last(b).tasks[t].Booting? && Last(b).tasks[u].Booting?
    ensures Last(b).tasks[t].host != Last(b).tasks[u].host
    ensures HeldBy(Last(b).leases, Last(b).tasks[t].host, Last(b).tasks[t].workspaceID)
    ensures HeldBy(Last(b).leases, Last(b).tasks[u].host, Last(b).tasks[u].workspaceID)
  {
    BehaviorInv(b);
    UndisturbedBootsLeased(b);
  }

  /**
   A create that succeeds stores its binding while its workspace still leases the
   binding's host, in those interleavings; in general it does if and only if the
   lease is still there when it binds.
   */
  lemma BindsUnderItsLease(b: seq<State>, t: nat, boot: Boot, setup: Setup, s': State)
    requires Behavior(b) && DoFinishCreate(Last(b), t, boot, setup, s')
    requires boot.Booted? && !setup.WorkspaceFailed? && !setup.SessionFailed?
    ensures
      var Booting(_, id, host) := Last(b).tasks[t];
      && (Undisturbed(b) ==> HeldBy(s'.leases, host, id))
      && (HeldBy(s'.leases, host, id) <==> HeldBy(Last(b).leases, host, id))
      && exists c :: c in s'.bindings && c.workspaceID == id && c.host == host && c.status.Ready?
  {
    BehaviorInv(b);
    var s := Last(b);
    if Undisturbed(b) {
      UndisturbedBootsLeased(b);
    }
    var Booting(request, id, host) := s.tasks[t];
    var c := NewBinding(WorldOf(s), request, host, id, boot, setup);
    StoredSpec(s.bindings, c);
    assert c in s'.bindings;
  }

  /**
   The lease/binding agreement itself does not survive interleaving: storing a
   late recovery answer keeps it if and only if the binding's lease is still
   held when the answer arrives.  (`Orphans` has a run in which it is not.)
   */
  lemma LateAnswerKeepsAgreementIffLeaseHeld(s: State, t: nat, recovery: Recovery, session: Option<string>, s': State)
    requires Inv(s) && Agreement(WorldOf(s)) && DoAnswer(s, t, recovery, session, s') && Live(s.tasks[t].b)
    ensures
      var b := s.tasks[t].b;
      Agreement(WorldOf(s')) <==> s'.bindings == s.bindings || HeldBy(s.leases, b.host, b.workspaceID)
  {
    var Awaiting(kind, b, rest) := s.tasks[t];
    assert TaskOK(s, t) && Known(s, b);
    if s'.bindings != s.bindings {
      var recovered := Recovered(b, recovery).value;
      var r := if kind.Reusing? && !HasSession(recovered) then recovered.(sessionID := session) else recovered;
      StoredSpec(s.bindings, r);
      assert r in s'.bindings;
    }
  }
}
