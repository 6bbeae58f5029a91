/**
 Agreement of bindings and leases when calls interleave at their awaits: which
 steps keep it, exactly; and that steps which are not interleaved add up to the
 operations of `Lifecycle`.
 */
module Interleaving {
  import opened Wrappers
  import opened Leases
  import opened Providers
  import opened RuntimeState
  import opened Tunnels
  import opened Lifecycle
  import opened Bootstraps

  // ---------- One host per workspace, whatever is stale ----------

  /** Stored, or still to be acted on by some call. */
  ghost predicate OnRecord(s: State, b: Binding) {
    b in s.bindings || exists t :: t in s.tasks && b in Mentioned(s.tasks[t])
  }

  /** However stale, all bindings of one workspace are live and name one host. */
  ghost predicate OneHostEach(s: State) {
    && (forall b :: OnRecord(s, b) ==> Live(b))
    && (forall b, c :: OnRecord(s, b) && OnRecord(s, c) && b.workspaceID == c.workspaceID ==> b.host == c.host)
  }

  lemma NothingNewOnRecord(s: State, s': State)
    requires OneHostEach(s) && forall b :: OnRecord(s', b) ==> OnRecord(s, b)
    ensures OneHostEach(s')
  {
  }

  lemma OneNewOnRecord(s: State, s': State, n: Binding)
    requires OneHostEach(s) && forall b :: OnRecord(s', b) ==> b == n || OnRecord(s, b)
    requires Live(n) && forall c :: OnRecord(s, c) && c.workspaceID == n.workspaceID ==> c.host == n.host
    ensures OneHostEach(s')
  {
  }

  /** What one call still has to act on shrinks: it mentions nothing new, and stored bindings only go. */
  lemma OnlyForgets(s: State, s': State, t: nat)
    requires forall b :: b in s'.bindings ==> OnRecord(s, b)
    requires forall u :: u in s'.tasks && u != t ==> u in s.tasks && s'.tasks[u] == s.tasks[u]
    requires t in s'.tasks ==> forall b :: b in Mentioned(s'.tasks[t]) ==> OnRecord(s, b)
    ensures forall b :: OnRecord(s', b) ==> OnRecord(s, b)
  {
  }

  lemma KnownOnRecord(s: State, b: Binding)
    requires Inv(s) && OnRecord(s, b)
    ensures Known(s, b)
  {
    if b !in s.bindings {
      var t :| t in s.tasks && b in Mentioned(s.tasks[t]);
      assert TaskOK(s, t);
    }
  }

  lemma FinishCreateKeepsOneHost(s: State, t: nat, boot: Boot, setup: Setup, s': State)
    requires Inv(s) && OneHostEach(s) && DoFinishCreate(s, t, boot, setup, s')
    ensures OneHostEach(s')
  {
    if s'.bindings == s.bindings {
      OnlyForgets(s, s', t);
      NothingNewOnRecord(s, s');
    } else {
      var Booting(request, id, host) := s.tasks[t];
      var n := NewBinding(WorldOf(s), request, host, id, boot, setup);
      StoredSpec(s.bindings, n);
      forall c | OnRecord(s, c) ensures c.workspaceID != id {
        KnownOnRecord(s, c);
      }
      OneNewOnRecord(s, s', n);
    }
  }

  lemma AnswerKeepsOneHost(s: State, t: nat, recovery: Recovery, session: Option<string>, s': State)
    requires Inv(s) && OneHostEach(s) && DoAnswer(s, t, recovery, session, s')
    ensures OneHostEach(s')
  {
    var Awaiting(kind, b, rest) := s.tasks[t];
    assert forall c :: c in Mentioned(s.tasks[t]) ==> OnRecord(s, c);
    assert OnRecord(s, b);
    if s'.bindings == s.bindings {
      OnlyForgets(s, s', t);
      NothingNewOnRecord(s, s');
    } else {
      var n := Late(s, t, recovery, session);
      StoredSpec(s.bindings, n);
      OneNewOnRecord(s, s', n);
    }
  }

  lemma ForgettingKeepsOneHost(s: State, t: nat, b: Binding, s': State)
    requires Inv(s) && OneHostEach(s) && t in s.tasks && b in Mentioned(s.tasks[t])
    requires s'.bindings == Deleted(s.bindings, b.workspaceID) && t in s'.tasks && s'.tasks == s.tasks[t := s'.tasks[t]]
    requires forall c :: c in Mentioned(s'.tasks[t]) ==> c in Mentioned(s.tasks[t])
    ensures OneHostEach(s')
  {
    DeletedSpec(s.bindings, b.workspaceID);
    OnlyForgets(s, s', t);
    NothingNewOnRecord(s, s');
  }

  /** Steps of one call that store nothing. */
  lemma QuietKeepsOneHost(s: State, s': State, t: nat)
    requires OneHostEach(s) && s'.bindings == s.bindings
    requires forall u :: u in s'.tasks && u != t ==> u in s.tasks && s'.tasks[u] == s.tasks[u]
    requires t in s'.tasks ==> forall b :: b in Mentioned(s'.tasks[t]) ==> OnRecord(s, b)
    ensures OneHostEach(s')
  {
    OnlyForgets(s, s', t);
    NothingNewOnRecord(s, s');
  }

  lemma StepKeepsOneHost(s: State, a: Action, s': State)
    requires Inv(s) && OneHostEach(s) && Step(s, a, s')
    ensures OneHostEach(s')
  {
    match a
    case FinishCreate(t, boot, setup) => FinishCreateKeepsOneHost(s, t, boot, setup, s');
    case Answer(t, recovery, session) => AnswerKeepsOneHost(s, t, recovery, session, s');
    case NextRound(t) => NextRoundMentions(s, t, s'); QuietKeepsOneHost(s, s', t);
    case StartCreate(t, _, _) => QuietKeepsOneHost(s, s', t);
    case StartLoop(t, _, _) => QuietKeepsOneHost(s, s', t);
    case EndLoop(t) => QuietKeepsOneHost(s, s', t);
    case Closed(t, closed) =>
      if closed { ForgettingKeepsOneHost(s, t, s.tasks[t].b, s'); } else { QuietKeepsOneHost(s, s', t); }
    case HandleFailure(t) =>
      if s.tasks[t].kind.Target? { QuietKeepsOneHost(s, s', t); }
        else { ForgettingKeepsOneHost(s, t, s.tasks[t].b, s'); }
    case Configured(_, _) => NothingNewOnRecord(s, s');
    case Reinit(_) => NothingNewOnRecord(s, s');
    case CrashAndRestart(_) => CompleteOnesSpec(s.bindings); NothingNewOnRecord(s, s');
  }

  // ---------- The one kind of step that can break agreement ----------

  /** The workspace and host whose binding a step may store. */
  function Storing(s: State, a: Action): Option<(string, string)> {
    match a
    case Answer(t, _, _) =>
      if t in s.tasks && s.tasks[t].Awaiting? then Some((s.tasks[t].b.workspaceID, s.tasks[t].b.host)) else None
    case FinishCreate(t, _, _) =>
      if t in s.tasks && s.tasks[t].Booting? then Some((s.tasks[t].workspaceID, s.tasks[t].host)) else None
    case _ => None
  }

  /** An answer or a create that stores its binding although the workspace has lost the host's lease meanwhile. */
  ghost predicate LateStore(s: State, a: Action, s': State) {
    && s'.bindings != s.bindings && Storing(s, a).Some?
    && var (id, host) := Storing(s, a).value; !HeldBy(s.leases, host, id)
  }

  lemma FinishCreateKeepsAgreementIff(s: State, t: nat, boot: Boot, setup: Setup, s': State)
    requires Inv(s) && Agreement(WorldOf(s)) && DoFinishCreate(s, t, boot, setup, s')
    ensures Agreement(WorldOf(s')) <==> !LateStore(s, FinishCreate(t, boot, setup), s')
  {
    var Booting(request, id, host) := s.tasks[t];
    assert TaskOK(s, t);
    forall b | b in s.bindings ensures b.workspaceID != id {
      assert Known(s, b);
    }
    if !boot.Booted? || setup.WorkspaceFailed? || setup.SessionFailed? {
      ReleaseKeepsLeased(s.leases, s.bindings, host, id);
    } else {
      var n := NewBinding(WorldOf(s), request, host, id, boot, setup);
      StoredSpec(s.bindings, n);
      assert n in s'.bindings && n !in s.bindings;
      if HeldBy(s.leases, host, id) {
        StoreKeepsAgreement(WorldOf(s), n);
      }
    }
  }

  lemma NextRoundKeepsAgreement(s: State, t: nat, s': State)
    requires Inv(s) && OneHostEach(s) && Agreement(WorldOf(s)) && DoNextRound(s, t, s')
    ensures Agreement(WorldOf(s'))
  {
    var Looping(kind, queue) := s.tasks[t];
    var b := queue[0];
    assert TaskOK(s, t) && b in Mentioned(s.tasks[t]);
    var request := if kind.Reusing? then ReuseRequest(b, kind.provider, kind.host) else OwnHost(b);
    ResolveKeepsLeased(WorldOf(s), request, b.workspaceID, s.bindings);
    var r := Resolve(s.config, s.leases, request, b.workspaceID);
    if r.result.Ok? && r.result.value.name != b.host {
      forall c | c in s.bindings && c.workspaceID == b.workspaceID ensures c.host != r.result.value.name {
        assert OnRecord(s, c) && OnRecord(s, b);
      }
      ReleaseKeepsLeased(r.leases, s.bindings, r.result.value.name, b.workspaceID);
    }
  }

  lemma AnswerKeepsAgreementIff(s: State, t: nat, recovery: Recovery, session: Option<string>, s': State)
    requires Inv(s) && OneHostEach(s) && Agreement(WorldOf(s)) && DoAnswer(s, t, recovery, session, s')
    ensures Agreement(WorldOf(s')) <==> !LateStore(s, Answer(t, recovery, session), s')
  {
    assert s.tasks[t].b in Mentioned(s.tasks[t]);
    assert OnRecord(s, s.tasks[t].b);
    LateAnswerKeepsAgreementIffLeaseHeld(s, t, recovery, session, s');
  }

  /**
   Exactly one kind of step breaks the agreement of bindings and leases: an answer
   or a create that stores its binding although its lease is gone.
   */
  lemma StepKeepsAgreementIff(s: State, a: Action, s': State)
    requires Inv(s) && OneHostEach(s) && Agreement(WorldOf(s)) && Step(s, a, s')
    ensures Agreement(WorldOf(s')) <==> !LateStore(s, a, s')
  {
    if a.Answer? {
      AnswerKeepsAgreementIff(s, a.t, a.recovery, a.session, s');
    } else if a.FinishCreate? {
      FinishCreateKeepsAgreementIff(s, a.t, a.boot, a.setup, s');
    } else if a.NextRound? {
      NextRoundKeepsAgreement(s, a.t, s');
    } else {
      OtherStepsKeepAgreement(s, a, s');
    }
  }

  lemma OtherStepsKeepAgreement(s: State, a: Action, s': State)
    requires Agreement(WorldOf(s)) && Step(s, a, s') && !a.Answer? && !a.FinishCreate? && !a.NextRound?
    ensures Agreement(WorldOf(s'))
  {
    match a
    case Configured(request, id) => ResolveKeepsLeased(WorldOf(s), request, id, s.bindings);
    case StartCreate(_, request, id) => ResolveKeepsLeased(WorldOf(s), request, id, s.bindings);
    case Closed(t, closed) => ForgetKeepsAgreement(WorldOf(s), s.tasks[t].b);
    case HandleFailure(t) => ForgetKeepsAgreement(WorldOf(s), s.tasks[t].b);
    case Reinit(config) => RebuildingKeepsAgreement(s, a, s');
    case CrashAndRestart(config) => RebuildingKeepsAgreement(s, a, s');
    case StartLoop(_, _, _) => assert WorldOf(s') == WorldOf(s);
    case EndLoop(_) => assert WorldOf(s') == WorldOf(s);
  }

  lemma RebuildingKeepsAgreement(s: State, a: Action, s': State)
    requires Agreement(WorldOf(s)) && Step(s, a, s') && (a.Reinit? || a.CrashAndRestart?)
    ensures Agreement(WorldOf(s'))
  {
    if a.Reinit? {
      RehydrateKeepsAgreement(WorldOf(s), a.config, s.bindings);
    } else {
      RestartKeepsAgreement(WorldOf(s), a.config);
    }
  }

  lemma {:induction false} BehaviorOneHostEach(b: seq<State>)
    requires Behavior(b)
    ensures OneHostEach(Last(b))
  {
    if |b| > 1 {
      var before := b[..|b| - 1];
      assert Behavior(before) && Next(b[|b| - 2], b[|b| - 1]);
      BehaviorInv(before);
      BehaviorOneHostEach(before);
      var a :| Step(b[|b| - 2], a, b[|b| - 1]);
      StepKeepsOneHost(Last(before), a, Last(b));
    }
  }

  ghost predicate LateStep(s: State, s': State) {
    Agreement(WorldOf(s)) && exists a :: Step(s, a, s') && LateStore(s, a, s')
  }

  /** In every interleaving: if agreement is gone, a late store for a workspace that had lost its lease took it away. */
  lemma {:induction false} AgreementLostByLateStore(b: seq<State>)
    requires Behavior(b) && !Agreement(WorldOf(Last(b)))
    ensures exists k :: 0 <= k < |b| - 1 && LateStep(b[k], b[k + 1])
  {
    if |b| > 1 {
      var n, before := |b| - 2, b[..|b| - 1];
      assert Behavior(before) && Next(b[n], b[n + 1]);
      if Agreement(WorldOf(b[n])) {
        BehaviorInv(before);
        BehaviorOneHostEach(before);
        var a :| Step(b[n], a, b[n + 1]);
        StepKeepsAgreementIff(b[n], a, b[n + 1]);
        assert LateStep(b[n], b[n + 1]);
      } else {
        AgreementLostByLateStore(before);
      }
    }
  }

  /** The other direction: a late store always leaves a stored binding whose lease its workspace does not hold. */
  lemma LateStoreLosesAgreement(b: seq<State>, a: Action, s': State)
    requires Behavior(b) && Agreement(WorldOf(Last(b))) && Step(Last(b), a, s') && LateStore(Last(b), a, s')
    ensures !Agreement(WorldOf(s'))
  {
    BehaviorInv(b);
    BehaviorOneHostEach(b);
    StepKeepsAgreementIff(Last(b), a, s');
  }

  // ---------- Uninterrupted calls ----------

  /** A create that nobody interrupts is the create operation. */
  lemma UninterruptedCreate(
    s0: State, s1: State, s2: State, t: nat, request: HostRequest, id: string, boot: Boot, setup: Setup)
    requires Step(s0, StartCreate(t, request, id), s1)
    requires if t in s1.tasks then Step(s1, FinishCreate(t, boot, setup), s2) else s2 == s1
    ensures WorldOf(s2) == DoCreate(WorldOf(s0), request, id, boot, setup).world
  {
  }

  /**
   A round of one of the loops, run to its end: its synchronous part, the answer if it waits for one,
   the handler if it fails.
   */
  ghost predicate WholeRound(
    s0: State, s1: State, s2: State, s3: State, t: nat, recovery: Recovery, session: Option<string>)
  {
    Step(s0, NextRound(t), s1) && RestOfRound(s1, s2, s3, t, recovery, session)
  }

  ghost predicate RestOfRound(s1: State, s2: State, s3: State, t: nat, recovery: Recovery, session: Option<string>) {
    && t in s1.tasks
    && (if s1.tasks[t].Awaiting? then Step(s1, Answer(t, recovery, session), s2) else s2 == s1)
    && (if t in s2.tasks && s2.tasks[t].Failing? then Step(s2, HandleFailure(t), s3) else s3 == s2)
  }

  /** An uninterrupted round is the operation of its loop. */
  lemma UninterruptedRound(
    s0: State, s1: State, s2: State, s3: State, t: nat, recovery: Recovery, session: Option<string>)
    requires WholeRound(s0, s1, s2, s3, t, recovery, session) && !s0.tasks[t].kind.Closing?
    ensures
      var b := s0.tasks[t].queue[0];
      WorldOf(s3) == match s0.tasks[t].kind
        case Status => DoCheck(WorldOf(s0), b, recovery).world
        case Target => DoReady(WorldOf(s0), b, recovery).world
        case Reusing(provider, host) => DoReuse(WorldOf(s0), b, provider, host, recovery, session).world
        case Closing => WorldOf(s0)
  {
    match s0.tasks[t].kind
    case Reusing(provider, host) => UninterruptedReuse(s0, s1, s2, s3, t, recovery, session);
    case _ => UninterruptedReady(s0, s1, s2, s3, t, recovery, session);
  }

  lemma UninterruptedReuse(
    s0: State, s1: State, s2: State, s3: State, t: nat, recovery: Recovery, session: Option<string>)
    requires WholeRound(s0, s1, s2, s3, t, recovery, session) && s0.tasks[t].kind.Reusing?
    ensures WorldOf(s3) ==
      DoReuse(WorldOf(s0), s0.tasks[t].queue[0], s0.tasks[t].kind.provider, s0.tasks[t].kind.host, recovery,
        session).world
  {
    RestOfReuse(s1, s2, s3, t, recovery, session);
  }

  lemma RestOfReuse(s1: State, s2: State, s3: State, t: nat, recovery: Recovery, session: Option<string>)
    requires RestOfRound(s1, s2, s3, t, recovery, session)
    ensures s1.tasks[t].Looping? ==> s3 == s1
    ensures s1.tasks[t].Failing? && s1.tasks[t].kind.Reusing? ==> WorldOf(s3) == Forget(WorldOf(s1), s1.tasks[t].b)
    ensures s1.tasks[t].Awaiting? && s1.tasks[t].kind.Reusing? ==>
      var b := s1.tasks[t].b;
      WorldOf(s3) ==
        if Reused(b, recovery, session).None? then Forget(WorldOf(s1), b)
        else WorldOf(s1).(bindings := Stored(s1.bindings, Reused(b, recovery, session).value))
  {
  }

  lemma UninterruptedReady(
    s0: State, s1: State, s2: State, s3: State, t: nat, recovery: Recovery, session: Option<string>)
    requires WholeRound(s0, s1, s2, s3, t, recovery, session) && (s0.tasks[t].kind.Status? || s0.tasks[t].kind.Target?)
    ensures
      var b := s0.tasks[t].queue[0];
      WorldOf(s3) ==
        (if s0.tasks[t].kind.Status? then DoCheck(WorldOf(s0), b, recovery)
          else DoReady(WorldOf(s0), b, recovery)).world
  {
    RestOfReady(s1, s2, s3, t, recovery, session);
    if Recovered(s0.tasks[t].queue[0], recovery).Some? {
      RecoveredFields(s0.tasks[t].queue[0], recovery);
    }
  }

  /** Recovery changes nothing but port, process and status. */
  lemma RecoveredFields(b: Binding, recovery: Recovery)
    requires Recovered(b, recovery).Some?
    ensures
      var r := Recovered(b, recovery).value;
      r == b <==> r.localPort == b.localPort && r.tunnelPID == b.tunnelPID && r.status == b.status
  {
  }

  lemma RestOfReady(s1: State, s2: State, s3: State, t: nat, recovery: Recovery, session: Option<string>)
    requires RestOfRound(s1, s2, s3, t, recovery, session)
    requires !s1.tasks[t].Booting? ==> s1.tasks[t].kind.Status? || s1.tasks[t].kind.Target?
    ensures s1.tasks[t].Failing? ==>
      WorldOf(s3) == if s1.tasks[t].kind.Status? then Forget(WorldOf(s1), s1.tasks[t].b) else WorldOf(s1)
    ensures s1.tasks[t].Awaiting? ==>
      var b := s1.tasks[t].b;
      WorldOf(s3) ==
        if Recovered(b, recovery).None? then if s1.tasks[t].kind.Status? then Forget(WorldOf(s1), b) else WorldOf(s1)
        else if Recovered(b, recovery).value == b then WorldOf(s1)
        else WorldOf(s1).(bindings := Stored(s1.bindings, Recovered(b, recovery).value))
  {
  }

  lemma UninterruptedRemove(s0: State, s1: State, s2: State, t: nat, closed: bool)
    requires Step(s0, NextRound(t), s1) && Step(s1, Closed(t, closed), s2)
    ensures WorldOf(s2) == DoRemove(WorldOf(s0), s0.tasks[t].queue[0], closed)
  {
  }

  /**
   Configuring, the entry point called again and a new process are single steps, and the operations
   of those names.
   */
  lemma SingleSteps(s: State, a: Action, s': State)
    requires Step(s, a, s')
    ensures match a
      case Configured(request, id) => WorldOf(s') == Apply(WorldOf(s), Configure(request, id)).world
      case Reinit(config) => WorldOf(s') == Apply(WorldOf(s), Operation.Reinit(config)).world
      case CrashAndRestart(config) => WorldOf(s') == Apply(WorldOf(s), Operation.Restart(config)).world
      case _ => true
    ensures a.Configured? || a.Reinit? ==> s'.tasks == s.tasks && s'.used == s.used
    ensures a.CrashAndRestart? ==> s'.tasks == map[] && s'.used == s.used
  {
  }

  ghost predicate CanStep(s: State, a: Action) {
    exists s' :: Step(s, a, s')
  }

  /** No call is stuck: a waiting one takes any answer, and every other one has its next step. */
  lemma EveryCallGoesOn(s: State, t: nat)
    requires t in s.tasks
    ensures match s.tasks[t]
      case Booting(_, _, _) => forall boot, setup :: CanStep(s, FinishCreate(t, boot, setup))
      case Looping(_, queue) => CanStep(s, if queue == [] then EndLoop(t) else NextRound(t))
      case Awaiting(kind, _, _) =>
        if kind.Closing? then forall closed :: CanStep(s, Action.Closed(t, closed))
        else forall recovery, session :: CanStep(s, Answer(t, recovery, session))
      case Failing(_, _, _) => CanStep(s, HandleFailure(t))
  {
    match s.tasks[t]
    case Booting(request, id, host) =>
      forall boot, setup ensures CanStep(s, FinishCreate(t, boot, setup)) {
        var s' :=
          if !boot.Booted? || setup.WorkspaceFailed? || setup.SessionFailed? then
            s.(leases := Released(s.leases, host, id), tasks := s.tasks - {t})
          else
            s.(bindings := Stored(s.bindings, NewBinding(WorldOf(s), request, host, id, boot, setup)),
              tasks := s.tasks - {t});
        assert Step(s, FinishCreate(t, boot, setup), s');
      }
    case Looping(kind, queue) =>
      if queue == [] {
        assert Step(s, EndLoop(t), s.(tasks := s.tasks - {t}));
      } else {
        RoundGoesOn(s, t);
      }
    case Awaiting(kind, b, rest) => AnswerGoesOn(s, t);
    case Failing(kind, b, rest) =>
      var s' :=
        if kind.Target? then s.(tasks := s.tasks - {t})
        else WithWorld(s, Forget(WorldOf(s), b)).(tasks := s.tasks[t := Looping(kind, rest)]);
      assert Step(s, HandleFailure(t), s');
  }

  lemma RoundGoesOn(s: State, t: nat)
    requires t in s.tasks && s.tasks[t].Looping? && s.tasks[t].queue != []
    ensures CanStep(s, NextRound(t))
  {
    var Looping(kind, queue) := s.tasks[t];
    var b, rest := queue[0], queue[1..];
    var request := if kind.Reusing? then ReuseRequest(b, kind.provider, kind.host) else OwnHost(b);
    var r := Resolve(s.config, s.leases, request, b.workspaceID);
    var s' :=
      if kind.Closing? then s.(tasks := s.tasks[t := Awaiting(kind, b, rest)])
      else if kind.Reusing? && (b.status == Removed || b.provider != kind.provider) then
        s.(tasks := s.tasks[t := Looping(kind, rest)])
      else if r.result.Err? then s.(leases := r.leases, tasks := s.tasks[t := Failing(kind, b, rest)])
      else if kind.Reusing? && r.result.value.name != b.host then
        s.(leases := Released(r.leases, r.result.value.name, b.workspaceID), tasks := s.tasks[t := Looping(kind, rest)])
      else s.(leases := r.leases, tasks := s.tasks[t := Awaiting(kind, b, rest)]);
    assert Step(s, NextRound(t), s');
  }

  lemma AnswerGoesOn(s: State, t: nat)
    requires t in s.tasks && s.tasks[t].Awaiting?
    ensures
      if s.tasks[t].kind.Closing? then forall closed :: CanStep(s, Action.Closed(t, closed))
      else forall recovery, session :: CanStep(s, Answer(t, recovery, session))
  {
    var Awaiting(kind, b, rest) := s.tasks[t];
    if kind.Closing? {
      forall closed ensures CanStep(s, Action.Closed(t, closed)) {
        var s' :=
          if closed then WithWorld(s, Forget(WorldOf(s), b)).(tasks := s.tasks[t := Looping(kind, rest)])
          else s.(tasks := s.tasks - {t});
        assert Step(s, Action.Closed(t, closed), s');
      }
    } else {
      forall recovery, session ensures CanStep(s, Answer(t, recovery, session)) {
        var recovered := Recovered(b, recovery);
        var s' :=
          if recovered.None? || (kind.Reusing? && !HasSession(recovered.value) && session.None?) then
            s.(tasks := s.tasks[t := Failing(kind, b, rest)])
          else
            var r := Late(s, t, recovery, session);
            s.(bindings := if kind.Reusing? || r != b then Stored(s.bindings, r) else s.bindings,
               tasks := if kind.Reusing? then s.tasks - {t} else s.tasks[t := Looping(kind, rest)]);
        assert Step(s, Answer(t, recovery, session), s');
      }
    }
  }
}
