/**
 Bookkeeping over whole runs: no saved grant is lost or duplicated, and what
 "always" approvals cover never shrinks.  Both need approval identifiers not to
 repeat, which the millisecond clock does not promise.
 */
module ApprovalLedger {
  import opened Wrappers
  import opened StubState
  import opened ApprovalProtocol
  import opened ApprovalSafety

  ghost predicate DistinctIDs(h: seq<Event>) {
    forall j, k :: 0 <= j < k < |h| && h[j].Granted? && h[k].Granted? ==> h[j].approval.id != h[k].approval.id
  }

  ghost predicate IsGrant(h: seq<Event>, g: nat) {
    g < |h| && h[g].Granted?
  }

  function GrantAt(h: seq<Event>, g: nat): Grant
    requires g < |h| && h[g].Granted?
  {
    Grant(g, h[g].approval)
  }

  ghost predicate RemovalsWorked(h: seq<Event>) {
    forall k :: 0 <= k < |h| ==> !h[k].RemoveFailed?
  }

  ghost predicate BeingRemoved(s: System, g: Grant) {
    && s.lock.Some? && s.lock.value in s.threads
    && s.threads[s.lock.value].Removing? && s.threads[s.lock.value].grant == g
  }

  /**
   The directory holds a grant from the moment its file is written until the moment it is removed,
   and at no other time.
   */
  ghost predicate Filed(s: System, g: nat)
    requires IsGrant(s.history, g)
  {
    OnDisk(s, GrantAt(s.history, g)) <==> Saved(g) in s.history && Consumed(g) !in s.history
  }

  /** A filed grant is in memory too, unless it is being removed or a removal has failed. */
  ghost predicate Mirrored(s: System, g: nat)
    requires IsGrant(s.history, g)
  {
    var grant := GrantAt(s.history, g);
    (OnDisk(s, grant) && (grant.approval.mode != "once" || RemovalsWorked(s.history))) ==>
      (InMemory(s, grant) || BeingRemoved(s, grant))
  }

  ghost predicate Ledger(s: System) {
    && (forall g :: IsGrant(s.history, g) ==> Filed(s, g) && Mirrored(s, g))
    && (forall t :: t in s.threads && (s.threads[t].Truncating? || s.threads[t].Writing?) ==>
          Saved(s.threads[t].grant.grantedAt) !in s.history && Consumed(s.threads[t].grant.grantedAt) !in s.history)
  }

  lemma DistinctBefore(s: System, a: Action, s': System)
    requires Step(s, a, s') && DistinctIDs(s'.history)
    ensures DistinctIDs(s.history) && s.history <= s'.history && |s'.history| <= |s.history| + 1
  {
    HistoryOnlyGrows(s, a, s');
    assert forall k :: 0 <= k < |s.history| ==> s.history[k] == s'.history[k];
  }

  lemma NoEventBeforeItsGrant(h: seq<Event>, g: nat)
    requires HistoryOK(h) && g >= |h|
    ensures Saved(g) !in h && Consumed(g) !in h
  {
    forall k | 0 <= k < |h| ensures h[k] != Saved(g) && h[k] != Consumed(g) {
      assert Justified(h, k);
    }
  }

  lemma InsertKeepsEntry(s: System, t: nat, approvalID: string, now: int, s': System, g: nat)
    requires Sound(s) && Ledger(s) && DoInsert(s, t, approvalID, now, s') && DistinctIDs(s'.history)
    requires IsGrant(s'.history, g)
    ensures Filed(s', g) && Mirrored(s', g)
  {
    var h, h' := s.history, s'.history;
    if g == |h| {
      NoEventBeforeItsGrant(h, g);
      assert !OnDisk(s', GrantAt(h', g));
    } else {
      assert IsGrant(h, g) && Filed(s, g) && Mirrored(s, g);
      assert h'[|h|].Granted? && h'[g].approval.id != approvalID;
      assert RemovalsWorked(h') ==> RemovalsWorked(h) by {
        assert forall k :: 0 <= k < |h| ==> h'[k] == h[k];
      }
    }
  }

  lemma TruncateKeepsEntry(s: System, t: nat, s': System, g: nat)
    requires Sound(s) && Ledger(s) && DoTruncate(s, t, s') && DistinctIDs(s.history) && IsGrant(s.history, g)
    ensures Filed(s', g) && Mirrored(s', g)
  {
    JsonNamesInjective();
    assert ThreadOK(s, s.threads[t]) && Filed(s, g) && Mirrored(s, g);
    var written := s.threads[t].grant;
    assert g != written.grantedAt ==> s.history[g].approval.id != written.approval.id;
  }

  lemma WriteKeepsEntry(s: System, t: nat, s': System, g: nat)
    requires Sound(s) && Ledger(s) && DoWrite(s, t, s') && DistinctIDs(s.history) && IsGrant(s.history, g)
    ensures Filed(s', g) && Mirrored(s', g)
  {
    JsonNamesInjective();
    assert ThreadOK(s, s.threads[t]) && Filed(s, g) && Mirrored(s, g);
    var written := s.threads[t].grant;
    assert g != written.grantedAt ==> s.history[g].approval.id != written.approval.id;
    assert RemovalsWorked(s'.history) ==> RemovalsWorked(s.history) by {
      assert forall k :: 0 <= k < |s.history| ==> s'.history[k] == s.history[k];
    }
  }

  lemma TakeOnceKeepsEntry(s: System, t: nat, id: string, s': System, g: nat)
    requires Sound(s) && Ledger(s) && DoTakeOnce(s, t, id, s') && IsGrant(s.history, g)
    ensures Filed(s', g) && Mirrored(s', g)
  {
    assert Filed(s, g) && Mirrored(s, g);
    var grant := GrantAt(s.history, g);
    if InMemory(s, grant) && grant.approval.id == id {
      assert BeingRemoved(s', grant);
    }
  }

  lemma RemoveFileKeepsEntry(s: System, t: nat, ok: bool, s': System, g: nat)
    requires Sound(s) && Ledger(s) && DoRemoveFile(s, t, ok, s') && DistinctIDs(s.history) && IsGrant(s.history, g)
    ensures IsGrant(s'.history, g) && Filed(s', g) && Mirrored(s', g)
  {
    JsonNamesInjective();
    assert ThreadOK(s, s.threads[t]) && Filed(s, g) && Mirrored(s, g);
    var taken := s.threads[t].grant;
    assert g != taken.grantedAt ==> s.history[g].approval.id != taken.approval.id;
    assert s'.history[|s.history|] == if ok then Consumed(taken.grantedAt) else RemoveFailed(taken.grantedAt);
    assert RemovalsWorked(s'.history) ==> RemovalsWorked(s.history) by {
      assert forall k :: 0 <= k < |s.history| ==> s'.history[k] == s.history[k];
    }
  }

  lemma RestartKeepsEntry(s: System, s': System, g: nat)
    requires Sound(s) && Ledger(s) && DoRestart(s, s') && IsGrant(s.history, g)
    ensures IsGrant(s'.history, g) && Filed(s', g) && Mirrored(s', g)
  {
    assert Filed(s, g);
    var grant := GrantAt(s.history, g);
    if OnDisk(s, grant) {
      RestartReloads(s, s', grant);
    }
  }

  /** Steps that leave the store alone. */
  lemma QuietKeepsEntry(s: System, s': System, g: nat)
    requires Sound(s) && Ledger(s) && IsGrant(s.history, g)
    requires s'.mem == s.mem && s'.disk == s.disk && s'.lock == s.lock
    requires s.lock.Some? ==> s.lock.value in s'.threads && s'.threads[s.lock.value] == s.threads[s.lock.value]
    requires
      || s'.history == s.history
      || exists e: Event :: !e.Saved? && !e.Consumed? && !e.RemoveFailed? && s'.history == s.history + [e]
    ensures IsGrant(s'.history, g) && Filed(s', g) && Mirrored(s', g)
  {
    assert Filed(s, g) && Mirrored(s, g);
    assert s.history <= s'.history;
    assert RemovalsWorked(s'.history) ==> RemovalsWorked(s.history) by {
      assert forall k :: 0 <= k < |s.history| ==> s'.history[k] == s.history[k];
    }
  }

  lemma StoreFreeKeepsEntry(s: System, a: Action, s': System, g: nat)
    requires Sound(s) && Ledger(s) && Step(s, a, s') && IsGrant(s.history, g)
    requires a.Arrive? || a.Refuse? || a.UseStanding? || a.Run? || a.File? || a.Look? || a.Update?
    ensures IsGrant(s'.history, g) && Filed(s', g) && Mirrored(s', g)
  {
    if a.Run? || a.File? {
      var e := s'.history[|s.history|];
      assert s'.history == s.history + [e];
    }
    QuietKeepsEntry(s, s', g);
  }

  lemma StepKeepsEntry(s: System, a: Action, s': System, g: nat)
    requires Sound(s) && Ledger(s) && Step(s, a, s') && DistinctIDs(s'.history) && IsGrant(s'.history, g)
    ensures Filed(s', g) && Mirrored(s', g)
  {
    DistinctBefore(s, a, s');
    match a
    case Insert(t, approvalID, now) => InsertKeepsEntry(s, t, approvalID, now, s', g);
    case Truncate(t) => TruncateKeepsEntry(s, t, s', g);
    case Write(t) => WriteKeepsEntry(s, t, s', g);
    case TakeOnce(t, id) => TakeOnceKeepsEntry(s, t, id, s', g);
    case RemoveFile(t, ok) => RemoveFileKeepsEntry(s, t, ok, s', g);
    case CrashAndRestart => RestartKeepsEntry(s, s', g);
    case _ => StoreFreeKeepsEntry(s, a, s', g);
  }

  lemma StepKeepsUnsaved(s: System, a: Action, s': System)
    requires Sound(s) && Ledger(s) && Step(s, a, s')
    ensures forall t :: t in s'.threads && (s'.threads[t].Truncating? || s'.threads[t].Writing?) ==>
      Saved(s'.threads[t].grant.grantedAt) !in s'.history && Consumed(s'.threads[t].grant.grantedAt) !in s'.history
  {
    NoEventBeforeItsGrant(s.history, |s.history|);
    StepKeepsLocking(s, a, s');
  }

  lemma {:induction false} BehaviorLedger(b: seq<System>)
    requires Behavior(b) && DistinctIDs(Last(b).history)
    ensures Ledger(Last(b))
  {
    if |b| > 1 {
      var before := b[..|b| - 1];
      var s, s' := Last(before), Last(b);
      assert Behavior(before) && Next(b[|b| - 2], b[|b| - 1]);
      var a :| Step(s, a, s');
      DistinctBefore(s, a, s');
      BehaviorSound(before);
      BehaviorLedger(before);
      StepKeepsUnsaved(s, a, s');
      forall g | IsGrant(s'.history, g) ensures Filed(s', g) && Mirrored(s', g) {
        StepKeepsEntry(s, a, s', g);
      }
    }
  }

  // ---------- Conservation of "once" grants ----------

  ghost function SavedOnce(h: seq<Event>): set<nat> {
    set g | 0 <= g < |h| && IsOnce(h, g) && Saved(g) in h
  }

  ghost function ConsumedOnce(h: seq<Event>): set<nat> {
    set g | 0 <= g < |h| && IsOnce(h, g) && Consumed(g) in h
  }

  ghost function OutstandingOnDisk(s: System): set<nat> {
    set g | 0 <= g < |s.history| && IsOnce(s.history, g) && OnDisk(s, GrantAt(s.history, g))
  }

  ghost function OutstandingInMemory(s: System): set<nat> {
    set g | 0 <= g < |s.history| && IsOnce(s.history, g) && InMemory(s, GrantAt(s.history, g))
  }

  lemma ConsumedWasSaved(b: seq<System>, g: nat)
    requires Behavior(b) && DistinctIDs(Last(b).history) && Consumed(g) in Last(b).history
    ensures IsOnce(Last(b).history, g) && Saved(g) in Last(b).history
    decreases |b|
  {
    var before := b[..|b| - 1];
    var s, s' := Last(before), Last(b);
    assert |b| > 1 && Behavior(before) && Next(b[|b| - 2], b[|b| - 1]);
    var a :| Step(s, a, s');
    DistinctBefore(s, a, s');
    if Consumed(g) in s.history {
      ConsumedWasSaved(before, g);
    } else {
      BehaviorSound(before);
      BehaviorLedger(before);
      assert a.RemoveFile? && ThreadOK(s, s.threads[a.t]);
      assert OnDisk(s, GrantAt(s.history, g)) && Filed(s, g);
    }
  }

  /**
   In every reachable state each saved "once" grant is either consumed or
   outstanding on disk, never both, so the three counts add up; while no
   approval is being created or spent, and if no file removal has failed, the
   outstanding ones are exactly those in memory.
   */
  lemma Conservation(b: seq<System>)
    requires Behavior(b) && DistinctIDs(Last(b).history)
    ensures SavedOnce(Last(b).history) == ConsumedOnce(Last(b).history) + OutstandingOnDisk(Last(b))
    ensures ConsumedOnce(Last(b).history) !! OutstandingOnDisk(Last(b))
    ensures |SavedOnce(Last(b).history)| == |ConsumedOnce(Last(b).history)| + |OutstandingOnDisk(Last(b))|
    ensures Last(b).lock == None && RemovalsWorked(Last(b).history) ==>
      OutstandingInMemory(Last(b)) == OutstandingOnDisk(Last(b))
  {
    var s := Last(b);
    BehaviorSound(b);
    BehaviorLedger(b);
    forall g | g in ConsumedOnce(s.history) ensures g in SavedOnce(s.history) {
      ConsumedWasSaved(b, g);
    }
    FiledIsSavedNotConsumed(s);
    if s.lock == None && RemovalsWorked(s.history) {
      MemoryMirrorsDisk(s);
    }
  }

  lemma FiledIsSavedNotConsumed(s: System)
    requires Ledger(s)
    ensures OutstandingOnDisk(s) == SavedOnce(s.history) - ConsumedOnce(s.history)
  {
    forall g | 0 <= g < |s.history| && IsOnce(s.history, g)
      ensures OnDisk(s, GrantAt(s.history, g)) <==> Saved(g) in s.history && Consumed(g) !in s.history
    {
      assert Filed(s, g);
    }
  }

  lemma MemoryMirrorsDisk(s: System)
    requires Sound(s) && Ledger(s) && s.lock == None && RemovalsWorked(s.history)
    ensures OutstandingInMemory(s) == OutstandingOnDisk(s)
  {
    forall g | 0 <= g < |s.history| && IsOnce(s.history, g)
      ensures InMemory(s, GrantAt(s.history, g)) <==> OnDisk(s, GrantAt(s.history, g))
    {
      assert Mirrored(s, g);
    }
  }

  // ---------- "always" coverage never shrinks ----------

  ghost predicate CoveredAlways(s: System, workspaceID: string, path: string) {
    exists id :: id in s.mem && s.mem[id].approval.mode == "always" && Fits(s.mem[id].approval, workspaceID, path)
  }

  lemma {:induction false} HistoryPrefix(b: seq<System>, i: nat, j: nat)
    requires Behavior(b) && i <= j < |b|
    ensures b[i].history <= b[j].history
    decreases j - i
  {
    if i < j {
      HistoryPrefix(b, i, j - 1);
      assert Next(b[j - 1], b[j - 1 + 1]);
      var a :| Step(b[j - 1], a, b[j]);
      HistoryOnlyGrows(b[j - 1], a, b[j]);
    }
  }

  /** A standing grant, once saved, is never consumed, so it stays in memory. */
  lemma StandingGrantStays(s: System, g: nat)
    requires Sound(s) && Ledger(s) && IsGrant(s.history, g)
    requires s.history[g].approval.mode != "once" && Saved(g) in s.history
    ensures InMemory(s, GrantAt(s.history, g))
  {
    forall k | 0 <= k < |s.history| ensures s.history[k] != Consumed(g) {
      assert Justified(s.history, k);
    }
    assert Filed(s, g) && Mirrored(s, g) && !BeingRemoved(s, GrantAt(s.history, g));
  }

  /** Covered by an "always" approval whose file has been written. */
  ghost predicate DurablyCovered(s: System, workspaceID: string, path: string) {
    exists id ::
      id in s.mem && s.mem[id].approval.mode == "always" && OnDisk(s, s.mem[id])
        && Fits(s.mem[id].approval, workspaceID, path)
  }

  /**
   Every (workspace, path) pair covered by a written "always" approval stays
   covered in all later states, restarts included.
   */
  lemma AlwaysCoverageGrows(b: seq<System>, i: nat, workspaceID: string, path: string)
    requires Behavior(b) && DistinctIDs(Last(b).history)
    requires i < |b| && DurablyCovered(b[i], workspaceID, path)
    ensures CoveredAlways(Last(b), workspaceID, path)
  {
    var early, s := b[..i + 1], Last(b);
    var e := Last(early);
    assert Behavior(early);
    HistoryPrefix(b, i, |b| - 1);
    assert forall k :: 0 <= k < |e.history| ==> e.history[k] == s.history[k];
    BehaviorSound(early);
    BehaviorLedger(early);
    var id :| id in e.mem && e.mem[id].approval.mode == "always" && OnDisk(e, e.mem[id])
      && Fits(e.mem[id].approval, workspaceID, path);
    var grant := e.mem[id];
    assert grant == GrantAt(e.history, grant.grantedAt) && Filed(e, grant.grantedAt);
    BehaviorSound(b);
    BehaviorLedger(b);
    StandingGrantStays(s, grant.grantedAt);
    assert s.mem[id] == grant;
  }

  /** The two ways a standing approval can leave memory. */
  ghost predicate LosesStanding(s: System, a: Action, id: string)
    requires id in s.mem
  {
    || (a.Insert? && a.approvalID == id)
    || (a.CrashAndRestart? && !OnDisk(s, s.mem[id]))
  }

  /**
   What the growth rests on, in any sound state: a standing approval leaves
   memory in a step if and only if that step inserts another approval under its
   identifier, or is a crash before its file has been written.
   */
  lemma StandingLostIff(s: System, a: Action, s': System, id: string)
    requires StoreOK(s) && Step(s, a, s') && id in s.mem && s.mem[id].approval.mode != "once"
    ensures !InMemory(s', s.mem[id]) <==> LosesStanding(s, a, id)
  {
    if a.CrashAndRestart? {
      RestartReloadsIff(s, s', s.mem[id]);
    } else if a.Insert? {
      InsertReplaces(s, a.t, a.approvalID, a.now, s', id);
    } else if a.TakeOnce? {
      TakesOnlyOnce(s, a.t, a.id, s', id);
    } else {
      LeavesMemory(s, a, s');
      assert s.mem[id].approval.id == id;
    }
  }

  lemma RestartReloadsIff(s: System, s': System, grant: Grant)
    requires StoreOK(s) && DoRestart(s, s')
    ensures InMemory(s', grant) <==> OnDisk(s, grant)
  {
    if OnDisk(s, grant) {
      RestartReloads(s, s', grant);
    }
    if InMemory(s', grant) {
      var name :| name in s.disk.Keys && s.disk[name] == Encoded(grant);
      assert name == JsonName(grant.approval.id);
    }
  }

  ghost predicate LosingStep(s: System, s': System, id: string) {
    id in s.mem && exists a :: Step(s, a, s') && LosesStanding(s, a, id)
  }

  lemma LostHere(s: System, s': System, grant: Grant)
    requires StoreOK(s) && Next(s, s') && grant.approval.mode != "once"
    requires InMemory(s, grant) && !InMemory(s', grant)
    ensures LosingStep(s, s', grant.approval.id)
  {
    var a :| Step(s, a, s');
    StandingLostIff(s, a, s', grant.approval.id);
  }

  lemma StoreOKThroughout(b: seq<System>, i: nat)
    requires Behavior(b) && i < |b|
    ensures StoreOK(b[i])
  {
    assert Behavior(b[..i + 1]);
    BehaviorSound(b[..i + 1]);
  }

  ghost predicate LostAt(b: seq<System>, k: nat, grant: Grant)
    requires k < |b| - 1
  {
    InMemory(b[k], grant) && LosingStep(b[k], b[k + 1], grant.approval.id)
  }

  /** Over whole runs: a standing approval that is gone was lost in such a step while it was in memory. */
  lemma {:induction false} StandingLostInSuchAStep(b: seq<System>, i: nat, j: nat, grant: Grant)
    requires Behavior(b) && i <= j < |b| && grant.approval.mode != "once"
    requires InMemory(b[i], grant) && !InMemory(b[j], grant)
    ensures exists k :: i <= k < j && LostAt(b, k, grant)
    decreases j - i
  {
    var m := j - 1;
    if InMemory(b[m], grant) {
      StoreOKThroughout(b, m);
      assert Next(b[m], b[m + 1]);
      LostHere(b[m], b[m + 1], grant);
      assert LostAt(b, m, grant);
    } else {
      StandingLostInSuchAStep(b, i, m, grant);
    }
  }

  lemma TakesOnlyOnce(s: System, t: nat, taken: string, s': System, id: string)
    requires StoreOK(s) && DoTakeOnce(s, t, taken, s') && id in s.mem && s.mem[id].approval.mode != "once"
    ensures InMemory(s', s.mem[id])
  {
  }

  lemma InsertReplaces(s: System, t: nat, approvalID: string, now: int, s': System, id: string)
    requires StoreOK(s) && DoInsert(s, t, approvalID, now, s') && id in s.mem
    ensures !InMemory(s', s.mem[id]) <==> approvalID == id
  {
    assert GrantRecorded(s.history, s.mem[id]) && s.mem[id].approval.id == id;
  }

  lemma LeavesMemory(s: System, a: Action, s': System)
    requires Step(s, a, s') && !a.CrashAndRestart? && !a.Insert? && !a.TakeOnce?
    ensures s'.mem == s.mem
  {
  }
}
