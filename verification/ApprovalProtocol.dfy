/**
 The approval engine at the grain at which it can be interrupted.

 Every lock-protected `State` method is one step, except that creating an
 approval (map insert, truncate, write) and spending a "once" approval (map
 delete, file removal) are split at each effect, so that a crash can fall
 between any two.  Requests and replies are threads that interleave freely; a
 crash kills all of them and a fresh `State` loads the directory.

 A grant carries the position of its creation in the history, so that two
 approvals with the same clock-made identifier stay distinguishable.
 */
module ApprovalProtocol {
  import opened Wrappers
  import opened Patterns
  import opened StubState
  import opened StubHandler

  datatype Grant = Grant(grantedAt: nat, approval: Approval)

  datatype Request = Request(askedAt: nat, p: PermissionRequest)

  datatype Event =
    | Asked(p: PermissionRequest)                          // a refused request was filed
    | Granted(askedAt: nat, approval: Approval)            // a reply inserted an approval
    | Saved(grantedAt: nat)                                // its file was written
    | Consumed(grantedAt: nat)                             // its file was removed
    | RemoveFailed(grantedAt: nat)                         // os.Remove failed; the code ignores this
    | RanCommand(grantedAt: nat, workspaceID: string, cwd: string)
    | Restarted

  datatype Thread =
    | Arrived(se: Session, operation: string, cwd: string)
    | Refusing(se: Session, operation: string, cwd: string)          // ConsumeApproval returned nil
    | Removing(id: string, workspaceID: string, cwd: string, grant: Grant) // holds the lock
    | Cleared(workspaceID: string, cwd: string, grant: Grant)        // about to run the command
    | Replying(request: Request, reply: string)
    | Granting(request: Request, reply: string)
    | Truncating(grant: Grant)                                       // holds the lock
    | Writing(grant: Grant)                                          // holds the lock

  datatype System = System(
    mem: map<string, Grant>,
    disk: map<string, File<Grant>>,
    permissions: map<string, Request>,
    threads: map<nat, Thread>,
    lock: Option<nat>,
    history: seq<Event>)

  datatype Action =
    | Arrive(t: nat, se: Session, operation: string, cwd: string)
    | Refuse(t: nat)
    | UseStanding(t: nat, id: string)
    | TakeOnce(t: nat, id: string)
    | RemoveFile(t: nat, ok: bool)
    | Run(t: nat)
    | File(t: nat, permID: string, now: int)
    | Look(t: nat, permID: string, reply: string)
    | Update(t: nat)
    | Insert(t: nat, approvalID: string, now: int)
    | Truncate(t: nat)
    | Write(t: nat)
    | CrashAndRestart

  // ---------- Erasing the grant positions ----------

  function EraseMem(mem: map<string, Grant>): map<string, Approval> {
    map id | id in mem :: mem[id].approval
  }

  function EraseFile(file: File<Grant>): File<Approval> {
    match file
    case Torn => Torn
    case Encoded(grant) => Encoded(grant.approval)
  }

  function Erase(s: System): Table<Approval> {
    Table(EraseMem(s.mem), map name | name in s.disk :: EraseFile(s.disk[name]))
  }

  ghost predicate Allows(s: System, id: string, workspaceID: string, path: string) {
    id in Eligible(EraseMem(s.mem), workspaceID, path)
  }

  // ---------- Steps ----------

  ghost predicate Initial(s: System) {
    s == System(map[], map[], map[], map[], None, [])
  }

  /** A request starts; an empty `cwd` has become the session's directory. */
  ghost predicate DoArrive(s: System, t: nat, se: Session, operation: string, cwd: string, s': System) {
    && t !in s.threads
    && s' == s.(threads := s.threads[t := Arrived(se, operation, EffectiveCwd(se, cwd))])
  }

  ghost predicate Waiting(s: System, t: nat) {
    s.lock == None && t in s.threads && s.threads[t].Arrived?
  }

  ghost predicate DoRefuse(s: System, t: nat, s': System) {
    && Waiting(s, t)
    && var Arrived(se, operation, cwd) := s.threads[t];
    && Eligible(EraseMem(s.mem), se.workspaceID, cwd) == {}
    && s' == s.(threads := s.threads[t := Refusing(se, operation, cwd)])
  }

  ghost predicate DoUseStanding(s: System, t: nat, id: string, s': System) {
    && Waiting(s, t)
    && var Arrived(se, _, cwd) := s.threads[t];
    && Allows(s, id, se.workspaceID, cwd) && s.mem[id].approval.mode != "once"
    && s' == s.(threads := s.threads[t := Cleared(se.workspaceID, cwd, s.mem[id])])
  }

  /** The lock is taken and the map entry deleted; the file is still there. */
  ghost predicate DoTakeOnce(s: System, t: nat, id: string, s': System) {
    && Waiting(s, t)
    && var Arrived(se, _, cwd) := s.threads[t];
    && Allows(s, id, se.workspaceID, cwd) && s.mem[id].approval.mode == "once"
    && s' == s.(mem := s.mem - {id}, lock := Some(t),
                threads := s.threads[t := Removing(id, se.workspaceID, cwd, s.mem[id])])
  }

  /** The file is removed, or its removal fails unnoticed; either way the caller is let through. */
  ghost predicate DoRemoveFile(s: System, t: nat, ok: bool, s': System) {
    && t in s.threads && s.threads[t].Removing?
    && var Removing(id, workspaceID, cwd, grant) := s.threads[t];
    && s' == s.(disk := if ok then s.disk - {JsonName(id)} else s.disk, lock := None,
                threads := s.threads[t := Cleared(workspaceID, cwd, grant)],
                history := s.history + [if ok then Consumed(grant.grantedAt) else RemoveFailed(grant.grantedAt)])
  }

  ghost predicate DoRun(s: System, t: nat, s': System) {
    && t in s.threads && s.threads[t].Cleared?
    && var Cleared(workspaceID, cwd, grant) := s.threads[t];
    && s' == s.(threads := s.threads - {t}, history := s.history + [RanCommand(grant.grantedAt, workspaceID, cwd)])
  }

  ghost predicate DoFile(s: System, t: nat, permID: string, now: int, s': System) {
    && s.lock == None && t in s.threads && s.threads[t].Refusing?
    && var Refusing(se, operation, cwd) := s.threads[t];
    && var p :=
          PermissionRequest(permID, se.id, se.workspaceID, "path.access", [Minted(cwd)], operation, cwd, "pending",
            now);
    && s' == s.(permissions := s.permissions[permID := Request(|s.history|, p)],
                threads := s.threads - {t}, history := s.history + [Asked(p)])
  }

  /** A reply finds its request; nothing checks that the request is still pending. */
  ghost predicate DoLook(s: System, t: nat, permID: string, reply: string, s': System) {
    && s.lock == None && t !in s.threads && permID in s.permissions
    && s' == s.(threads := s.threads[t := Replying(s.permissions[permID], reply)])
  }

  ghost predicate DoUpdate(s: System, t: nat, s': System) {
    && s.lock == None && t in s.threads && s.threads[t].Replying?
    && var Replying(request, reply) := s.threads[t];
    && s' == s.(permissions := s.permissions[request.p.id := request.(p := request.p.(status := reply))],
                threads := if Grants(reply) && |request.p.patterns| > 0
                           then s.threads[t := Granting(request, reply)] else s.threads - {t})
  }

  ghost predicate DoInsert(s: System, t: nat, approvalID: string, now: int, s': System) {
    && s.lock == None && t in s.threads && s.threads[t].Granting?
    && var Granting(request, reply) := s.threads[t];
    && |request.p.patterns| > 0
    && var approval := GrantFor(request.p, reply, approvalID, now);
    && var grant := Grant(|s.history|, approval);
    && s' == s.(mem := s.mem[approvalID := grant], lock := Some(t), threads := s.threads[t := Truncating(grant)],
                history := s.history + [Granted(request.askedAt, approval)])
  }

  ghost predicate DoTruncate(s: System, t: nat, s': System) {
    && t in s.threads && s.threads[t].Truncating?
    && var grant := s.threads[t].grant;
    && s' == s.(disk := s.disk[JsonName(grant.approval.id) := Torn], threads := s.threads[t := Writing(grant)])
  }

  ghost predicate DoWrite(s: System, t: nat, s': System) {
    && t in s.threads && s.threads[t].Writing?
    && var grant := s.threads[t].grant;
    && s' == s.(disk := s.disk[JsonName(grant.approval.id) := Encoded(grant)], lock := None,
                threads := s.threads - {t}, history := s.history + [Saved(grant.grantedAt)])
  }

  /** Every thread dies; the next process starts from the directory alone. */
  ghost predicate DoRestart(s: System, s': System) {
    && LoadedFrom(s'.mem, map[], s.disk, s.disk.Keys, (g: Grant) => g.approval.id)
    && s' == System(s'.mem, s.disk, map[], map[], None, s.history + [Restarted])
  }

  ghost predicate Step(s: System, a: Action, s': System) {
    match a
    case Arrive(t, se, operation, cwd) => DoArrive(s, t, se, operation, cwd, s')
    case Refuse(t) => DoRefuse(s, t, s')
    case UseStanding(t, id) => DoUseStanding(s, t, id, s')
    case TakeOnce(t, id) => DoTakeOnce(s, t, id, s')
    case RemoveFile(t, ok) => DoRemoveFile(s, t, ok, s')
    case Run(t) => DoRun(s, t, s')
    case File(t, permID, now) => DoFile(s, t, permID, now, s')
    case Look(t, permID, reply) => DoLook(s, t, permID, reply, s')
    case Update(t) => DoUpdate(s, t, s')
    case Insert(t, approvalID, now) => DoInsert(s, t, approvalID, now, s')
    case Truncate(t) => DoTruncate(s, t, s')
    case Write(t) => DoWrite(s, t, s')
    case CrashAndRestart => DoRestart(s, s')
  }

  ghost predicate Next(s: System, s': System) {
    exists a :: Step(s, a, s')
  }

  ghost predicate Behavior(b: seq<System>) {
    && |b| > 0 && Initial(b[0])
    && forall i :: 0 <= i < |b| - 1 ==> Next(b[i], b[i + 1])
  }

  // ---------- The steps decide as the sequential code does ----------

  /** The directory a request is checked for is the one it names, or the session's if it names none. */
  lemma ArrivesForItsDirectory(s: System, t: nat, se: Session, operation: string, cwd: string, s': System)
    requires Step(s, Arrive(t, se, operation, cwd), s')
    ensures t in s'.threads && s'.threads[t] == Arrived(se, operation, if cwd == "" then se.directory else cwd)
  {
  }

  /** Only "once" and "always" go on to an approval, and only for a request that has patterns. */
  lemma ReplyGrantsIff(s: System, t: nat, s': System)
    requires Step(s, Update(t), s')
    ensures
      var Replying(request, reply) := s.threads[t];
      && (t in s'.threads <==> (reply == "once" || reply == "always") && request.p.patterns != [])
      && s'.mem == s.mem && s'.disk == s.disk
  {
  }

  /** While nobody holds the lock a waiting request can be refused exactly when no approval in memory matches. */
  lemma RefusedIffNothingMatches(s: System, t: nat)
    requires Waiting(s, t)
    ensures
      (exists s' :: Step(s, Refuse(t), s')) <==>
      forall id :: id in s.mem && s.mem[id].approval.workspaceID == s.threads[t].se.workspaceID ==>
        !MatchPattern(s.mem[id].approval.pattern, s.threads[t].cwd)
  {
    var Arrived(se, operation, cwd) := s.threads[t];
    var eligible := Eligible(EraseMem(s.mem), se.workspaceID, cwd);
    forall id | id in s.mem && s.mem[id].approval.workspaceID == se.workspaceID
      && MatchPattern(s.mem[id].approval.pattern, cwd)
      ensures eligible != {}
    {
      assert id in eligible;
    }
    if eligible == {} {
      assert Step(s, Refuse(t), s.(threads := s.threads[t := Refusing(se, operation, cwd)]));
    }
  }

  /** ... and can be let through by an approval exactly when that one matches: as a standing one, or by spending it. */
  lemma AdmittedIffMatches(s: System, t: nat, id: string)
    requires Waiting(s, t)
    ensures
      (exists s' :: Step(s, UseStanding(t, id), s') || Step(s, TakeOnce(t, id), s')) <==>
      && id in s.mem && s.mem[id].approval.workspaceID == s.threads[t].se.workspaceID
      && MatchPattern(s.mem[id].approval.pattern, s.threads[t].cwd)
    ensures forall s' :: Step(s, TakeOnce(t, id), s') ==> s.mem[id].approval.mode == "once"
    ensures forall s' :: Step(s, UseStanding(t, id), s') ==> s.mem[id].approval.mode != "once"
  {
    var Arrived(se, operation, cwd) := s.threads[t];
    if Allows(s, id, se.workspaceID, cwd) {
      var grant := s.mem[id];
      assert if grant.approval.mode == "once" then
          Step(s, TakeOnce(t, id), s.(mem := s.mem - {id}, lock := Some(t),
                                      threads := s.threads[t := Removing(id, se.workspaceID, cwd, grant)]))
        else
          Step(s, UseStanding(t, id), s.(threads := s.threads[t := Cleared(se.workspaceID, cwd, grant)]));
    }
  }

  // ---------- The steps compose to the sequential mutators ----------

  /** Being let through by a standing approval is what the sequential `ConsumeApproval` does to memory and disk. */
  lemma StandingUse(s0: System, s1: System, t: nat, id: string, i: Image)
    requires Step(s0, UseStanding(t, id), s1) && i.approvals == Erase(s0)
    ensures
      var Arrived(se, _, cwd) := s0.threads[t];
      Mutate(i, Consume(se.workspaceID, cwd, id)).approvals == Erase(s1)
  {
  }

  /** Filing a refused request records what the sequential path records. */
  lemma FilesItsRequest(s0: System, s1: System, t: nat, permID: string, now: int)
    requires Step(s0, Action.File(t, permID, now), s1)
    ensures
      var Refusing(se, operation, cwd) := s0.threads[t];
      var p := PermissionRequest(
        permID, se.id, se.workspaceID, "path.access", [cwd + "/**"], operation, cwd, "pending", now);
      && s1.permissions == s0.permissions[permID := Request(|s0.history|, p)]
      && s1.history == s0.history + [Asked(p)] && s1.mem == s0.mem && s1.disk == s0.disk
  {
  }

  /** Spending uninterruptedly is what the sequential `ConsumeApproval` does to memory and disk. */
  lemma UninterruptedSpend(s0: System, s1: System, s2: System, t: nat, id: string, i: Image)
    requires Step(s0, TakeOnce(t, id), s1) && Step(s1, RemoveFile(t, true), s2)
    requires i.approvals == Erase(s0)
    ensures
      var Arrived(se, _, cwd) := s0.threads[t];
      Mutate(i, Consume(se.workspaceID, cwd, id)).approvals == Erase(s2)
  {
    assert EraseMem(s2.mem) == EraseMem(s0.mem) - {id};
  }

  /** Replying uninterruptedly is what the sequential reply path does to memory and disk. */
  lemma UninterruptedReply(
    s0: System, s1: System, s2: System, s3: System, s4: System, t: nat, approvalID: string, now: int, i: Image)
    requires Step(s0, Update(t), s1) && Step(s1, Insert(t, approvalID, now), s2)
    requires Step(s2, Truncate(t), s3) && Step(s3, Write(t), s4)
    requires i.approvals == Erase(s0)
    ensures
      var Replying(request, reply) := s0.threads[t];
      AfterReply(i, request.p, reply, approvalID, now).approvals == Erase(s4)
  {
    var Replying(request, reply) := s0.threads[t];
    var approval := GrantFor(request.p, reply, approvalID, now);
    var grant := Grant(|s0.history|, approval);
    assert s4.mem == s0.mem[approvalID := grant] && s4.disk == s0.disk[JsonName(approvalID) := Encoded(grant)] by {
      assert s3.threads[t] == Writing(grant) && s2.mem == s0.mem[approvalID := grant] by {
        assert s2.threads[t] == Truncating(grant) && s2.mem == s0.mem[approvalID := grant];
      }
    }
    ErasePut(s0, s4, grant);
  }

  lemma ErasePut(s: System, s': System, grant: Grant)
    requires s'.mem == s.mem[grant.approval.id := grant]
    requires s'.disk == s.disk[JsonName(grant.approval.id) := Encoded(grant)]
    ensures Erase(s') == Put(Erase(s), grant.approval.id, JsonName(grant.approval.id), grant.approval)
  {
  }

  // ---------- What every reachable state satisfies ----------

  predicate InLock(thread: Thread) {
    thread.Removing? || thread.Truncating? || thread.Writing?
  }

  ghost predicate Locking(s: System) {
    && (s.lock.Some? ==> s.lock.value in s.threads)
    && forall t :: t in s.threads ==> (InLock(s.threads[t]) <==> s.lock == Some(t))
  }

  ghost predicate RequestRecorded(h: seq<Event>, r: Request) {
    && r.askedAt < |h| && h[r.askedAt].Asked?
    && r.p.workspaceID == h[r.askedAt].p.workspaceID
    && r.p.patterns == h[r.askedAt].p.patterns
  }

  ghost predicate GrantRecorded(h: seq<Event>, g: Grant) {
    g.grantedAt < |h| && h[g.grantedAt].Granted? && h[g.grantedAt].approval == g.approval
  }

  ghost predicate Fits(a: Approval, workspaceID: string, path: string) {
    a.workspaceID == workspaceID && MatchPattern(a.pattern, path)
  }

  /** What the event at position `k` owes to earlier events. */
  ghost predicate Justified(h: seq<Event>, k: nat)
    requires k < |h|
  {
    match h[k]
    case Asked(p) => p.patterns == [Minted(p.cwd)]
    case Granted(askedAt, a) =>
      && askedAt < k && h[askedAt].Asked? && Grants(a.mode)
      && a.workspaceID == h[askedAt].p.workspaceID && a.pattern == Minted(h[askedAt].p.cwd)
    case RanCommand(g, workspaceID, cwd) => g < k && h[g].Granted? && Fits(h[g].approval, workspaceID, cwd)
    case Saved(g) => g < k && h[g].Granted?
    case Consumed(g) => g < k && h[g].Granted? && h[g].approval.mode == "once"
    case RemoveFailed(g) => g < k && h[g].Granted? && h[g].approval.mode == "once"
    case Restarted => true
  }

  ghost predicate HistoryOK(h: seq<Event>) {
    forall k :: 0 <= k < |h| ==> Justified(h, k)
  }

  ghost predicate ThreadOK(s: System, thread: Thread) {
    match thread
    case Removing(id, workspaceID, cwd, g) =>
      && GrantRecorded(s.history, g) && Fits(g.approval, workspaceID, cwd) && g.approval.id == id
      && g.approval.mode == "once"
      && id !in s.mem && JsonName(id) in s.disk && s.disk[JsonName(id)] == Encoded(g)
    case Cleared(workspaceID, cwd, g) => GrantRecorded(s.history, g) && Fits(g.approval, workspaceID, cwd)
    case Replying(r, _) => RequestRecorded(s.history, r)
    case Granting(r, reply) => RequestRecorded(s.history, r) && Grants(reply)
    case Truncating(g) => GrantRecorded(s.history, g) && g.approval.id in s.mem && s.mem[g.approval.id] == g
    case Writing(g) =>
      && GrantRecorded(s.history, g) && g.approval.id in s.mem && s.mem[g.approval.id] == g
      && JsonName(g.approval.id) in s.disk && s.disk[JsonName(g.approval.id)] == Torn
    case _ => true
  }

  /** The grant whose file the lock holder has yet to write. */
  ghost predicate BeingWritten(s: System, g: Grant) {
    && s.lock.Some? && s.lock.value in s.threads
    && (s.threads[s.lock.value] == Truncating(g) || s.threads[s.lock.value] == Writing(g))
  }

  ghost predicate OnDisk(s: System, g: Grant) {
    JsonName(g.approval.id) in s.disk && s.disk[JsonName(g.approval.id)] == Encoded(g)
  }

  ghost predicate StoreOK(s: System) {
    && (forall id :: id in s.mem ==> GrantRecorded(s.history, s.mem[id]) && s.mem[id].approval.id == id)
    && (forall name :: name in s.disk && s.disk[name].Encoded? ==>
          && GrantRecorded(s.history, s.disk[name].value)
          && name == JsonName(s.disk[name].value.approval.id))
    && (forall id :: id in s.mem ==> OnDisk(s, s.mem[id]) || BeingWritten(s, s.mem[id]))
  }

  ghost predicate Sound(s: System) {
    && Locking(s)
    && StoreOK(s)
    && (forall id :: id in s.permissions ==> RequestRecorded(s.history, s.permissions[id]))
    && (forall t :: t in s.threads ==> ThreadOK(s, s.threads[t]))
    && HistoryOK(s.history)
  }

  lemma HistoryGrows(h: seq<Event>, e: Event)
    requires HistoryOK(h) && Justified(h + [e], |h|)
    ensures HistoryOK(h + [e])
  {
    forall k | 0 <= k < |h + [e]| ensures Justified(h + [e], k) {
      if k < |h| {
        assert Justified(h, k);
      }
    }
  }

  lemma StepKeepsHistoryOK(s: System, a: Action, s': System)
    requires Sound(s) && Step(s, a, s')
    ensures HistoryOK(s'.history)
  {
    if s'.history != s.history {
      var e := s'.history[|s.history|];
      assert s'.history == s.history + [e];
      if a.Insert? {
        assert Justified(s.history, s.threads[a.t].request.askedAt);
      }
      HistoryGrows(s.history, e);
    }
  }

  lemma StepKeepsLocking(s: System, a: Action, s': System)
    requires Sound(s) && Step(s, a, s')
    ensures Locking(s')
  {
  }

  /** A step that leaves memory, disk and the lock holder alone. */
  lemma QuietKeepsStoreOK(s: System, s': System)
    requires Sound(s) && s.history <= s'.history
    requires s'.mem == s.mem && s'.disk == s.disk && s'.lock == s.lock
    requires s.lock.Some? ==> s.lock.value in s'.threads && s'.threads[s.lock.value] == s.threads[s.lock.value]
    ensures StoreOK(s')
  {
    forall id | id in s'.mem ensures OnDisk(s', s'.mem[id]) || BeingWritten(s', s'.mem[id]) {
      assert OnDisk(s, s.mem[id]) || BeingWritten(s, s.mem[id]);
    }
  }

  lemma TakeOnceKeepsStoreOK(s: System, t: nat, id: string, s': System)
    requires Sound(s) && DoTakeOnce(s, t, id, s')
    ensures StoreOK(s')
  {
    forall k | k in s'.mem ensures OnDisk(s', s'.mem[k]) {
      assert OnDisk(s, s.mem[k]) || BeingWritten(s, s.mem[k]);
    }
  }

  lemma RemoveFileKeepsStoreOK(s: System, t: nat, ok: bool, s': System)
    requires Sound(s) && DoRemoveFile(s, t, ok, s')
    ensures StoreOK(s')
  {
    var id := s.threads[t].id;
    assert ThreadOK(s, s.threads[t]) && s.lock == Some(t);
    assert s.history <= s'.history;
    forall k | k in s'.mem ensures OnDisk(s', s'.mem[k]) {
      assert OnDisk(s, s.mem[k]) && k != id;
      JsonNameInjective(k, id);
    }
  }

  lemma InsertKeepsStoreOK(s: System, t: nat, approvalID: string, now: int, s': System)
    requires Sound(s) && DoInsert(s, t, approvalID, now, s')
    ensures StoreOK(s')
  {
    assert s.history <= s'.history;
    forall k | k in s'.mem ensures OnDisk(s', s'.mem[k]) || BeingWritten(s', s'.mem[k]) {
      if k != approvalID {
        assert OnDisk(s, s.mem[k]) || BeingWritten(s, s.mem[k]);
      }
    }
  }

  lemma TruncateKeepsStoreOK(s: System, t: nat, s': System)
    requires Sound(s) && DoTruncate(s, t, s')
    ensures StoreOK(s')
  {
    JsonNamesInjective();
    var grant := s.threads[t].grant;
    assert ThreadOK(s, s.threads[t]) && BeingWritten(s', grant);
    forall k | k in s'.mem ensures OnDisk(s', s'.mem[k]) || BeingWritten(s', s'.mem[k]) {
      assert OnDisk(s, s.mem[k]) || s.mem[k] == grant;
    }
  }

  lemma WriteKeepsStoreOK(s: System, t: nat, s': System)
    requires Sound(s) && DoWrite(s, t, s')
    ensures StoreOK(s')
  {
    JsonNamesInjective();
    var grant := s.threads[t].grant;
    assert ThreadOK(s, s.threads[t]) && OnDisk(s', grant);
    assert s.history <= s'.history;
    forall k | k in s'.mem ensures OnDisk(s', s'.mem[k]) {
      assert OnDisk(s, s.mem[k]) || s.mem[k] == grant;
    }
  }

  lemma RestartKeepsStoreOK(s: System, s': System)
    requires Sound(s) && Step(s, CrashAndRestart, s')
    ensures StoreOK(s')
  {
    assert s.history <= s'.history;
    forall id | id in s'.mem ensures OnDisk(s', s'.mem[id]) && s'.mem[id].approval.id == id {
      var name :| name in s.disk.Keys && s.disk[name] == Encoded(s'.mem[id]) && s'.mem[id].approval.id == id;
    }
  }

  /** A thread other than the one that moves keeps its obligations. */
  lemma OthersKeepThreadOK(s: System, s': System, t: nat, u: nat)
    requires Sound(s) && s.history <= s'.history
    requires u in s.threads && u != t
    requires (s'.mem == s.mem && s'.disk == s.disk) || s.lock == None || s.lock == Some(t)
    ensures ThreadOK(s', s.threads[u])
  {
    assert ThreadOK(s, s.threads[u]);
  }

  lemma StepKeepsThreadsOK(s: System, a: Action, s': System)
    requires Sound(s) && Step(s, a, s') && !a.CrashAndRestart?
    ensures forall t :: t in s'.threads ==> ThreadOK(s', s'.threads[t])
  {
    assert s.history <= s'.history;
    forall u | u in s'.threads && u != a.t ensures ThreadOK(s', s'.threads[u]) {
      assert u in s.threads && s'.threads[u] == s.threads[u];
      OthersKeepThreadOK(s, s', a.t, u);
    }
    if a.t in s'.threads {
      MoverKeepsThreadOK(s, a, s');
    }
  }

  lemma MoverKeepsThreadOK(s: System, a: Action, s': System)
    requires Sound(s) && Step(s, a, s') && !a.CrashAndRestart? && a.t in s'.threads
    ensures ThreadOK(s', s'.threads[a.t])
  {
    if a.t in s.threads {
      assert ThreadOK(s, s.threads[a.t]);
    }
    if a.TakeOnce? {
      TakerIsOK(s, a.t, a.id, s');
    } else if a.Insert? {
      InserterIsOK(s, a.t, a.approvalID, a.now, s');
    }
  }

  lemma TakerIsOK(s: System, t: nat, id: string, s': System)
    requires StoreOK(s) && DoTakeOnce(s, t, id, s')
    ensures ThreadOK(s', s'.threads[t])
  {
    assert OnDisk(s, s.mem[id]);
  }

  lemma InserterIsOK(s: System, t: nat, approvalID: string, now: int, s': System)
    requires DoInsert(s, t, approvalID, now, s')
    ensures ThreadOK(s', s'.threads[t])
  {
  }

  lemma StepKeepsStoreOK(s: System, a: Action, s': System)
    requires Sound(s) && Step(s, a, s')
    ensures StoreOK(s')
  {
    match a
    case CrashAndRestart => RestartKeepsStoreOK(s, s');
    case TakeOnce(t, id) => TakeOnceKeepsStoreOK(s, t, id, s');
    case RemoveFile(t, ok) => RemoveFileKeepsStoreOK(s, t, ok, s');
    case Insert(t, approvalID, now) => InsertKeepsStoreOK(s, t, approvalID, now, s');
    case Truncate(t) => TruncateKeepsStoreOK(s, t, s');
    case Write(t) => WriteKeepsStoreOK(s, t, s');
    case _ => QuietKeepsStoreOK(s, s');
  }

  lemma StepKeepsPermissionsOK(s: System, a: Action, s': System)
    requires Sound(s) && Step(s, a, s')
    ensures forall id :: id in s'.permissions ==> RequestRecorded(s'.history, s'.permissions[id])
  {
    assert s.history <= s'.history;
    forall id | id in s'.permissions ensures RequestRecorded(s'.history, s'.permissions[id]) {
      if id in s.permissions {
        assert RequestRecorded(s.history, s.permissions[id]);
      }
      if a.Update? {
        assert ThreadOK(s, s.threads[a.t]);
      }
    }
  }

  lemma StepKeepsSound(s: System, a: Action, s': System)
    requires Sound(s) && Step(s, a, s')
    ensures Sound(s')
  {
    StepKeepsHistoryOK(s, a, s');
    StepKeepsLocking(s, a, s');
    StepKeepsStoreOK(s, a, s');
    StepKeepsPermissionsOK(s, a, s');
    if !a.CrashAndRestart? {
      StepKeepsThreadsOK(s, a, s');
    }
  }
}
