/**
 What holds over whole runs of the approval engine, with requests, replies and
 crashes interleaved in any way.
 */
module ApprovalSafety {
  import opened Wrappers
  import opened Patterns
  import opened StubState
  import opened StubHandler
  import opened ApprovalProtocol

  lemma HistoryOnlyGrows(s: System, a: Action, s': System)
    requires Step(s, a, s')
    ensures s.history <= s'.history && |s'.history| <= |s.history| + 1
  {
  }

  lemma {:induction false} BehaviorSound(b: seq<System>)
    requires Behavior(b)
    ensures Sound(Last(b))
  {
    if |b| > 1 {
      var before := b[..|b| - 1];
      assert Behavior(before);
      BehaviorSound(before);
      assert Next(b[|b| - 2], b[|b| - 1]);
      var a :| Step(b[|b| - 2], a, b[|b| - 1]);
      StepKeepsSound(Last(before), a, Last(b));
    }
  }

  /** A decodable file's approval is in memory after a restart. */
  lemma RestartReloads(s: System, s': System, grant: Grant)
    requires StoreOK(s) && DoRestart(s, s') && OnDisk(s, grant)
    ensures InMemory(s', grant)
  {
    var id := grant.approval.id;
    assert JsonName(id) in s.disk.Keys && id in s'.mem;
    var name :| name in s.disk.Keys && s.disk[name] == Encoded(s'.mem[id]) && s'.mem[id].approval.id == id;
  }

  // ---------- Default deny ----------

  /**
   Every command that ever ran was let through by an earlier "once" or "always"
   reply to a still earlier request, raised in the same workspace for a
   directory whose segments start the segments of the directory it ran in.
   */
  lemma DefaultDeny(b: seq<System>, k: nat)
    requires Behavior(b) && k < |Last(b).history| && Last(b).history[k].RanCommand?
    ensures
      var h := Last(b).history;
      var granted := h[k].grantedAt;
      && granted < k && h[granted].Granted?
      && (h[granted].approval.mode == "once" || h[granted].approval.mode == "always")
      && var asked := h[granted].askedAt;
      && asked < granted && h[asked].Asked?
      && h[asked].p.workspaceID == h[k].workspaceID
      && Covers(h[asked].p.cwd, h[k].cwd)
  {
    BehaviorSound(b);
    var h := Last(b).history;
    assert Justified(h, k);
    var granted := h[k].grantedAt;
    assert Justified(h, granted);
    assert Justified(h, h[granted].askedAt);
    MintedCovers(h[h[granted].askedAt].p.cwd, h[k].cwd);
  }

  // ---------- At most once ----------

  ghost function RunsOf(h: seq<Event>, g: nat): nat {
    if h == [] then 0 else
      RunsOf(h[..|h| - 1], g) + if h[|h| - 1].RanCommand? && h[|h| - 1].grantedAt == g then 1 else 0
  }

  ghost function FailedRemovalsOf(h: seq<Event>, g: nat): nat {
    if h == [] then 0 else
      FailedRemovalsOf(h[..|h| - 1], g) + if h[|h| - 1] == RemoveFailed(g) then 1 else 0
  }

  lemma TalliesGrow(h: seq<Event>, e: Event, g: nat)
    ensures RunsOf(h + [e], g) == RunsOf(h, g) + if e.RanCommand? && e.grantedAt == g then 1 else 0
    ensures FailedRemovalsOf(h + [e], g) == FailedRemovalsOf(h, g) + if e == RemoveFailed(g) then 1 else 0
  {
    assert (h + [e])[..|h|] == h;
  }

  ghost predicate IsOnce(h: seq<Event>, g: nat) {
    g < |h| && h[g].Granted? && h[g].approval.mode == "once"
  }

  predicate Holds(thread: Thread, g: nat) {
    thread.Cleared? && thread.grant.grantedAt == g
  }

  /** The threads already let through by grant `g` that have not run yet. */
  ghost function Holders(threads: map<nat, Thread>, g: nat): set<nat> {
    set t | t in threads && Holds(threads[t], g)
  }

  ghost predicate InMemory(s: System, g: Grant) {
    g.approval.id in s.mem && s.mem[g.approval.id] == g
  }

  /** Grant `g` can still be taken, now or after a restart. */
  ghost predicate Live(s: System, g: nat)
    requires IsOnce(s.history, g)
  {
    var grant := Grant(g, s.history[g].approval);
    InMemory(s, grant) || OnDisk(s, grant)
  }

  /**
   Runs, pending runs and remaining liveness of one "once" grant share a budget of one, plus one per
   failed removal.
   */
  ghost predicate WithinBudget(s: System, g: nat)
    requires IsOnce(s.history, g)
  {
    RunsOf(s.history, g) + |Holders(s.threads, g)| + (if Live(s, g) then 1 else 0)
      <= 1 + FailedRemovalsOf(s.history, g)
  }

  lemma HoldersWithout(threads: map<nat, Thread>, t: nat, g: nat)
    ensures |Holders(threads - {t}, g)| ==
      |Holders(threads, g)| - (if t in threads && Holds(threads[t], g) then 1 else 0)
  {
    assert Holders(threads - {t}, g) == Holders(threads, g) - {t};
  }

  lemma HoldersUpdate(threads: map<nat, Thread>, t: nat, thread: Thread, g: nat)
    ensures |Holders(threads[t := thread], g)|
         == |Holders(threads, g)| - (if t in threads && Holds(threads[t], g) then 1 else 0) +
           (if Holds(thread, g) then 1 else 0)
  {
    HoldersWithout(threads, t, g);
    var rest := Holders(threads - {t}, g);
    assert Holders(threads[t := thread], g) == rest + if Holds(thread, g) then {t} else {};
  }

  /** The moving thread's entry changes to one that holds nothing, and nothing dead becomes live. */
  lemma QuietKeepsBudget(s: System, s': System, t: nat, g: nat)
    requires IsOnce(s.history, g) && IsOnce(s'.history, g) && WithinBudget(s, g)
    requires Live(s', g) ==> Live(s, g)
    requires RunsOf(s'.history, g) == RunsOf(s.history, g)
    requires FailedRemovalsOf(s'.history, g) == FailedRemovalsOf(s.history, g)
    requires s'.threads == s.threads - {t} || (t in s'.threads && s'.threads == s.threads[t := s'.threads[t]])
    requires t in s'.threads ==> !Holds(s'.threads[t], g)
    ensures WithinBudget(s', g)
  {
    if t in s'.threads {
      HoldersUpdate(s.threads, t, s'.threads[t], g);
    } else {
      HoldersWithout(s.threads, t, g);
    }
  }

  lemma RunKeepsBudget(s: System, t: nat, s': System, g: nat)
    requires Sound(s) && DoRun(s, t, s') && IsOnce(s.history, g) && WithinBudget(s, g)
    ensures IsOnce(s'.history, g) && WithinBudget(s', g)
  {
    TalliesGrow(s.history, s'.history[|s.history|], g);
    HoldersWithout(s.threads, t, g);
  }

  lemma RemoveFileKeepsBudget(s: System, t: nat, ok: bool, s': System, g: nat)
    requires Sound(s) && DoRemoveFile(s, t, ok, s') && IsOnce(s.history, g) && WithinBudget(s, g)
    ensures IsOnce(s'.history, g) && WithinBudget(s', g)
  {
    TalliesGrow(s.history, s'.history[|s.history|], g);
    HoldersUpdate(s.threads, t, s'.threads[t], g);
    assert ThreadOK(s, s.threads[t]);
    var taken := s.threads[t].grant;
    var grant := Grant(g, s.history[g].approval);
    if taken.grantedAt == g {
      assert OnDisk(s, grant) && Live(s, g);
    }
  }

  lemma RestartKeepsBudget(s: System, s': System, g: nat)
    requires Sound(s) && DoRestart(s, s') && IsOnce(s.history, g) && WithinBudget(s, g)
    ensures IsOnce(s'.history, g) && WithinBudget(s', g)
  {
    TalliesGrow(s.history, Restarted, g);
    assert Holders(s'.threads, g) == {};
    var grant := Grant(g, s.history[g].approval);
    if InMemory(s', grant) {
      var name :| name in s.disk.Keys && s.disk[name] == Encoded(grant);
      assert OnDisk(s, grant);
    }
  }

  lemma UseStandingKeepsBudget(s: System, t: nat, id: string, s': System, g: nat)
    requires Sound(s) && DoUseStanding(s, t, id, s') && IsOnce(s.history, g) && WithinBudget(s, g)
    ensures WithinBudget(s', g)
  {
    assert GrantRecorded(s.history, s.mem[id]);
    QuietKeepsBudget(s, s', t, g);
  }

  lemma FileKeepsBudget(s: System, t: nat, permID: string, now: int, s': System, g: nat)
    requires DoFile(s, t, permID, now, s') && IsOnce(s.history, g) && WithinBudget(s, g)
    ensures IsOnce(s'.history, g) && WithinBudget(s', g)
  {
    TalliesGrow(s.history, s'.history[|s.history|], g);
    QuietKeepsBudget(s, s', t, g);
  }

  lemma InsertKeepsBudget(s: System, t: nat, approvalID: string, now: int, s': System, g: nat)
    requires DoInsert(s, t, approvalID, now, s') && IsOnce(s.history, g) && WithinBudget(s, g)
    ensures IsOnce(s'.history, g) && WithinBudget(s', g)
  {
    TalliesGrow(s.history, s'.history[|s.history|], g);
    QuietKeepsBudget(s, s', t, g);
  }

  lemma WriteKeepsBudget(s: System, t: nat, s': System, g: nat)
    requires Sound(s) && DoWrite(s, t, s') && IsOnce(s.history, g) && WithinBudget(s, g)
    ensures IsOnce(s'.history, g) && WithinBudget(s', g)
  {
    TalliesGrow(s.history, s'.history[|s.history|], g);
    assert ThreadOK(s, s.threads[t]);
    JsonNamesInjective();
    QuietKeepsBudget(s, s', t, g);
  }

  /** Steps that leave no trace in the history. */
  lemma SilentKeepsBudget(s: System, a: Action, s': System, g: nat)
    requires Step(s, a, s') && (a.Arrive? || a.Refuse? || a.TakeOnce? || a.Look? || a.Update? || a.Truncate?)
    requires IsOnce(s.history, g) && WithinBudget(s, g)
    ensures IsOnce(s'.history, g) && WithinBudget(s', g)
  {
    assert s'.history == s.history;
    assert Live(s', g) ==> Live(s, g);
    QuietKeepsBudget(s, s', a.t, g);
  }

  lemma StepKeepsBudget(s: System, a: Action, s': System, g: nat)
    requires Sound(s) && Step(s, a, s') && IsOnce(s.history, g) && WithinBudget(s, g)
    ensures IsOnce(s'.history, g) && WithinBudget(s', g)
  {
    match a
    case Run(t) => RunKeepsBudget(s, t, s', g);
    case RemoveFile(t, ok) => RemoveFileKeepsBudget(s, t, ok, s', g);
    case CrashAndRestart => RestartKeepsBudget(s, s', g);
    case UseStanding(t, id) => UseStandingKeepsBudget(s, t, id, s', g);
    case File(t, permID, now) => FileKeepsBudget(s, t, permID, now, s', g);
    case Insert(t, approvalID, now) => InsertKeepsBudget(s, t, approvalID, now, s', g);
    case Write(t) => WriteKeepsBudget(s, t, s', g);
    case _ => SilentKeepsBudget(s, a, s', g);
  }

  lemma {:induction false} NothingBeforeItsGrant(h: seq<Event>, g: nat)
    requires HistoryOK(h) && g >= |h|
    ensures RunsOf(h, g) == 0 && FailedRemovalsOf(h, g) == 0
  {
    if h != [] {
      var front := h[..|h| - 1];
      assert Justified(h, |h| - 1);
      forall k | 0 <= k < |front| ensures Justified(front, k) {
        assert Justified(h, k);
      }
      NothingBeforeItsGrant(front, g);
    }
  }

  /** A new grant starts with its whole budget. */
  lemma FreshGrantWithinBudget(s: System, a: Action, s': System, g: nat)
    requires Sound(s) && Step(s, a, s') && g == |s.history| && IsOnce(s'.history, g)
    ensures WithinBudget(s', g)
  {
    NothingBeforeItsGrant(s.history, g);
    TalliesGrow(s.history, s'.history[g], g);
    assert s'.history == s.history + [s'.history[g]];
    NobodyHoldsAFreshGrant(s, a, s', g);
  }

  lemma NobodyHoldsAFreshGrant(s: System, a: Action, s': System, g: nat)
    requires Sound(s) && Step(s, a, s') && g == |s.history| && IsOnce(s'.history, g)
    ensures Holders(s'.threads, g) == {}
  {
    assert a.Insert?;
    forall t | t in s'.threads && s'.threads[t].Cleared? ensures s'.threads[t].grant.grantedAt != g {
      assert s'.threads[t] == s.threads[t];
      assert ThreadOK(s, s.threads[t]);
    }
  }

  /**
   At most once, exactly: in every run, crashes included, a "once" grant lets
   through at most one command, plus one for each time removing its file failed.
   */
  lemma {:induction false} RunsWithinBudget(b: seq<System>, g: nat)
    requires Behavior(b) && IsOnce(Last(b).history, g)
    ensures WithinBudget(Last(b), g)
    ensures RunsOf(Last(b).history, g) <= 1 + FailedRemovalsOf(Last(b).history, g)
  {
    if |b| > 1 {
      var before := b[..|b| - 1];
      var s, s' := Last(before), Last(b);
      assert Behavior(before) && Next(b[|b| - 2], b[|b| - 1]);
      BehaviorSound(before);
      var a :| Step(s, a, s');
      HistoryOnlyGrows(s, a, s');
      if g < |s.history| {
        assert s'.history[g] == s.history[g];
        RunsWithinBudget(before, g);
        StepKeepsBudget(s, a, s', g);
      } else {
        FreshGrantWithinBudget(s, a, s', g);
      }
    }
  }

  /** With working file removal each "once" grant authorises at most one run in the whole history. */
  lemma AtMostOnce(b: seq<System>, g: nat)
    requires Behavior(b) && IsOnce(Last(b).history, g)
    requires RemoveFailed(g) !in Last(b).history
    ensures RunsOf(Last(b).history, g) <= 1
  {
    RunsWithinBudget(b, g);
    NoFailuresNoTally(Last(b).history, g);
  }

  lemma {:induction false} NoFailuresNoTally(h: seq<Event>, g: nat)
    requires RemoveFailed(g) !in h
    ensures FailedRemovalsOf(h, g) == 0
  {
    if h != [] {
      NoFailuresNoTally(h[..|h| - 1], g);
      assert h[|h| - 1] in h;
    }
  }
}
