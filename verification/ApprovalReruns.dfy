/**
 When a "once" grant can let through another command: in a reachable state, exactly
 when it can still be taken or a request already let through has not run yet.
 */
module ApprovalReruns {
  import opened Wrappers
  import opened Patterns
  import opened StubState
  import opened ApprovalProtocol
  import opened ApprovalSafety
  import opened ApprovalTightness

  /** The grant can be taken, or has been and its command is still to run. */
  ghost predicate Usable(s: System, g: nat)
    requires IsOnce(s.history, g)
  {
    Live(s, g) || exists t :: t in s.threads && Holds(s.threads[t], g)
  }

  // ---------- What is used up stays used up ----------

  lemma InsertRevivesNothing(s: System, t: nat, approvalID: string, now: int, s': System, g: nat)
    requires DoInsert(s, t, approvalID, now, s') && IsOnce(s.history, g) && IsOnce(s'.history, g) && Live(s', g)
    ensures Live(s, g)
  {
    assert s'.history[g] == s.history[g];
  }

  lemma WriteRevivesNothing(s: System, t: nat, s': System, g: nat)
    requires Sound(s) && DoWrite(s, t, s') && IsOnce(s.history, g) && IsOnce(s'.history, g) && Live(s', g)
    ensures Live(s, g)
  {
    assert ThreadOK(s, s.threads[t]) && s'.history[g] == s.history[g];
    JsonNamesInjective();
  }

  lemma RestartRevivesNothing(s: System, s': System, g: nat)
    requires Sound(s) && DoRestart(s, s') && IsOnce(s.history, g) && IsOnce(s'.history, g) && Live(s', g)
    ensures Live(s, g)
  {
    var grant := Grant(g, s.history[g].approval);
    if InMemory(s', grant) {
      var name :| name in s.disk.Keys && s.disk[name] == Encoded(grant);
      assert OnDisk(s, grant);
    }
  }

  lemma NothingRevives(s: System, a: Action, s': System, g: nat)
    requires Sound(s) && Step(s, a, s') && IsOnce(s.history, g)
    ensures IsOnce(s'.history, g) && (Live(s', g) ==> Live(s, g))
  {
    HistoryOnlyGrows(s, a, s');
    assert s'.history[g] == s.history[g];
    if Live(s', g) {
      if a.Insert? {
        InsertRevivesNothing(s, a.t, a.approvalID, a.now, s', g);
      } else if a.Write? {
        WriteRevivesNothing(s, a.t, s', g);
      } else if a.CrashAndRestart? {
        RestartRevivesNothing(s, s', g);
      }
    }
  }

  /** A thread is let through by a grant only while the grant can be taken. */
  lemma HoldersComeFromLife(s: System, a: Action, s': System, g: nat, t: nat)
    requires Sound(s) && Step(s, a, s') && IsOnce(s.history, g) && t in s'.threads && Holds(s'.threads[t], g)
    ensures Live(s, g) || (t in s.threads && Holds(s.threads[t], g))
  {
    if a.RemoveFile? && a.t == t {
      assert ThreadOK(s, s.threads[t]);
      assert OnDisk(s, Grant(g, s.history[g].approval));
    } else if a.UseStanding? && a.t == t {
      assert GrantRecorded(s.history, s.mem[a.id]);
    }
  }

  lemma UsedUpStays(s: System, a: Action, s': System, g: nat)
    requires Sound(s) && Step(s, a, s') && IsOnce(s.history, g) && !Usable(s, g)
    ensures IsOnce(s'.history, g) && !Usable(s', g) && RunsOf(s'.history, g) == RunsOf(s.history, g)
  {
    NothingRevives(s, a, s', g);
    forall t | t in s'.threads && Holds(s'.threads[t], g) ensures false {
      HoldersComeFromLife(s, a, s', g, t);
    }
    if s'.history != s.history {
      TalliesGrow(s.history, s'.history[|s.history|], g);
      assert s'.history == s.history + [s'.history[|s.history|]];
    }
  }

  lemma {:induction false} UsedUpForever(b: seq<System>, c: seq<System>, g: nat)
    requires Behavior(b) && Behavior(c) && b <= c && IsOnce(Last(b).history, g) && !Usable(Last(b), g)
    ensures IsOnce(Last(c).history, g) && !Usable(Last(c), g)
    ensures RunsOf(Last(c).history, g) == RunsOf(Last(b).history, g)
  {
    if |c| > |b| {
      var n, before := |c| - 2, c[..|c| - 1];
      assert Behavior(before) && Next(c[n], c[n + 1]);
      UsedUpForever(b, before, g);
      BehaviorSound(before);
      var a :| Step(c[n], a, c[n + 1]);
      UsedUpStays(c[n], a, c[n + 1], g);
    }
  }

  // ---------- What is usable can be used ----------

  lemma RunHolder(b: seq<System>, g: nat, t: nat) returns (c: seq<System>)
    requires Behavior(b) && t in Last(b).threads && Holds(Last(b).threads[t], g)
    ensures Behavior(c) && b <= c && RunsOf(Last(c).history, g) == RunsOf(Last(b).history, g) + 1
  {
    var s := Last(b);
    var Cleared(workspaceID, cwd, grant) := s.threads[t];
    var e := RanCommand(grant.grantedAt, workspaceID, cwd);
    TalliesGrow(s.history, e, g);
    c := Extend(b, Run(t), s.(threads := s.threads - {t}, history := s.history + [e]));
  }

  /** A fresh process loads every decodable file. */
  lemma Reload(b: seq<System>) returns (c: seq<System>)
    requires Behavior(b)
    ensures Behavior(c) && b <= c && Last(c).disk == Last(b).disk && Last(c).threads == map[] && Last(c).lock == None
    ensures Last(c).history == Last(b).history + [Restarted]
    ensures forall grant :: OnDisk(Last(b), grant) ==> InMemory(Last(c), grant)
  {
    var s := Last(b);
    BehaviorSound(b);
    JsonNamesInjective();
    var names := set name | name in s.disk && s.disk[name].Encoded?;
    forall m, n | m in names && n in names && s.disk[m].value.approval.id == s.disk[n].value.approval.id
      ensures m == n {
      assert m == JsonName(s.disk[m].value.approval.id);
    }
    var mem := map name | name in names :: s.disk[name].value.approval.id := s.disk[name].value;
    var s' := System(mem, s.disk, map[], map[], None, s.history + [Restarted]);
    forall id | id in mem ensures exists name ::
      name in s.disk.Keys && s.disk[name] == Encoded(mem[id]) && mem[id].approval.id == id {
      var name :| name in names && s.disk[name].value.approval.id == id;
      assert s.disk[name] == Encoded(mem[id]);
    }
    c := Extend(b, CrashAndRestart, s');
    forall grant | OnDisk(s, grant) ensures InMemory(s', grant) {
      RestartReloads(s, s', grant);
    }
  }

  /** The directory a grant was asked for is a path it lets through. */
  lemma ItsOwnDirectory(s: System, grant: Grant) returns (dir: string)
    requires Sound(s) && GrantRecorded(s.history, grant)
    ensures MatchPattern(grant.approval.pattern, dir)
  {
    assert Justified(s.history, grant.grantedAt);
    dir := s.history[s.history[grant.grantedAt].askedAt].p.cwd;
    MintedCovers(dir, dir);
  }

  /** A grant in memory, nobody at work: a new request takes it ... */
  lemma TakeIt(b: seq<System>, grant: Grant) returns (c: seq<System>)
    requires Behavior(b) && Last(b).threads == map[] && Last(b).lock == None && InMemory(Last(b), grant)
    requires grant.approval.mode == "once"
    ensures Behavior(c) && b <= c && Last(c).history == Last(b).history
    ensures 0 in Last(c).threads && Last(c).threads[0].Removing? && Last(c).threads[0].grant == grant
  {
    var s := Last(b);
    BehaviorSound(b);
    var id, w := grant.approval.id, grant.approval.workspaceID;
    var dir := ItsOwnDirectory(s, grant);
    var se := Session("s", w, "t", dir, "idle", 0, 0);
    var s1 := s.(threads := map[0 := Arrived(se, "shell", dir)]);
    c := Extend(b, Arrive(0, se, "shell", ""), s1);
    assert Allows(s1, id, w, dir);
    var s2 := s1.(mem := s.mem - {id}, lock := Some(0), threads := map[0 := Removing(id, w, dir, grant)]);
    c := Extend(c, TakeOnce(0, id), s2);
  }

  /** ... and is let through. */
  lemma RemoveIts(b: seq<System>, t: nat) returns (c: seq<System>)
    requires Behavior(b) && t in Last(b).threads && Last(b).threads[t].Removing?
    ensures
      var g := Last(b).threads[t].grant.grantedAt;
      && Behavior(c) && b <= c && RunsOf(Last(c).history, g) == RunsOf(Last(b).history, g)
      && t in Last(c).threads && Holds(Last(c).threads[t], g)
  {
    var s := Last(b);
    var Removing(id, w, dir, grant) := s.threads[t];
    TalliesGrow(s.history, Consumed(grant.grantedAt), grant.grantedAt);
    c := Extend(b, RemoveFile(t, true),
                s.(disk := s.disk - {JsonName(id)}, lock := None, threads := s.threads[t := Cleared(w, dir, grant)],
                   history := s.history + [Consumed(grant.grantedAt)]));
  }

  /** If its file is still to be written, whoever holds the lock writes it. */
  lemma FinishWriting(b: seq<System>, grant: Grant) returns (c: seq<System>)
    requires Behavior(b) && InMemory(Last(b), grant)
    ensures Behavior(c) && b <= c && OnDisk(Last(c), grant)
    ensures RunsOf(Last(c).history, grant.grantedAt) == RunsOf(Last(b).history, grant.grantedAt)
  {
    var s := Last(b);
    BehaviorSound(b);
    c := b;
    if !OnDisk(s, grant) {
      assert BeingWritten(s, grant);
      var t := s.lock.value;
      var entry := JsonName(grant.approval.id);
      if s.threads[t].Truncating? {
        c := Extend(c, Truncate(t), s.(disk := s.disk[entry := Torn], threads := s.threads[t := Writing(grant)]));
      }
      var s1 := Last(c);
      TalliesGrow(s1.history, Saved(grant.grantedAt), grant.grantedAt);
      c := Extend(c, Write(t), s1.(disk := s1.disk[entry := Encoded(grant)], lock := None, threads := s1.threads - {t},
                                   history := s1.history + [Saved(grant.grantedAt)]));
    }
  }

  lemma RunAgain(b: seq<System>, g: nat) returns (c: seq<System>)
    requires Behavior(b) && IsOnce(Last(b).history, g) && Usable(Last(b), g)
    ensures Behavior(c) && b <= c && RunsOf(Last(c).history, g) == RunsOf(Last(b).history, g) + 1
  {
    var s := Last(b);
    var grant := Grant(g, s.history[g].approval);
    if t :| t in s.threads && Holds(s.threads[t], g) {
      c := RunHolder(b, g, t);
    } else {
      c := b;
      if InMemory(s, grant) {
        c := FinishWriting(c, grant);
      }
      TalliesGrow(Last(c).history, Restarted, g);
      c := Reload(c);
      c := TakeIt(c, grant);
      c := RemoveIts(c, 0);
      c := RunHolder(c, g, 0);
    }
  }

  ghost predicate RunsAgain(b: seq<System>, c: seq<System>, g: nat)
    requires |b| > 0
  {
    Behavior(c) && b <= c && RunsOf(Last(c).history, g) > RunsOf(Last(b).history, g)
  }

  /** In a reachable state some continuation runs another command under the grant if and only if the grant is usable. */
  lemma RunsAgainIffUsable(b: seq<System>, g: nat)
    requires Behavior(b) && IsOnce(Last(b).history, g)
    ensures (exists c :: RunsAgain(b, c, g)) <==> Usable(Last(b), g)
  {
    if Usable(Last(b), g) {
      var c := RunAgain(b, g);
      assert RunsAgain(b, c, g);
    } else {
      forall c | RunsAgain(b, c, g) ensures false {
        UsedUpForever(b, c, g);
      }
    }
  }

  /** Removing the file ends a grant's life if and only if the removal works. */
  lemma RemovalEndsLifeIff(s: System, t: nat, ok: bool, s': System)
    requires Sound(s) && DoRemoveFile(s, t, ok, s')
    ensures
      var g := s.threads[t].grant.grantedAt;
      IsOnce(s'.history, g) && (Live(s', g) <==> !ok)
  {
    assert ThreadOK(s, s.threads[t]);
    var grant := s.threads[t].grant;
    assert s'.history[grant.grantedAt] == s.history[grant.grantedAt]
      && grant == Grant(grant.grantedAt, s'.history[grant.grantedAt].approval);
    assert OnDisk(s, grant);
  }

  /**
   So once the only command let through has run, there is another one in some continuation if and
   only if the removal failed.
   */
  lemma LastRunIffRemoved(b: seq<System>, t: nat, ok: bool, s1: System, s2: System)
    requires Behavior(b) && DoRemoveFile(Last(b), t, ok, s1) && DoRun(s1, t, s2)
    requires Holders(Last(b).threads, Last(b).threads[t].grant.grantedAt) == {}
    ensures
      var g, after := Last(b).threads[t].grant.grantedAt, b + [s1] + [s2];
      Behavior(after) && IsOnce(s2.history, g) && ((exists c :: RunsAgain(after, c, g)) <==> !ok)
  {
    var s, g := Last(b), Last(b).threads[t].grant.grantedAt;
    var b1 := Extend(b, RemoveFile(t, ok), s1);
    var b2 := Extend(b1, Run(t), s2);
    BehaviorSound(b);
    RemovalEndsLifeIff(s, t, ok, s1);
    assert s2.mem == s1.mem && s2.disk == s1.disk && s2.history[g] == s1.history[g];
    forall u | u in s2.threads ensures !Holds(s2.threads[u], g) {
      assert s2.threads[u] == s.threads[u] && u !in Holders(s.threads, g);
    }
    RunsAgainIffUsable(b2, g);
  }
}
