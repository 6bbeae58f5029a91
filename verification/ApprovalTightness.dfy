/**
 The budget of `ApprovalSafety.RunsWithinBudget` cannot be lowered: for every
 number of failed file removals there is a run that uses all of it.  The code
 ignores the error of os.Remove, so the next start loads the spent approval again.
 */
module ApprovalTightness {
  import opened Wrappers
  import opened Patterns
  import opened StubState
  import opened StubHandler
  import opened ApprovalProtocol
  import opened ApprovalSafety

  lemma Extend(b: seq<System>, a: Action, s': System) returns (b': seq<System>)
    requires Behavior(b) && Step(Last(b), a, s')
    ensures Behavior(b') && b' == b + [s'] && Last(b') == s'
  {
    b' := b + [s'];
    forall i | 0 <= i < |b'| - 1 ensures Next(b'[i], b'[i + 1]) {
      if i < |b| - 1 {
        assert Next(b[i], b[i + 1]);
      }
    }
  }

  const SESSION := Session("s", "w", "t", "/d", "idle", 0, 0)
  const REQUEST := PermissionRequest("p", "s", "w", "path.access", [Minted("/d")], "shell", "/d", "pending", 0)
  const APPROVAL := GrantFor(REQUEST, "once", "a", 0)
  const GRANT := Grant(1, APPROVAL)

  /** Nobody is working and the one approval's file is on disk. */
  ghost predicate Resting(s: System) {
    && s.threads == map[] && s.disk == map[JsonName("a") := Encoded(GRANT)]
    && |s.history| > 1 && s.history[1] == Granted(0, APPROVAL)
  }

  lemma GrantOne() returns (b: seq<System>)
    ensures Behavior(b) && Resting(Last(b))
    ensures RunsOf(Last(b).history, 1) == 0 && FailedRemovalsOf(Last(b).history, 1) == 0
  {
    var s0 := System(map[], map[], map[], map[], None, []);
    b := [s0];
    var s1 := s0.(threads := map[0 := Arrived(SESSION, "shell", "/d")]);
    b := Extend(b, Arrive(0, SESSION, "shell", ""), s1);
    var s2 := s1.(threads := map[0 := Refusing(SESSION, "shell", "/d")]);
    b := Extend(b, Refuse(0), s2);
    var asked := Request(0, REQUEST);
    var s3 := s2.(threads := map[], permissions := map["p" := asked], history := [Asked(REQUEST)]);
    b := Extend(b, Action.File(0, "p", 0), s3);
    b := Reply(b, asked);
  }

  lemma Reply(b0: seq<System>, asked: Request) returns (b: seq<System>)
    requires Behavior(b0) && asked == Request(0, REQUEST)
    requires Last(b0) == System(map[], map[], map["p" := asked], map[], None, [Asked(REQUEST)])
    ensures Behavior(b) && Resting(Last(b))
    ensures RunsOf(Last(b).history, 1) == 0 && FailedRemovalsOf(Last(b).history, 1) == 0
  {
    var s3 := Last(b0);
    var s4 := s3.(threads := map[0 := Replying(asked, "once")]);
    b := Extend(b0, Look(0, "p", "once"), s4);
    var s5 := s4.(threads := map[0 := Granting(asked, "once")],
                  permissions := map["p" := asked.(p := REQUEST.(status := "once"))]);
    b := Extend(b, Update(0), s5);
    var s6 := s5.(mem := map["a" := GRANT], lock := Some(0), threads := map[0 := Truncating(GRANT)],
                  history := [Asked(REQUEST), Granted(0, APPROVAL)]);
    b := Extend(b, Insert(0, "a", 0), s6);
    b := Save(b);
  }

  lemma Save(b0: seq<System>) returns (b: seq<System>)
    requires Behavior(b0) && Last(b0).threads == map[0 := Truncating(GRANT)] && Last(b0).disk == map[]
    requires Last(b0).history == [Asked(REQUEST), Granted(0, APPROVAL)]
    ensures Behavior(b) && Resting(Last(b))
    ensures RunsOf(Last(b).history, 1) == 0 && FailedRemovalsOf(Last(b).history, 1) == 0
  {
    var s6 := Last(b0);
    var s7 := s6.(disk := map[JsonName("a") := Torn], threads := map[0 := Writing(GRANT)]);
    b := Extend(b0, Truncate(0), s7);
    var s8 := s7.(disk := map[JsonName("a") := Encoded(GRANT)], lock := None, threads := map[],
                  history := [Asked(REQUEST), Granted(0, APPROVAL), Saved(1)]);
    b := Extend(b, Write(0), s8);
    TalliesGrow([], Asked(REQUEST), 1);
    TalliesGrow([Asked(REQUEST)], Granted(0, APPROVAL), 1);
    TalliesGrow([Asked(REQUEST), Granted(0, APPROVAL)], Saved(1), 1);
    assert s8.history == [] + [Asked(REQUEST)] + [Granted(0, APPROVAL)] + [Saved(1)];
  }

  /** Restart: the approval is loaded again, and a new request takes it. */
  lemma TakeAgain(b0: seq<System>) returns (b: seq<System>)
    requires Behavior(b0) && Resting(Last(b0))
    ensures Behavior(b)
    ensures Last(b) == System(map[], Last(b0).disk, map[], map[0 := Removing("a", "w", "/d", GRANT)], Some(0),
                              Last(b0).history + [Restarted])
  {
    var s := Last(b0);
    var s1 := System(map["a" := GRANT], s.disk, map[], map[], None, s.history + [Restarted]);
    assert s.disk[JsonName("a")] == Encoded(s1.mem["a"]);
    b := Extend(b0, CrashAndRestart, s1);
    var s2 := s1.(threads := map[0 := Arrived(SESSION, "shell", "/d")]);
    b := Extend(b, Arrive(0, SESSION, "shell", ""), s2);
    MintedCovers("/d", "/d");
    assert Allows(s2, "a", "w", "/d");
    var s3 := s2.(mem := map[], lock := Some(0), threads := map[0 := Removing("a", "w", "/d", GRANT)]);
    b := Extend(b, TakeOnce(0, "a"), s3);
  }

  /** Restart, take the reloaded approval, remove its file or fail to, run. */
  lemma OneMoreRun(b0: seq<System>, ok: bool) returns (b: seq<System>)
    requires Behavior(b0) && Resting(Last(b0))
    ensures Behavior(b) && IsOnce(Last(b).history, 1) && (!ok ==> Resting(Last(b)))
    ensures RunsOf(Last(b).history, 1) == RunsOf(Last(b0).history, 1) + 1
    ensures FailedRemovalsOf(Last(b).history, 1) == FailedRemovalsOf(Last(b0).history, 1) + if ok then 0 else 1
  {
    b := TakeAgain(b0);
    var h, e := Last(b0).history, if ok then Consumed(1) else RemoveFailed(1);
    b := RemoveAndRun(b, ok);
    TalliesGrow(h, Restarted, 1);
    TalliesGrow(h + [Restarted], e, 1);
    TalliesGrow(h + [Restarted] + [e], RanCommand(1, "w", "/d"), 1);
  }

  lemma RemoveAndRun(b0: seq<System>, ok: bool) returns (b: seq<System>)
    requires Behavior(b0) && Last(b0).threads == map[0 := Removing("a", "w", "/d", GRANT)]
    ensures Behavior(b) && Last(b).threads == map[]
    ensures !ok ==> Last(b).disk == Last(b0).disk
    ensures Last(b).history ==
      Last(b0).history + [if ok then Consumed(1) else RemoveFailed(1)] + [RanCommand(1, "w", "/d")]
  {
    var s3, h1 := Last(b0), Last(b0).history;
    var e := if ok then Consumed(1) else RemoveFailed(1);
    var s4 := s3.(disk := if ok then s3.disk - {JsonName("a")} else s3.disk, lock := None,
                  threads := map[0 := Cleared("w", "/d", GRANT)], history := h1 + [e]);
    b := Extend(b0, RemoveFile(0, ok), s4);
    var s5 := s4.(threads := map[], history := h1 + [e] + [RanCommand(1, "w", "/d")]);
    b := Extend(b, Run(0), s5);
  }

  /** For every n some run has n failed removals of one "once" grant and n + 1 commands run under it. */
  lemma BudgetIsAttained(n: nat)
    ensures exists b :: && Behavior(b) && IsOnce(Last(b).history, 1)
                        && FailedRemovalsOf(Last(b).history, 1) == n && RunsOf(Last(b).history, 1) == n + 1
  {
    var b := FailTimes(n);
    b := OneMoreRun(b, true);
  }

  lemma {:induction false} FailTimes(n: nat) returns (b: seq<System>)
    ensures Behavior(b) && Resting(Last(b))
    ensures FailedRemovalsOf(Last(b).history, 1) == n && RunsOf(Last(b).history, 1) == n
  {
    if n == 0 {
      b := GrantOne();
    } else {
      b := FailTimes(n - 1);
      b := OneMoreRun(b, false);
    }
  }
}
