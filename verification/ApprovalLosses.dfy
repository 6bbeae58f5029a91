/**
 The two ways an "always" approval can be lost, each in a run: two replies whose
 clock readings give one identifier, and a crash before the file is written.
 */
module ApprovalLosses {
  import opened Wrappers
  import opened Patterns
  import opened StubState
  import opened StubHandler
  import opened ApprovalProtocol
  import opened ApprovalTightness
  import opened ApprovalLedger

  const ASKED := Request(0, REQUEST)
  const ALWAYS := Grant(1, GrantFor(REQUEST, "always", "a", 0))
  const ONCE := Grant(3, GrantFor(REQUEST, "once", "a", 0))

  /** A request is refused, and two replies to it arrive. */
  lemma TwoReplies() returns (b: seq<System>)
    ensures Behavior(b)
    ensures Last(b) ==
      System(map[], map[], map["p" := ASKED], map[0 := Replying(ASKED, "always"), 1 := Replying(ASKED, "once")],
                              None, [Asked(REQUEST)])
  {
    var s0 := System(map[], map[], map[], map[], None, []);
    b := [s0];
    var s1 := s0.(threads := map[0 := Arrived(SESSION, "shell", "/d")]);
    b := Extend(b, Arrive(0, SESSION, "shell", ""), s1);
    var s2 := s1.(threads := map[0 := Refusing(SESSION, "shell", "/d")]);
    b := Extend(b, Refuse(0), s2);
    var s3 := s2.(threads := map[], permissions := map["p" := ASKED], history := [Asked(REQUEST)]);
    b := Extend(b, Action.File(0, "p", 0), s3);
    var s4 := s3.(threads := map[0 := Replying(ASKED, "always")]);
    b := Extend(b, Look(0, "p", "always"), s4);
    var s5 := s4.(threads := map[0 := Replying(ASKED, "always"), 1 := Replying(ASKED, "once")]);
    b := Extend(b, Look(1, "p", "once"), s5);
  }

  /** The first reply has inserted its approval and not yet written the file. */
  ghost predicate Inserted(s: System) {
    && s.mem == map["a" := ALWAYS] && s.disk == map[] && s.lock == Some(0)
    && s.threads == map[0 := Truncating(ALWAYS), 1 := Replying(ASKED, "once")]
    && s.history == [Asked(REQUEST), Granted(0, ALWAYS.approval)]
  }

  lemma FirstReplyInserts() returns (b: seq<System>)
    ensures Behavior(b) && Inserted(Last(b))
  {
    b := TwoReplies();
    var s := Last(b);
    var s1 := s.(permissions := map["p" := ASKED.(p := REQUEST.(status := "always"))],
                 threads := map[0 := Granting(ASKED, "always"), 1 := Replying(ASKED, "once")]);
    b := Extend(b, Update(0), s1);
    var s2 := s1.(mem := map["a" := ALWAYS], lock := Some(0),
                  threads := map[0 := Truncating(ALWAYS), 1 := Replying(ASKED, "once")],
                  history := [Asked(REQUEST), Granted(0, ALWAYS.approval)]);
    b := Extend(b, Insert(0, "a", 0), s2);
  }

  /** The first reply has written its approval; the second is still to come. */
  ghost predicate Written(s: System) {
    && s.mem == map["a" := ALWAYS] && s.disk == map[JsonName("a") := Encoded(ALWAYS)] && s.lock == None
    && s.threads == map[1 := Replying(ASKED, "once")]
    && s.history == [Asked(REQUEST), Granted(0, ALWAYS.approval), Saved(1)]
  }

  lemma FirstReplyWrites() returns (b: seq<System>)
    ensures Behavior(b) && Written(Last(b))
  {
    b := FirstReplyInserts();
    var s := Last(b);
    var s1 :=
      s.(disk := map[JsonName("a") := Torn], threads := map[0 := Writing(ALWAYS), 1 := Replying(ASKED, "once")]);
    b := Extend(b, Truncate(0), s1);
    var s2 :=
      s1.(disk := map[JsonName("a") := Encoded(ALWAYS)], lock := None, threads := map[1 := Replying(ASKED, "once")],
                  history := [Asked(REQUEST), Granted(0, ALWAYS.approval), Saved(1)]);
    b := Extend(b, Write(0), s2);
  }

  lemma SecondReplyInserts(b0: seq<System>) returns (b: seq<System>)
    requires Behavior(b0) && Written(Last(b0))
    ensures Behavior(b) && |b| > |b0| && b[|b0| - 1] == Last(b0) && Last(b).mem == map["a" := ONCE]
  {
    var s := Last(b0);
    var s1 := s.(permissions := s.permissions["p" := ASKED.(p := REQUEST.(status := "once"))],
                 threads := map[1 := Granting(ASKED, "once")]);
    b := Extend(b0, Update(1), s1);
    var s2 := s1.(mem := map["a" := ONCE], lock := Some(1), threads := map[1 := Truncating(ONCE)],
                  history := s.history + [Granted(0, ONCE.approval)]);
    b := Extend(b, Insert(1, "a", 0), s2);
  }

  /** A written "always" approval is gone after a second reply whose identifier is the same. */
  lemma RepeatedIdentifierLosesAlways()
    ensures exists b, i :: && Behavior(b) && 0 <= i < |b| && DurablyCovered(b[i], "w", "/d")
                           && !CoveredAlways(Last(b), "w", "/d")
  {
    var b0 := FirstReplyWrites();
    var b := SecondReplyInserts(b0);
    MintedCovers("/d", "/d");
    var early := Last(b0);
    assert "a" in early.mem && OnDisk(early, early.mem["a"]) && Fits(early.mem["a"].approval, "w", "/d");
    assert DurablyCovered(b[|b0| - 1], "w", "/d");
    assert forall id :: id in Last(b).mem ==> id == "a";
  }

  /** Without any repeated identifier, a crash between the map insert and the write loses the approval too. */
  lemma CrashBeforeWriteLosesAlways()
    ensures exists b, i ::
      && Behavior(b) && DistinctIDs(Last(b).history) && 0 <= i < |b| && CoveredAlways(b[i], "w", "/d")
                           && !CoveredAlways(Last(b), "w", "/d")
  {
    var b0 := FirstReplyInserts();
    var s := Last(b0);
    var s1 := System(map[], map[], map[], map[], None, s.history + [Restarted]);
    var b := Extend(b0, CrashAndRestart, s1);
    MintedCovers("/d", "/d");
    assert "a" in s.mem && Fits(s.mem["a"].approval, "w", "/d");
    assert CoveredAlways(b[|b0| - 1], "w", "/d");
  }
}
