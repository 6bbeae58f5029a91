/**
 The two handler paths that decide whether a command runs: the shell/command
 path, which spends an approval or files a request, and the reply path, which
 turns a request into an approval.  Routing and JSON are outside the model;
 identifiers and times, which come from the clock, are parameters.
 */
module StubHandler {
  import opened Wrappers
  import opened Patterns
  import opened StubState

  /** A shell request either reaches `runCommand` under an approval or is refused with a new request. */
  datatype Verdict = Ran(cwd: string, under: Approval) | Refused(request: PermissionRequest)

  /** An empty `cwd` means the session's directory. */
  function EffectiveCwd(se: Session, cwd: string): string {
    if cwd == "" then se.directory else cwd
  }

  predicate Grants(reply: string) {
    reply == "always" || reply == "once"
  }

  function GrantFor(p: PermissionRequest, reply: string, approvalID: string, now: int): Approval
    requires |p.patterns| > 0
  {
    Approval(approvalID, p.workspaceID, "default", p.permission, p.patterns[0], reply, now)
  }

  /**
   The state after a reply: the request's status is overwritten, pending or not, and a granting reply
   adds an approval.
   */
  ghost function AfterReply(i: Image, p: PermissionRequest, reply: string, approvalID: string, now: int): Image {
    var updated := Mutate(i, PutPermission(p.(status := reply)));
    if Grants(reply) && |p.patterns| > 0 then
      Mutate(updated, PutApproval(GrantFor(p, reply, approvalID, now)))
    else
      updated
  }

  class Handler {
    const st: State

    constructor (st: State)
      ensures this.st == st
    {
      this.st := st;
    }

    method ExecuteCommandLike(se: Session, operation: string, cwd: string, permID: string, now: int)
      returns (verdict: Verdict)
      modifies st, st.root
      ensures verdict.Ran? <==> Eligible(old(st.approvals), se.workspaceID, EffectiveCwd(se, cwd)) != {}
      ensures verdict.Ran? ==>
        && verdict.cwd == EffectiveCwd(se, cwd)
        && exists id :: && id in Eligible(old(st.approvals), se.workspaceID, verdict.cwd)
                        && verdict.under == old(st.approvals)[id]
                        && st.Snapshot() == Mutate(old(st.Snapshot()), Consume(se.workspaceID, verdict.cwd, id))
      ensures verdict.Refused? ==>
        && verdict.request.patterns == [Minted(EffectiveCwd(se, cwd))]
        && verdict.request.workspaceID == se.workspaceID && verdict.request.sessionID == se.id
        && verdict.request.id == permID && verdict.request.status == "pending"
        && st.Snapshot() == Mutate(old(st.Snapshot()), PutPermission(verdict.request))
      // The same in full: which directory counts, what lets it through, what is filed, and what does not change.
      ensures
        var dir := if cwd == "" then se.directory else cwd;
        && (verdict.Ran? <==>
              exists id :: && id in old(st.approvals) && old(st.approvals)[id].workspaceID == se.workspaceID
                           && MatchPattern(old(st.approvals)[id].pattern, dir))
        && (verdict.Ran? ==>
              && verdict.cwd == dir && verdict.under.workspaceID == se.workspaceID
              && MatchPattern(verdict.under.pattern, dir) && st.permissions == old(st.permissions))
        && (verdict.Refused? ==>
              && verdict.request == PermissionRequest(
                   permID, se.id, se.workspaceID, "path.access", [dir + "/**"], operation, dir, "pending", now)
              && st.permissions == old(st.permissions)[permID := verdict.request]
              && st.approvals == old(st.approvals) && st.root.approvals == old(st.root.approvals))
    {
      var dir := EffectiveCwd(se, cwd);
      var approval := st.ConsumeApproval(se.workspaceID, dir);
      if approval.None? {
        var request := PermissionRequest(
          permID, se.id, se.workspaceID, "path.access", [Minted(dir)], operation, dir, "pending", now);
        st.CreatePermission(request);
        return Refused(request);
      }
      return Ran(dir, approval.value);
    }

    /** Fails exactly when a granting reply meets a request without patterns; the status is overwritten even then. */
    method ApplyPermissionReply(p: PermissionRequest, reply: string, approvalID: string, now: int)
      returns (result: Result<()>)
      modifies st, st.root
      ensures st.Snapshot() == AfterReply(old(st.Snapshot()), p, reply, approvalID, now)
      // The same in full: only these two replies grant, and what they grant.
      ensures st.permissions == old(st.permissions)[p.id := p.(status := reply)]
      ensures (reply == "always" || reply == "once") && p.patterns != [] ==>
        var granted := Approval(approvalID, p.workspaceID, "default", p.permission, p.patterns[0], reply, now);
        && st.approvals == old(st.approvals)[approvalID := granted]
        && st.root.approvals == old(st.root.approvals)[approvalID + ".json" := Encoded(granted)]
      ensures !((reply == "always" || reply == "once") && p.patterns != []) ==>
        st.approvals == old(st.approvals) && st.root.approvals == old(st.root.approvals)
      ensures result.Err? <==> (reply == "always" || reply == "once") && p.patterns == []
    {
      st.CreatePermission(p.(status := reply));
      if Grants(reply) {
        if |p.patterns| == 0 {
          return Err("permission request has no patterns; cannot create approval");
        }
        st.CreateApproval(GrantFor(p, reply, approvalID, now));
      }
      return Ok(());
    }

    method PermissionReply(id: string, reply: string, approvalID: string, now: int) returns (result: Result<()>)
      modifies st, st.root
      ensures id !in old(st.permissions) ==>
        result == Err("permission request not found") && st.Snapshot() == old(st.Snapshot())
      ensures id in old(st.permissions) ==>
        && st.Snapshot() == AfterReply(old(st.Snapshot()), old(st.permissions)[id], reply, approvalID, now)
        && (result.Err? <==> (reply == "always" || reply == "once") && old(st.permissions)[id].patterns == [])
    {
      if id !in st.permissions {
        return Err("permission request not found");
      }
      result := ApplyPermissionReply(st.permissions[id], reply, approvalID, now);
    }

    /** The session-scoped route only reaches requests raised by that very session. */
    method SessionPermissionReply(sessionID: string, permissionID: string, reply: string, approvalID: string, now: int)
      returns (result: Result<()>)
      modifies st, st.root
      ensures
        var found := && sessionID in old(st.sessions) && permissionID in old(st.permissions)
                     && old(st.permissions)[permissionID].sessionID == sessionID;
        if found then
          && st.Snapshot() == AfterReply(old(st.Snapshot()), old(st.permissions)[permissionID], reply, approvalID, now)
          && (result.Err? <==>
                (reply == "always" || reply == "once") && old(st.permissions)[permissionID].patterns == [])
        else
          && result ==
                Err(if sessionID in old(st.sessions) then "permission request not found" else "session not found")
          && st.Snapshot() == old(st.Snapshot())
    {
      if sessionID !in st.sessions {
        return Err("session not found");
      }
      if permissionID !in st.permissions || st.permissions[permissionID].sessionID != sessionID {
        return Err("permission request not found");
      }
      result := ApplyPermissionReply(st.permissions[permissionID], reply, approvalID, now);
    }
  }

  /**
   A refused request, a granting reply to it and the immediate retry: the retry
   runs, under the new approval, and a "once" approval is then used up again.
   */
  method AskReplyRetry(
    h: Handler, se: Session, operation: string, cwd: string, reply: string, permID: string, approvalID: string,
    retryID: string, now: int)
    returns (first: Verdict, replied: Result<()>, second: Verdict)
    requires reply == "always" || reply == "once"
    modifies h.st, h.st.root
    ensures
      var dir := if cwd == "" then se.directory else cwd;
      && (first.Refused? <==> Eligible(old(h.st.approvals), se.workspaceID, dir) == {})
      && (first.Refused? ==>
            && first.request.patterns == [dir + "/**"] && replied.Ok? && second.Ran? && second.cwd == dir
            && second.under == Approval(approvalID, se.workspaceID, "default", "path.access", dir + "/**", reply, now)
            && Eligible(h.st.approvals, se.workspaceID, dir) == if reply == "once" then {} else {approvalID})
  {
    var dir := EffectiveCwd(se, cwd);
    first := h.ExecuteCommandLike(se, operation, cwd, permID, now);
    replied := Ok(());
    second := first;
    if first.Ran? {
      return;
    }
    ghost var asked := h.st.Snapshot();
    replied := h.PermissionReply(permID, reply, approvalID, now);
    CoversItself(dir);
    RetryAllowed(asked, first.request, dir, dir, reply, approvalID, now);
    RetrySpends(asked, first.request, dir, dir, reply, approvalID, now);
    assert h.st.Snapshot() == AfterReply(asked, first.request, reply, approvalID, now);
    second := h.ExecuteCommandLike(se, operation, cwd, retryID, now);
  }

  lemma CoversItself(dir: string)
    ensures Covers(dir, dir)
  {
  }

  /**
   Progress, for every directory string: once a refused request for `dir` gets a
   granting reply, the retry at `dir` - and at any path below it - is allowed, by
   the new approval alone.
   */
  lemma RetryAllowed(
    i: Image, p: PermissionRequest, dir: string, path: string, reply: string, approvalID: string, now: int)
    requires p.patterns == [Minted(dir)] && Grants(reply)
    requires Eligible(i.approvals.mem, p.workspaceID, path) == {} && Covers(dir, path)
    ensures Eligible(AfterReply(i, p, reply, approvalID, now).approvals.mem, p.workspaceID, path) == {approvalID}
  {
    var after := AfterReply(i, p, reply, approvalID, now).approvals.mem;
    MintedCovers(dir, path);
    forall id | id in Eligible(after, p.workspaceID, path) ensures id == approvalID {
      assert id == approvalID || id in Eligible(i.approvals.mem, p.workspaceID, path);
    }
  }

  /** ... and that retry spends a "once" grant back to the refusing state, but leaves an "always" grant in place. */
  lemma RetrySpends(
    i: Image, p: PermissionRequest, dir: string, path: string, reply: string, approvalID: string, now: int)
    requires p.patterns == [Minted(dir)] && Grants(reply)
    requires Eligible(i.approvals.mem, p.workspaceID, path) == {} && Covers(dir, path)
    ensures
      var granted := AfterReply(i, p, reply, approvalID, now);
      var retried := Mutate(granted, Consume(p.workspaceID, path, approvalID));
      if reply == "once" then Eligible(retried.approvals.mem, p.workspaceID, path) == {} else retried == granted
  {
    RetryAllowed(i, p, dir, path, reply, approvalID, now);
    var granted := AfterReply(i, p, reply, approvalID, now);
    var retried := Mutate(granted, Consume(p.workspaceID, path, approvalID));
    assert approvalID in Eligible(granted.approvals.mem, p.workspaceID, path);
    forall id | id in Eligible(retried.approvals.mem, p.workspaceID, path) ensures reply != "once" {
      assert id in Eligible(granted.approvals.mem, p.workspaceID, path);
    }
  }
}
