/**
 The stub's `State`: four in-memory maps, three of them mirrored in a directory.

 A directory is a map from entry name to file contents, and a file either
 decodes to the value that was encoded into it or does not decode at all; that
 is the whole assumption about the JSON codec and the file system.
 */
module StubState {
  import opened Wrappers
  import opened Patterns

  datatype Workspace = Workspace(
    id: string, kind: string, name: string, projectID: string, provider: string,
    host: string, status: string, createdAt: int, extra: map<string, string>)

  datatype Session = Session(
    id: string, workspaceID: string, title: string, directory: string,
    status: string, createdAt: int, updatedAt: int)

  datatype PermissionRequest = PermissionRequest(
    id: string, sessionID: string, workspaceID: string, permission: string,
    patterns: seq<string>, operation: string, cwd: string, status: string, createdAt: int)

  datatype Approval = Approval(
    id: string, workspaceID: string, host: string, permission: string,
    pattern: string, mode: string, createdAt: int)

  datatype File<+T> = Torn | Encoded(value: T)

  /** A map in memory and the directory that mirrors it. */
  datatype Table<T> = Table(mem: map<string, T>, disk: map<string, File<T>>)

  /** A name that stays inside the directory it is joined to. */
  predicate SegmentID(name: string) {
    name != "" && name != "." && name != ".." && '/' !in name
  }

  function IdOfWorkspace(ws: Workspace): string { ws.id }

  function IdOfSession(se: Session): string { se.id }

  function IdOfApproval(a: Approval): string { a.id }

  /** A workspace's directory bears its identifier. */
  function Itself(id: string): string { id }

  function JsonName(id: string): string {
    id + ".json"
  }

  lemma PlainJsonName(id: string)
    ensures '/' !in id ==> SegmentID(JsonName(id))
  {
    assert |JsonName(id)| > 4;
  }

  lemma JsonNameInjective(a: string, b: string)
    ensures JsonName(a) == JsonName(b) ==> a == b
  {
    assert JsonName(a)[..|JsonName(a)| - 5] == a && JsonName(b)[..|JsonName(b)| - 5] == b;
  }

  // ---------- Matching approvals ----------

  /** The identifiers of the approvals that let `path` through in a workspace. */
  ghost function Eligible(approvals: map<string, Approval>, workspaceID: string, path: string): set<string> {
    set id | id in approvals && approvals[id].workspaceID == workspaceID && MatchPattern(approvals[id].pattern, path)
  }

  lemma NoneEligible(approvals: map<string, Approval>, workspaceID: string, path: string)
    requires Eligible(approvals, workspaceID, path) == {}
    ensures forall id :: id in approvals && approvals[id].workspaceID == workspaceID ==>
      !MatchPattern(approvals[id].pattern, path)
  {
    forall id | id in approvals && approvals[id].workspaceID == workspaceID
      ensures !MatchPattern(approvals[id].pattern, path)
    {
      assert id !in Eligible(approvals, workspaceID, path);
    }
  }

  // ---------- The whole state as a value, and what each mutator does to it ----------

  datatype Image = Image(
    workspaces: Table<Workspace>, sessions: Table<Session>, approvals: Table<Approval>,
    permissions: map<string, PermissionRequest>)

  datatype Mutation =
    | PutWorkspace(ws: Workspace)
    | DropWorkspace(id: string)
    | PutSession(se: Session)
    | DropSession(id: string)
    | PutPermission(p: PermissionRequest)
    | PutApproval(a: Approval)
    | Consume(workspaceID: string, path: string, pick: string)

  function Put<T>(t: Table<T>, id: string, entry: string, value: T): Table<T> {
    Table(t.mem[id := value], t.disk[entry := Encoded(value)])
  }

  function Drop<T>(t: Table<T>, id: string, entry: string): Table<T> {
    Table(t.mem - {id}, t.disk - {entry})
  }

  /**
   The effect of one completed mutator.  `pick` is the approval the iteration
   over the Go map happened to stop at; a pick that does not match changes nothing.
   */
  ghost function Mutate(i: Image, m: Mutation): Image {
    match m
    case PutWorkspace(ws) => i.(workspaces := Put(i.workspaces, ws.id, ws.id, ws))
    case DropWorkspace(id) => i.(workspaces := Drop(i.workspaces, id, id))
    case PutSession(se) => i.(sessions := Put(i.sessions, se.id, JsonName(se.id), se))
    case DropSession(id) => i.(sessions := Drop(i.sessions, id, JsonName(id)))
    case PutPermission(p) => i.(permissions := i.permissions[p.id := p])
    case PutApproval(a) => i.(approvals := Put(i.approvals, a.id, JsonName(a.id), a))
    case Consume(workspaceID, path, pick) =>
      if pick in Eligible(i.approvals.mem, workspaceID, path) && i.approvals.mem[pick].mode == "once" then
        i.(approvals := Drop(i.approvals, pick, JsonName(pick)))
      else
        i
  }

  ghost function Replay(i: Image, ms: seq<Mutation>): Image {
    if ms == [] then i else Mutate(Replay(i, ms[..|ms| - 1]), ms[|ms| - 1])
  }

  /** The four maps without the directories. */
  function Maps(i: Image)
    : (map<string, Workspace>, map<string, Session>, map<string, Approval>, map<string, PermissionRequest>)
  {
    (i.workspaces.mem, i.sessions.mem, i.approvals.mem, i.permissions)
  }

  function EmptyImage(): Image {
    Image(Table(map[], map[]), Table(map[], map[]), Table(map[], map[]), map[])
  }

  // ---------- Loading a directory ----------

  /**
   `mem` is what reading the entries `done` of `disk` can leave on top of
   `before`: every decodable file's identifier is present with the contents of
   some file of that identifier, everything else is as before.
   */
  ghost predicate LoadedFrom<T(!new)>(
    mem: map<string, T>, before: map<string, T>, disk: map<string, File<T>>, done: set<string>, idOf: T -> string)
    requires done <= disk.Keys
  {
    && (forall name :: name in done && disk[name].Encoded? ==> idOf(disk[name].value) in mem)
    && (forall id :: id in before ==> id in mem)
    && (forall id :: id in mem ==>
          || (id in before && mem[id] == before[id])
          || exists name :: name in done && disk[name] == Encoded(mem[id]) && idOf(mem[id]) == id)
    && (forall id :: id in mem && id in before && mem[id] == before[id] ==>
          || (exists name :: name in done && disk[name] == Encoded(mem[id]) && idOf(mem[id]) == id)
          || forall name :: name in done && disk[name].Encoded? ==> idOf(disk[name].value) != id)
  }

  /** The read-decode-insert loop that all three directories share. */
  method LoadEntries<T(!new)>(before: map<string, T>, disk: map<string, File<T>>, idOf: T -> string)
    returns (mem: map<string, T>)
    ensures LoadedFrom(mem, before, disk, disk.Keys, idOf)
  {
    mem := before;
    var entries := disk.Keys;
    while entries != {}
      invariant entries <= disk.Keys
      invariant LoadedFrom(mem, before, disk, disk.Keys - entries, idOf)
      decreases entries
    {
      var name :| name in entries;
      ghost var done, was := disk.Keys - entries, mem;
      entries := entries - {name};
      assert disk.Keys - entries == done + {name};
      match disk[name]
      case Torn =>
      case Encoded(value) =>
        mem := mem[idOf(value) := value];
        assert disk[name] == Encoded(mem[idOf(value)]);
    }
    assert disk.Keys - entries == disk.Keys;
  }

  // ---------- Agreement of memory and disk ----------

  /** Memory and directory hold the same values, each under its own identifier. */
  ghost predicate Agree<T(!new)>(t: Table<T>, nameOf: string -> string, idOf: T -> string) {
    && (forall id :: id in t.mem ==> idOf(t.mem[id]) == id)
    && (forall id :: id in t.mem ==> nameOf(id) in t.disk && t.disk[nameOf(id)] == Encoded(t.mem[id]))
    && (forall name :: name in t.disk ==>
          t.disk[name].Encoded? && idOf(t.disk[name].value) in t.mem && nameOf(idOf(t.disk[name].value)) == name)
  }

  ghost predicate Injective(f: string -> string) {
    forall a, b :: f(a) == f(b) ==> a == b
  }

  lemma JsonNamesInjective()
    ensures Injective(JsonName)
  {
    forall a, b | JsonName(a) == JsonName(b) ensures a == b {
      JsonNameInjective(a, b);
    }
  }

  lemma PutAgrees<T(!new)>(t: Table<T>, value: T, nameOf: string -> string, idOf: T -> string)
    requires Agree(t, nameOf, idOf) && Injective(nameOf)
    ensures Agree(Put(t, idOf(value), nameOf(idOf(value)), value), nameOf, idOf)
  {
    var u := Put(t, idOf(value), nameOf(idOf(value)), value);
    forall name | name in u.disk ensures idOf(u.disk[name].value) in u.mem && nameOf(idOf(u.disk[name].value)) == name {
      if name != nameOf(idOf(value)) {
        assert name in t.disk;
      }
    }
  }

  lemma DropAgrees<T(!new)>(t: Table<T>, id: string, nameOf: string -> string, idOf: T -> string)
    requires Agree(t, nameOf, idOf)
    requires forall k :: k in t.mem && nameOf(k) == nameOf(id) ==> k == id
    ensures Agree(Drop(t, id, nameOf(id)), nameOf, idOf)
  {
    var u := Drop(t, id, nameOf(id));
    forall k | k in u.mem ensures nameOf(k) in u.disk && u.disk[nameOf(k)] == Encoded(u.mem[k]) {
      assert k in t.mem && nameOf(k) != nameOf(id);
    }
    forall name | name in u.disk
      ensures u.disk[name].Encoded? && idOf(u.disk[name].value) in u.mem && nameOf(idOf(u.disk[name].value)) == name
    {
      assert name in t.disk && t.disk[name] == u.disk[name];
    }
  }

  /** A fresh load of an agreeing directory rebuilds the memory map, in whatever order entries are read. */
  lemma LoadRestores<T(!new)>(mem: map<string, T>, t: Table<T>, nameOf: string -> string, idOf: T -> string)
    requires Agree(t, nameOf, idOf)
    requires LoadedFrom(mem, map[], t.disk, t.disk.Keys, idOf)
    ensures mem == t.mem
  {
    forall id | id in t.mem ensures id in mem {
      assert nameOf(id) in t.disk.Keys;
    }
    forall id | id in mem ensures id in t.mem && mem[id] == t.mem[id] {
      var name :| name in t.disk.Keys && t.disk[name] == Encoded(mem[id]) && idOf(mem[id]) == id;
    }
  }

  ghost predicate InStep(i: Image) {
    && Agree(i.workspaces, Itself, IdOfWorkspace)
    && Agree(i.sessions, JsonName, IdOfSession)
    && Agree(i.approvals, JsonName, IdOfApproval)
  }

  lemma WorkspacesStayInStep(i: Image, m: Mutation)
    requires Agree(i.workspaces, Itself, IdOfWorkspace)
    ensures Agree(Mutate(i, m).workspaces, Itself, IdOfWorkspace)
  {
    if m.PutWorkspace? {
      PutAgrees(i.workspaces, m.ws, Itself, IdOfWorkspace);
    } else if m.DropWorkspace? {
      DropAgrees(i.workspaces, m.id, Itself, IdOfWorkspace);
    }
  }

  lemma SessionsStayInStep(i: Image, m: Mutation)
    requires Agree(i.sessions, JsonName, IdOfSession)
    ensures Agree(Mutate(i, m).sessions, JsonName, IdOfSession)
  {
    JsonNamesInjective();
    if m.PutSession? {
      PutAgrees(i.sessions, m.se, JsonName, IdOfSession);
    } else if m.DropSession? {
      DropAgrees(i.sessions, m.id, JsonName, IdOfSession);
    }
  }

  lemma ApprovalsStayInStep(i: Image, m: Mutation)
    requires Agree(i.approvals, JsonName, IdOfApproval)
    ensures Agree(Mutate(i, m).approvals, JsonName, IdOfApproval)
  {
    JsonNamesInjective();
    if m.PutApproval? {
      PutAgrees(i.approvals, m.a, JsonName, IdOfApproval);
    } else if m.Consume? {
      DropAgrees(i.approvals, m.pick, JsonName, IdOfApproval);
    }
  }

  lemma MutateKeepsInStep(i: Image, m: Mutation)
    requires InStep(i)
    ensures InStep(Mutate(i, m))
  {
    WorkspacesStayInStep(i, m);
    SessionsStayInStep(i, m);
    ApprovalsStayInStep(i, m);
  }

  /** Memory and disk agree after any sequence of completed mutators. */
  lemma {:induction false} ReplayKeepsInStep(i: Image, ms: seq<Mutation>)
    requires InStep(i)
    ensures InStep(Replay(i, ms))
  {
    if ms != [] {
      ReplayKeepsInStep(i, ms[..|ms| - 1]);
      MutateKeepsInStep(Replay(i, ms[..|ms| - 1]), ms[|ms| - 1]);
    }
  }

  /**
   Restart: whatever mutators completed before, a fresh `State` over the same
   root loads exactly the workspaces, sessions and approvals that were in memory.
   */
  lemma RestartRestores(
    ms: seq<Mutation>, workspaces: map<string, Workspace>, sessions: map<string, Session>,
    approvals: map<string, Approval>)
    requires
      var i := Replay(EmptyImage(), ms);
      && LoadedFrom(workspaces, map[], i.workspaces.disk, i.workspaces.disk.Keys, IdOfWorkspace)
      && LoadedFrom(sessions, map[], i.sessions.disk, i.sessions.disk.Keys, IdOfSession)
      && LoadedFrom(approvals, map[], i.approvals.disk, i.approvals.disk.Keys, IdOfApproval)
    ensures
      var i := Replay(EmptyImage(), ms);
      workspaces == i.workspaces.mem && sessions == i.sessions.mem && approvals == i.approvals.mem
  {
    var i := Replay(EmptyImage(), ms);
    ReplayKeepsInStep(EmptyImage(), ms);
    LoadRestores(workspaces, i.workspaces, Itself, IdOfWorkspace);
    LoadRestores(sessions, i.sessions, JsonName, IdOfSession);
    LoadRestores(approvals, i.approvals, JsonName, IdOfApproval);
  }

  // ---------- The class ----------

  /** The state directory on disk; it outlives every `State` object. */
  class StateDir {
    var workspaces: map<string, File<Workspace>>
    var sessions: map<string, File<Session>>
    var approvals: map<string, File<Approval>>

    constructor ()
      ensures workspaces == map[] && sessions == map[] && approvals == map[]
    {
      workspaces, sessions, approvals := map[], map[], map[];
    }

    /** A path that leaves the directory it is joined to: what it does to which file is not followed. */
    method TouchElsewhere()
      modifies this
    {
      workspaces, sessions, approvals := *, *, *;
    }
  }

  class State {
    const root: StateDir
    var workspaces: map<string, Workspace>
    var sessions: map<string, Session>
    var permissions: map<string, PermissionRequest>
    var approvals: map<string, Approval>

    constructor (root: StateDir)
      ensures this.root == root
      ensures workspaces == map[] && sessions == map[] && permissions == map[] && approvals == map[]
    {
      this.root := root;
      workspaces, sessions, permissions, approvals := map[], map[], map[], map[];
    }

    ghost function Snapshot(): Image
      reads this, root
    {
      Image(Table(workspaces, root.workspaces), Table(sessions, root.sessions),
                  Table(approvals, root.approvals), permissions)
    }

    method Init()
      modifies this
      ensures LoadedFrom(workspaces, old(workspaces), root.workspaces, root.workspaces.Keys, IdOfWorkspace)
      ensures LoadedFrom(sessions, old(sessions), root.sessions, root.sessions.Keys, IdOfSession)
      ensures LoadedFrom(approvals, old(approvals), root.approvals, root.approvals.Keys, IdOfApproval)
      ensures permissions == old(permissions)
    {
      workspaces := LoadEntries(workspaces, root.workspaces, IdOfWorkspace);
      sessions := LoadEntries(sessions, root.sessions, IdOfSession);
      approvals := LoadEntries(approvals, root.approvals, IdOfApproval);
    }

    /** A process that starts over the same root has the same three maps, and no permission requests. */
    method StartAgain() returns (next: State)
      requires InStep(Snapshot())
      ensures fresh(next) && next.root == root && Snapshot() == old(Snapshot())
      ensures next.Snapshot() == Snapshot().(permissions := map[])
    {
      next := new State(root);
      next.Init();
      LoadRestores(next.workspaces, Snapshot().workspaces, Itself, IdOfWorkspace);
      LoadRestores(next.sessions, Snapshot().sessions, JsonName, IdOfSession);
      LoadRestores(next.approvals, Snapshot().approvals, JsonName, IdOfApproval);
    }

    method CreateWorkspace(ws: Workspace)
      modifies this, root
      ensures Maps(Snapshot()) == Maps(Mutate(old(Snapshot()), PutWorkspace(ws)))
      ensures SegmentID(ws.id) ==> Snapshot() == Mutate(old(Snapshot()), PutWorkspace(ws))
      ensures workspaces == old(workspaces)[ws.id := ws]
      ensures sessions == old(sessions) && approvals == old(approvals) && permissions == old(permissions)
      ensures ws.id != "" && ws.id != "." && ws.id != ".." && '/' !in ws.id ==>
        && root.workspaces == old(root.workspaces)[ws.id := Encoded(ws)]
        && root.sessions == old(root.sessions) && root.approvals == old(root.approvals)
    {
      workspaces := workspaces[ws.id := ws];
      if SegmentID(ws.id) {
        root.workspaces := root.workspaces[ws.id := Encoded(ws)];
      } else {
        root.TouchElsewhere();
      }
    }

    method DeleteWorkspace(id: string)
      modifies this, root
      ensures Maps(Snapshot()) == Maps(Mutate(old(Snapshot()), DropWorkspace(id)))
      ensures SegmentID(id) ==> Snapshot() == Mutate(old(Snapshot()), DropWorkspace(id))
      ensures workspaces == old(workspaces) - {id}
      ensures sessions == old(sessions) && approvals == old(approvals) && permissions == old(permissions)
      ensures id != "" && id != "." && id != ".." && '/' !in id ==>
        && root.workspaces == old(root.workspaces) - {id}
        && root.sessions == old(root.sessions) && root.approvals == old(root.approvals)
    {
      workspaces := workspaces - {id};
      if SegmentID(id) {
        root.workspaces := root.workspaces - {id};
      } else {
        root.TouchElsewhere();
      }
    }

    /** Also the body of `UpdateSession`. */
    method CreateSession(se: Session)
      modifies this, root
      ensures Maps(Snapshot()) == Maps(Mutate(old(Snapshot()), PutSession(se)))
      ensures SegmentID(JsonName(se.id)) ==> Snapshot() == Mutate(old(Snapshot()), PutSession(se))
      ensures sessions == old(sessions)[se.id := se]
      ensures workspaces == old(workspaces) && approvals == old(approvals) && permissions == old(permissions)
      ensures '/' !in se.id ==>
        && root.sessions == old(root.sessions)[se.id + ".json" := Encoded(se)]
        && root.workspaces == old(root.workspaces) && root.approvals == old(root.approvals)
    {
      PlainJsonName(se.id);
      sessions := sessions[se.id := se];
      if SegmentID(JsonName(se.id)) {
        root.sessions := root.sessions[JsonName(se.id) := Encoded(se)];
      } else {
        root.TouchElsewhere();
      }
    }

    method DeleteSession(id: string)
      modifies this, root
      ensures Maps(Snapshot()) == Maps(Mutate(old(Snapshot()), DropSession(id)))
      ensures SegmentID(JsonName(id)) ==> Snapshot() == Mutate(old(Snapshot()), DropSession(id))
      ensures sessions == old(sessions) - {id}
      ensures workspaces == old(workspaces) && approvals == old(approvals) && permissions == old(permissions)
      ensures '/' !in id ==>
        && root.sessions == old(root.sessions) - {id + ".json"}
        && root.workspaces == old(root.workspaces) && root.approvals == old(root.approvals)
    {
      PlainJsonName(id);
      sessions := sessions - {id};
      if SegmentID(JsonName(id)) {
        root.sessions := root.sessions - {JsonName(id)};
      } else {
        root.TouchElsewhere();
      }
    }

    /** Also the body of `UpdatePermission`. */
    method CreatePermission(p: PermissionRequest)
      modifies this
      ensures Snapshot() == Mutate(old(Snapshot()), PutPermission(p))
      ensures permissions == old(permissions)[p.id := p]
      ensures workspaces == old(workspaces) && sessions == old(sessions) && approvals == old(approvals)
    {
      permissions := permissions[p.id := p];
    }

    method CreateApproval(a: Approval)
      modifies this, root
      ensures Snapshot() == Mutate(old(Snapshot()), PutApproval(a))
      ensures approvals == old(approvals)[a.id := a]
      ensures root.approvals == old(root.approvals)[a.id + ".json" := Encoded(a)]
      ensures workspaces == old(workspaces) && sessions == old(sessions) && permissions == old(permissions)
      ensures root.workspaces == old(root.workspaces) && root.sessions == old(root.sessions)
    {
      approvals := approvals[a.id := a];
      root.approvals := root.approvals[JsonName(a.id) := Encoded(a)];
    }

    /** Read-only: some matching approval exists exactly when one is returned, whatever the iteration order. */
    method CheckApproval(workspaceID: string, path: string) returns (found: Option<Approval>)
      ensures found.None? <==> Eligible(approvals, workspaceID, path) == {}
      ensures found.Some? ==>
        exists id :: id in Eligible(approvals, workspaceID, path) && found.value == approvals[id]
      ensures found.Some? ==> found.value.workspaceID == workspaceID && MatchPattern(found.value.pattern, path)
      ensures found.None? ==>
        forall id ::
          id in approvals && approvals[id].workspaceID == workspaceID ==> !MatchPattern(approvals[id].pattern, path)
    {
      var rest := approvals.Keys;
      while rest != {}
        invariant rest <= approvals.Keys
        invariant Eligible(approvals, workspaceID, path) <= rest
        decreases rest
      {
        var id :| id in rest;
        rest := rest - {id};
        var a := approvals[id];
        if a.workspaceID == workspaceID && MatchPattern(a.pattern, path) {
          assert id in Eligible(approvals, workspaceID, path);
          return Some(a);
        }
      }
      NoneEligible(approvals, workspaceID, path);
      return None;
    }

    /**
     The verdict does not depend on the iteration order; only which matching
     approval is returned does.  A "once" approval that is returned is gone from
     memory and disk, any other is left in place.
     */
    method ConsumeApproval(workspaceID: string, path: string) returns (found: Option<Approval>)
      modifies this, root
      ensures found.None? <==> Eligible(old(approvals), workspaceID, path) == {}
      ensures found.None? ==> Snapshot() == old(Snapshot())
      ensures found.Some? ==>
        exists id :: && id in Eligible(old(approvals), workspaceID, path)
                     && found.value == old(approvals)[id]
                     && Snapshot() == Mutate(old(Snapshot()), Consume(workspaceID, path, id))
      // The same in full: a "once" approval is gone from map and directory, any other stays, and nothing else changes.
      ensures found.None? ==>
        forall id :: id in old(approvals) && old(approvals)[id].workspaceID == workspaceID ==>
          !MatchPattern(old(approvals)[id].pattern, path)
      ensures found.Some? ==>
        && found.value.workspaceID == workspaceID && MatchPattern(found.value.pattern, path)
        && exists id :: && id in old(approvals) && found.value == old(approvals)[id]
                        && approvals == (if found.value.mode == "once" then old(approvals) - {id} else old(approvals))
                        && root.approvals == (if found.value.mode == "once" then old(root.approvals) - {id + ".json"}
                                              else old(root.approvals))
      ensures workspaces == old(workspaces) && sessions == old(sessions) && permissions == old(permissions)
      ensures root.workspaces == old(root.workspaces) && root.sessions == old(root.sessions)
    {
      ghost var eligible := Eligible(approvals, workspaceID, path);
      var rest := approvals.Keys;
      while rest != {}
        invariant rest <= approvals.Keys
        invariant eligible <= rest
        invariant Snapshot() == old(Snapshot())
        decreases rest
      {
        var id :| id in rest;
        rest := rest - {id};
        var a := approvals[id];
        if a.workspaceID == workspaceID && MatchPattern(a.pattern, path) {
          assert id in eligible;
          if a.mode == "once" {
            approvals := approvals - {id};
            root.approvals := root.approvals - {JsonName(id)};
          }
          assert Snapshot() == Mutate(old(Snapshot()), Consume(workspaceID, path, id));
          return Some(a);
        }
      }
      NoneEligible(old(approvals), workspaceID, path);
      return None;
    }
  }
}
