/** The search for a binding to reuse: what it finds, and what it leaves when it finds nothing. */
module ReuseSearch {
  import opened Wrappers
  import opened Leases
  import opened Providers
  import opened RuntimeState
  import opened Tunnels
  import opened Lifecycle

  // ---------- One round ----------

  /** Every binding other than `b` is still stored and its lease record is the same. */
  ghost predicate KeepsOthers(w: World, w': World, b: Binding) {
    forall c :: c in w.bindings && c != b ==>
      c in w'.bindings && c.host in w.leases && c.host in w'.leases && w'.leases[c.host] == w.leases[c.host]
  }

  lemma ResolveKeepsOthers(w: World, request: HostRequest, b: Binding)
    requires Agreement(w) && b in w.bindings
    ensures KeepsOthers(w, w.(leases := Resolve(w.config, w.leases, request, b.workspaceID).leases), b)
  {
    ResolveSound(w.config, w.leases, request, b.workspaceID);
  }

  lemma ReleaseKeepsOthers(w: World, b: Binding, host: string)
    requires Agreement(w) && b in w.bindings
    ensures KeepsOthers(w, w.(leases := Released(w.leases, host, b.workspaceID)), b)
  {
    forall c | c in w.bindings && c != b
      ensures c.workspaceID != b.workspaceID && HeldBy(w.leases, c.host, c.workspaceID) {
      if c.workspaceID == b.workspaceID {
        SameIDSameBinding(w.bindings, b, c);
      }
    }
  }

  lemma ForgetKeepsOthers(w: World, b: Binding)
    requires Agreement(w) && b in w.bindings
    ensures KeepsOthers(w, Forget(w, b), b)
    ensures forall c :: c in Forget(w, b).bindings <==> c in w.bindings && c != b
  {
    DeletedSpec(w.bindings, b.workspaceID);
    ReleaseKeepsOthers(w, b, b.host);
    forall c | c in w.bindings && c != b ensures c.workspaceID != b.workspaceID {
      if c.workspaceID == b.workspaceID {
        SameIDSameBinding(w.bindings, b, c);
      }
    }
  }

  /** A round that hands nothing over changes nothing but its own binding and leases. */
  lemma FruitlessRoundFrame(
    w: World, b: Binding, provider: string, host: Option<string>, recovery: Recovery, session: Option<string>)
    requires Agreement(w) && b in w.bindings
    requires DoReuse(w, b, provider, host, recovery, session).handed.None?
    ensures
      var after := DoReuse(w, b, provider, host, recovery, session).world;
      && after.config == w.config && KeepsOthers(w, after, b)
      && (forall c :: c in after.bindings ==> c in w.bindings)
      && (b.provider != provider ==> after == w)
  {
    if b.provider == provider {
      var request := ReuseRequest(b, provider, host);
      var r := Resolve(w.config, w.leases, request, b.workspaceID);
      var w1 := w.(leases := r.leases);
      ResolveKeepsOthers(w, request, b);
      ResolveKeepsLeased(w, request, b.workspaceID, w.bindings);
      if r.result.Ok? && r.result.value.name != b.host {
        ReleaseKeepsOthers(w1, b, r.result.value.name);
      } else {
        ForgetKeepsOthers(w1, b);
      }
    } else {
      assert KeepsOthers(w, w, b);
    }
  }

  /** The binding's host name means that host, or nothing, in the provider's configuration. */
  predicate Unambiguous(config: Config, b: Binding) {
    && b.host != ""
    && (b.provider in config.providers ==>
          forall h :: h in config.providers[b.provider].hosts && AnswersTo(h, b.host) ==> h.name == b.host)
  }

  /** With no host asked for, a round that hands nothing over has forgotten the binding it looked at. */
  lemma FruitlessRoundForgets(w: World, b: Binding, recovery: Recovery, session: Option<string>)
    requires Agreement(w) && b in w.bindings && Unambiguous(w.config, b)
    requires DoReuse(w, b, b.provider, None, recovery, session).handed.None?
    ensures b !in DoReuse(w, b, b.provider, None, recovery, session).world.bindings
  {
    ResolveSound(w.config, w.leases, OwnHost(b), b.workspaceID);
    DeletedSpec(w.bindings, b.workspaceID);
  }

  /**
   The round leaves the binding alone: another provider's, or the host asked for can be had and is a
   different one.
   */
  predicate Spared(w: World, b: Binding, provider: string, host: Option<string>) {
    || b.provider != provider
    || var r := Resolve(w.config, w.leases, ReuseRequest(b, provider, host), b.workspaceID);
       r.result.Ok? && r.result.value.name != b.host
  }

  /**
   Exactly which bindings a round that hands nothing over forgets; asked for a busy host it forgets
   bindings on any host.
   */
  lemma FruitlessRoundSparesIff(
    w: World, b: Binding, provider: string, host: Option<string>, recovery: Recovery, session: Option<string>)
    requires Agreement(w) && b in w.bindings
    requires DoReuse(w, b, provider, host, recovery, session).handed.None?
    ensures b in DoReuse(w, b, provider, host, recovery, session).world.bindings <==> Spared(w, b, provider, host)
  {
    DeletedSpec(w.bindings, b.workspaceID);
  }

  /**
   What a round that hands nothing over leaves of its workspace.  A binding it
   spares keeps its lease, and a different host it was offered is given back; one
   it forgets leaves no lease on its host.
   */
  lemma FruitlessRoundLeases(
    w: World, b: Binding, provider: string, host: Option<string>, recovery: Recovery, session: Option<string>)
    requires Agreement(w) && b in w.bindings && b.provider == provider
    requires DoReuse(w, b, provider, host, recovery, session).handed.None?
    ensures
      var after := DoReuse(w, b, provider, host, recovery, session).world;
      var r := Resolve(
        w.config, w.leases, HostRequest(provider, if host.Some? then host else Some(b.host), []), b.workspaceID);
      if r.result.Ok? && r.result.value.name != b.host then
        && !HeldBy(after.leases, r.result.value.name, b.workspaceID) && HeldBy(after.leases, b.host, b.workspaceID)
        && after.bindings == w.bindings
      else
        !HeldBy(after.leases, b.host, b.workspaceID) && !Bound(after.bindings, b.workspaceID)
  {
    var r := Resolve(w.config, w.leases, ReuseRequest(b, provider, host), b.workspaceID);
    ResolveSound(w.config, w.leases, ReuseRequest(b, provider, host), b.workspaceID);
    ForgetLeavesNothing(w.(leases := r.leases), b);
  }

  /**
   A binding with a session whose host is the one selected and whose tunnel is recovered is handed
   over with that session.
   */
  lemma RoundKeepsSession(
    w: World, b: Binding, provider: string, host: Option<string>, recovery: Recovery, session: Option<string>)
    requires Live(b) && b.provider == provider && (recovery.StillHealthy? || recovery.Reopened?)
    requires
      var r := Resolve(
        w.config, w.leases, HostRequest(provider, if host.Some? then host else Some(b.host), []), b.workspaceID);
      r.result.Ok? && r.result.value.name == b.host
    ensures
      var handed := DoReuse(w, b, provider, host, recovery, session).handed;
      if b.sessionID != None && b.sessionID != Some("") then
        handed.Some? && handed.value.sessionID == b.sessionID
      else
        (handed.Some? <==> session.Some?) && (handed.Some? ==> handed.value.sessionID == session)
  {
    ReusedKeepsSession(b, recovery, session);
  }

  /** `name` is the name of a host the search may use: one matching the host asked for, or the binding's own. */
  ghost predicate IsCandidate(config: Config, provider: string, host: Option<string>, name: string) {
    && provider in config.providers
    && exists h ::
          h in Candidates(config, HostRequest(provider, if host.Some? then host else Some(name), [])) && h.name == name
  }

  /** A round that hands a binding over took it from a candidate host, stored it and holds its lease. */
  lemma FruitfulRound(
    w: World, b: Binding, provider: string, host: Option<string>, recovery: Recovery, session: Option<string>)
    requires Agreement(w) && b in w.bindings
    requires DoReuse(w, b, provider, host, recovery, session).handed.Some?
    ensures
      var e := DoReuse(w, b, provider, host, recovery, session);
      var found := e.handed.value;
      && found in e.world.bindings && HeldBy(e.world.leases, found.host, found.workspaceID)
      && found.workspaceID == b.workspaceID && found.host == b.host && found.provider == provider
      && IsCandidate(w.config, provider, host, b.host)
  {
    var request := ReuseRequest(b, provider, host);
    ResolveSound(w.config, w.leases, request, b.workspaceID);
    StoredSpec(w.bindings, DoReuse(w, b, provider, host, recovery, session).handed.value);
    var h := Resolve(w.config, w.leases, request, b.workspaceID).result.value;
    assert h in Candidates(w.config, request) && h.name == b.host;
  }

  // ---------- The whole search ----------

  /** The operations of a search that has looked at a prefix of the stored bindings. */
  ghost predicate Rounds(bs: seq<Binding>, ops: seq<Operation>, provider: string, host: Option<string>) {
    && |ops| <= |bs|
    && forall k ::
          0 <= k < |ops| ==> ops[k].Reuse? && ops[k].b == bs[k] && ops[k].provider == provider && ops[k].host == host
  }

  ghost predicate FruitlessAt(w: World, ops: seq<Operation>, k: nat)
    requires k < |ops|
  {
    Apply(Run(w, ops[..k]), ops[k]).handed.None?
  }

  ghost predicate Fruitless(w: World, ops: seq<Operation>) {
    forall k :: 0 <= k < |ops| ==> FruitlessAt(w, ops, k)
  }

  /** Where a fruitless search stands after its first `n` rounds. */
  ghost predicate SearchedSoFar(w: World, v: World, n: nat, provider: string, host: Option<string>) {
    && n <= |w.bindings| && Agreement(v) && v.config == w.config
    && (forall c :: c in v.bindings ==> c in w.bindings)
    && (forall k :: n <= k < |w.bindings| ==> w.bindings[k] in v.bindings)
    && (forall c :: c in w.bindings && c.provider != provider ==>
          c in v.bindings && c.host in w.leases && c.host in v.leases && v.leases[c.host] == w.leases[c.host])
    && (host == None ==>
          (forall k :: 0 <= k < n && w.bindings[k].provider == provider && Unambiguous(w.config, w.bindings[k]) ==>
             w.bindings[k] !in v.bindings))
  }

  lemma SearchedAdvances(
    w: World, v: World, n: nat, provider: string, host: Option<string>, recovery: Recovery, session: Option<string>)
    requires Agreement(w) && n < |w.bindings| && SearchedSoFar(w, v, n, provider, host)
    requires DoReuse(v, w.bindings[n], provider, host, recovery, session).handed.None?
    ensures SearchedSoFar(w, DoReuse(v, w.bindings[n], provider, host, recovery, session).world, n + 1, provider, host)
  {
    var b := w.bindings[n];
    var after := DoReuse(v, b, provider, host, recovery, session).world;
    assert b in v.bindings;
    FruitlessRoundFrame(v, b, provider, host, recovery, session);
    ReuseKeepsAgreement(v, b, provider, host, recovery, session);
    if host == None && b.provider == provider && Unambiguous(w.config, b) {
      FruitlessRoundForgets(v, b, recovery, session);
    }
    forall k | n + 1 <= k < |w.bindings| ensures w.bindings[k] in after.bindings {
      assert w.bindings[k] != b;
    }
  }

  lemma FruitlessFront(w: World, ops: seq<Operation>, provider: string, host: Option<string>)
    requires Rounds(w.bindings, ops, provider, host) && Fruitless(w, ops) && ops != []
    ensures
      var n := |ops| - 1;
      && Rounds(w.bindings, ops[..n], provider, host) && Fruitless(w, ops[..n])
      && DoReuse(Run(w, ops[..n]), w.bindings[n], provider, host, ops[n].recovery, ops[n].session).handed.None?
  {
    var n := |ops| - 1;
    assert FruitlessAt(w, ops, n);
    forall k | 0 <= k < n ensures FruitlessAt(w, ops[..n], k) {
      assert FruitlessAt(w, ops, k) && ops[..n][..k] == ops[..k];
    }
  }

  lemma RunReuse(w: World, ops: seq<Operation>, op: Operation)
    requires op.Reuse? && Legal(w, ops) && op.b in Run(w, ops).bindings
    ensures Legal(w, ops + [op])
    ensures Run(w, ops + [op]) == DoReuse(Run(w, ops), op.b, op.provider, op.host, op.recovery, op.session).world
  {
    RunGrows(w, ops, op);
    LegalGrows(w, ops, op);
  }

  lemma {:induction false} FruitlessSearch(w: World, ops: seq<Operation>, provider: string, host: Option<string>)
    requires Agreement(w) && Rounds(w.bindings, ops, provider, host) && Fruitless(w, ops)
    ensures Legal(w, ops) && SearchedSoFar(w, Run(w, ops), |ops|, provider, host)
  {
    if ops == [] {
      assert forall c :: c in w.bindings ==> HeldBy(w.leases, c.host, c.workspaceID);
    } else {
      var n := |ops| - 1;
      var front, last := ops[..n], ops[n];
      FruitlessFront(w, ops, provider, host);
      FruitlessSearch(w, front, provider, host);
      SearchedAdvances(w, Run(w, front), n, provider, host, last.recovery, last.session);
      RunReuse(w, front, last);
      assert ops == front + [last];
    }
  }

  /** After a fruitless search a binding is still stored if and only if its own round, at its turn, left it alone. */
  lemma {:induction false} FruitlessSearchSparesIff(
    w: World, ops: seq<Operation>, provider: string, host: Option<string>, k: nat)
    requires Agreement(w) && Rounds(w.bindings, ops, provider, host) && Fruitless(w, ops) && k < |ops|
    ensures w.bindings[k] in Run(w, ops).bindings <==> Spared(Run(w, ops[..k]), w.bindings[k], provider, host)
    decreases |ops|
  {
    var front := ops[..|ops| - 1];
    if k == |front| {
      LastSparesIff(w, ops, provider, host);
    } else {
      FruitlessFront(w, ops, provider, host);
      FruitlessSearchSparesIff(w, front, provider, host, k);
      assert front[..k] == ops[..k];
      EarlierStays(w, ops, provider, host, w.bindings[k]);
    }
  }

  lemma LastSparesIff(w: World, ops: seq<Operation>, provider: string, host: Option<string>)
    requires Agreement(w) && Rounds(w.bindings, ops, provider, host) && Fruitless(w, ops) && ops != []
    ensures
      var n := |ops| - 1;
      w.bindings[n] in Run(w, ops).bindings <==> Spared(Run(w, ops[..n]), w.bindings[n], provider, host)
  {
    var n := |ops| - 1;
    FruitlessFront(w, ops, provider, host);
    FruitlessSearch(w, ops[..n], provider, host);
    FruitlessRoundSparesIff(Run(w, ops[..n]), w.bindings[n], provider, host, ops[n].recovery, ops[n].session);
  }

  lemma EarlierStays(w: World, ops: seq<Operation>, provider: string, host: Option<string>, c: Binding)
    requires Agreement(w) && Rounds(w.bindings, ops, provider, host) && Fruitless(w, ops) && ops != []
    requires c != w.bindings[|ops| - 1]
    ensures c in Run(w, ops).bindings <==> c in Run(w, ops[..|ops| - 1]).bindings
  {
    var n := |ops| - 1;
    FruitlessFront(w, ops, provider, host);
    FruitlessSearch(w, ops[..n], provider, host);
    OthersStay(Run(w, ops[..n]), w.bindings[n], c, provider, host, ops[n].recovery, ops[n].session);
  }

  lemma OthersStay(
    v: World, b: Binding, c: Binding, provider: string, host: Option<string>, recovery: Recovery,
    session: Option<string>)
    requires Agreement(v) && b in v.bindings && b != c
    requires DoReuse(v, b, provider, host, recovery, session).handed.None?
    ensures c in DoReuse(v, b, provider, host, recovery, session).world.bindings <==> c in v.bindings
  {
    FruitlessRoundFrame(v, b, provider, host, recovery, session);
  }

  /**
   Nothing found, and no particular host asked for: no binding of that provider
   is left (host names being unambiguous), and every other provider's bindings
   and leases are untouched.
   */
  lemma NothingReusableMeansNothingLeft(w: World, ops: seq<Operation>, provider: string)
    requires Agreement(w) && Rounds(w.bindings, ops, provider, None) && |ops| == |w.bindings| && Fruitless(w, ops)
    requires forall b :: b in w.bindings && b.provider == provider ==> Unambiguous(w.config, b)
    ensures forall c :: c in Run(w, ops).bindings <==> c in w.bindings && c.provider != provider
    ensures forall c :: c in Run(w, ops).bindings ==>
      c.host in w.leases && c.host in Run(w, ops).leases && Run(w, ops).leases[c.host] == w.leases[c.host]
  {
    FruitlessSearch(w, ops, provider, None);
    forall c | c in w.bindings && c.provider == provider ensures c !in Run(w, ops).bindings {
      var k :| 0 <= k < |w.bindings| && w.bindings[k] == c;
    }
  }

  /** A binding found has the asked provider, a host among the request's candidates, is stored, and holds its lease. */
  lemma ReusedIsLeasedCandidate(
    w: World, front: seq<Operation>, last: Operation, provider: string, host: Option<string>, found: Binding)
    requires Agreement(w) && Rounds(w.bindings, front + [last], provider, host) && Fruitless(w, front)
    requires Apply(Run(w, front), last).handed == Some(found)
    ensures Legal(w, front + [last]) && Agreement(Run(w, front + [last]))
    ensures found in Run(w, front + [last]).bindings
    ensures HeldBy(Run(w, front + [last]).leases, found.host, found.workspaceID)
    ensures found.provider == provider && IsCandidate(w.config, provider, host, found.host)
  {
    var v := Run(w, front);
    var ops := front + [last];
    assert ops[|front|] == last && forall k :: 0 <= k < |front| ==> ops[k] == front[k];
    FruitlessSearch(w, front, provider, host);
    assert w.bindings[|front|] in v.bindings;
    RunGrows(w, front, last);
    LegalGrows(w, front, last);
    FruitfulRound(v, last.b, provider, host, last.recovery, last.session);
    ReuseKeepsAgreement(v, last.b, provider, host, last.recovery, last.session);
  }
}
