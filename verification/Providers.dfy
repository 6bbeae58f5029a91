/** Choosing a host for a request, with and without taking its lease. */
module Providers {
  import opened Wrappers
  import opened Leases

  datatype HostConfig = HostConfig(name: string, aliases: seq<string>, sshHost: string, labels: seq<string>)

  datatype ProviderConfig = ProviderConfig(labels: seq<string>, hosts: seq<HostConfig>)

  datatype Config = Config(providers: map<string, ProviderConfig>, leaseMode: LeaseMode)

  datatype HostRequest = HostRequest(provider: string, host: Option<string>, labels: seq<string>)

  // ---------- Candidates ----------

  /** An absent host and an empty one both mean "any host with the labels". */
  predicate NamesHost(request: HostRequest) {
    request.host.Some? && request.host.value != ""
  }

  predicate AnswersTo(host: HostConfig, name: string) {
    host.name == name || host.sshHost == name || name in host.aliases
  }

  predicate HasLabels(host: HostConfig, labels: seq<string>) {
    forall l :: l in labels ==> l in host.labels
  }

  function Candidates(config: Config, request: HostRequest): seq<HostConfig>
    requires request.provider in config.providers
  {
    var provider := config.providers[request.provider];
    if NamesHost(request) then
      Filter(provider.hosts, host => AnswersTo(host, request.host.value))
    else
      Filter(provider.hosts, host => HasLabels(host, provider.labels + request.labels))
  }

  // ---------- Selection ----------

  /** The first candidate, in configuration order, that nobody leases. */
  function FirstFree(candidates: seq<HostConfig>, leases: LeaseMap): Option<HostConfig> {
    if candidates == [] then None
    else if candidates[0].name !in leases then Some(candidates[0])
    else FirstFree(candidates[1..], leases)
  }

  /** The first candidate the workspace itself leases. */
  function FirstHeld(candidates: seq<HostConfig>, leases: LeaseMap, workspaceID: string): Option<HostConfig> {
    if candidates == [] then None
    else if HeldBy(leases, candidates[0].name, workspaceID) then Some(candidates[0])
    else FirstHeld(candidates[1..], leases, workspaceID)
  }

  lemma {:induction false} FirstFreeSpec(candidates: seq<HostConfig>, leases: LeaseMap)
    ensures match FirstFree(candidates, leases)
      case None => forall host :: host in candidates ==> host.name in leases
      case Some(host) => exists i :: && 0 <= i < |candidates| && candidates[i] == host && host.name !in leases
                                     && forall j :: 0 <= j < i ==> candidates[j].name in leases
  {
    if candidates != [] && candidates[0].name in leases {
      FirstFreeSpec(candidates[1..], leases);
      if FirstFree(candidates, leases).Some? {
        var i :| 0 <= i < |candidates| - 1 && candidates[1..][i] == FirstFree(candidates, leases).value
                 && forall j :: 0 <= j < i ==> candidates[1..][j].name in leases;
        assert forall j :: 0 < j < i + 1 ==> candidates[j] == candidates[1..][j - 1];
        assert candidates[i + 1] == FirstFree(candidates, leases).value;
      }
    }
  }

  lemma {:induction false} FirstHeldSpec(candidates: seq<HostConfig>, leases: LeaseMap, workspaceID: string)
    ensures match FirstHeld(candidates, leases, workspaceID)
      case None => forall host :: host in candidates ==> !HeldBy(leases, host.name, workspaceID)
      case Some(host) => host in candidates && HeldBy(leases, host.name, workspaceID)
  {
    if candidates != [] {
      FirstHeldSpec(candidates[1..], leases, workspaceID);
    }
  }

  lemma {:induction false} FirstHeldAt(
    candidates: seq<HostConfig>, leases: LeaseMap, workspaceID: string)
    returns (i: nat)
    requires FirstHeld(candidates, leases, workspaceID).Some?
    ensures i < |candidates| && FirstHeld(candidates, leases, workspaceID) == Some(candidates[i])
    ensures HeldBy(leases, candidates[i].name, workspaceID)
    ensures forall j :: 0 <= j < i ==> !HeldBy(leases, candidates[j].name, workspaceID)
  {
    if HeldBy(leases, candidates[0].name, workspaceID) {
      i := 0;
    } else {
      var m := FirstHeldAt(candidates[1..], leases, workspaceID);
      i := m + 1;
      assert forall j :: 0 < j < i ==> candidates[j] == candidates[1..][j - 1];
    }
  }

  datatype Resolution = Resolution(result: Result<HostConfig>, leases: LeaseMap)

  function NotFound(request: HostRequest): Result<HostConfig> {
    Err(if NamesHost(request) then "Host not found in provider" else "No available host found")
  }

  function AllTaken(request: HostRequest): Result<HostConfig> {
    Err(if NamesHost(request) then "Host is already leased" else "No available host found")
  }

  function Taken(leases: LeaseMap, host: HostConfig, workspaceID: string, mode: LeaseMode): Resolution {
    Resolution(Ok(host), leases[host.name := Lease(host.name, workspaceID, mode)])
  }

  /** An empty workspace identifier asks for a dry run, which takes no lease. */
  function Resolve(config: Config, leases: LeaseMap, request: HostRequest, workspaceID: string): Resolution {
    if request.provider !in config.providers then
      Resolution(Err("Unknown provider"), leases)
    else
      var candidates := Candidates(config, request);
      if candidates == [] then
        Resolution(NotFound(request), leases)
      else if workspaceID == "" then
        match FirstFree(candidates, leases)
        case Some(host) => Resolution(Ok(host), leases)
        case None => Resolution(Err("No available host found"), leases)
      else if FirstHeld(candidates, leases, workspaceID).Some? then
        Resolution(Ok(FirstHeld(candidates, leases, workspaceID).value), leases)
      else if config.leaseMode == Shared then
        Taken(leases, candidates[0], workspaceID, Shared)
      else
        match FirstFree(candidates, leases)
        case Some(host) => Taken(leases, host, workspaceID, Exclusive)
        case None => Resolution(AllTaken(request), leases)
  }

  class ProviderRegistry {
    const config: Config
    const leases: LeaseManager

    constructor (config: Config, leases: LeaseManager)
      ensures this.config == config && this.leases == leases
    {
      this.config := config;
      this.leases := leases;
    }

    method ResolveWithLease(request: HostRequest, workspaceID: string) returns (result: Result<HostConfig>)
      modifies leases
      ensures Resolution(result, leases.leases) == Resolve(config, old(leases.leases), request, workspaceID)
    {
      if request.provider !in config.providers {
        return Err("Unknown provider");
      }
      var candidates := Candidates(config, request);
      if candidates == [] {
        return NotFound(request);
      }
      if workspaceID == "" {
        var free := FirstFree(candidates, leases.leases);
        return if free.Some? then Ok(free.value) else Err("No available host found");
      }
      var held := FirstHeld(candidates, leases.leases, workspaceID);
      if held.Some? {
        return Ok(held.value);
      }
      for i := 0 to |candidates|
        invariant leases.leases == old(leases.leases)
        invariant i > 0 ==> config.leaseMode == Exclusive
        invariant FirstFree(candidates, leases.leases) == FirstFree(candidates[i..], leases.leases)
      {
        var lease := leases.Acquire(candidates[i].name, workspaceID, config.leaseMode);
        if lease.Ok? {
          return Ok(candidates[i]);
        }
      }
      return AllTaken(request);
    }

    method AcquireResolved(request: HostRequest, workspaceID: string) returns (result: Result<HostConfig>)
      modifies leases
      ensures Resolution(result, leases.leases) == Resolve(config, old(leases.leases), request, workspaceID)
    {
      result := ResolveWithLease(request, workspaceID);
    }

    method Release(host: string, workspaceID: string)
      modifies leases
      ensures leases.leases == Released(old(leases.leases), host, workspaceID)
    {
      leases.Release(host, workspaceID);
    }
  }

  // ---------- What selection promises ----------

  /** The chosen host is a candidate, its lease is the asker's, and nobody else's lease changes. */
  lemma ResolveSound(config: Config, leases: LeaseMap, request: HostRequest, workspaceID: string)
    requires config.leaseMode == Exclusive && workspaceID != ""
    ensures
      var r := Resolve(config, leases, request, workspaceID);
      && (r.result.Ok? ==> && request.provider in config.providers
                           && r.result.value in Candidates(config, request)
                           && HeldBy(r.leases, r.result.value.name, workspaceID))
      && (r.result.Err? ==> r.leases == leases)
      && (forall host :: host in leases ==> host in r.leases && r.leases[host] == leases[host])
      && (forall host :: host in r.leases && host !in leases ==> r.result.Ok? && host == r.result.value.name)
  {
    if request.provider in config.providers {
      var candidates := Candidates(config, request);
      FirstHeldSpec(candidates, leases, workspaceID);
      FirstFreeSpec(candidates, leases);
    }
  }

  // ---------- Which host, in terms of the configuration ----------

  /** What a request asks of a host, read from the configuration. */
  predicate Matches(provider: ProviderConfig, request: HostRequest, host: HostConfig) {
    if request.host.Some? && request.host.value != "" then
      var name := request.host.value;
      host.name == name || host.sshHost == name || name in host.aliases
    else
      && (forall l :: l in provider.labels ==> l in host.labels)
      && (forall l :: l in request.labels ==> l in host.labels)
  }

  ghost predicate Before(provider: ProviderConfig, request: HostRequest, k: nat, passed: HostConfig -> bool)
    requires k <= |provider.hosts|
  {
    forall j :: 0 <= j < k && Matches(provider, request, provider.hosts[j]) ==> passed(provider.hosts[j])
  }

  /** The candidates are the matching hosts, in the order of the configuration. */
  lemma CandidatesAreMatches(config: Config, request: HostRequest) returns (positions: seq<nat>)
    requires request.provider in config.providers
    ensures
      var provider := config.providers[request.provider];
      && Ascending(positions) && |Candidates(config, request)| == |positions|
      && (forall k: nat :: k in positions <==> k < |provider.hosts| && Matches(provider, request, provider.hosts[k]))
      && (forall i :: 0 <= i < |positions| ==>
            positions[i] < |provider.hosts| && Candidates(config, request)[i] == provider.hosts[positions[i]])
  {
    var provider := config.providers[request.provider];
    if NamesHost(request) {
      var p := (host: HostConfig) => AnswersTo(host, request.host.value);
      positions := Positions(provider.hosts, p);
      PositionsSpec(provider.hosts, p);
      FilterKeepsPositions(provider.hosts, p);
      assert Candidates(config, request) == Filter(provider.hosts, p);
    } else {
      var p := (host: HostConfig) => HasLabels(host, provider.labels + request.labels);
      positions := Positions(provider.hosts, p);
      PositionsSpec(provider.hosts, p);
      FilterKeepsPositions(provider.hosts, p);
      assert Candidates(config, request) == Filter(provider.hosts, p);
      forall host ensures p(host) <==> Matches(provider, request, host) {
        assert forall l :: l in provider.labels || l in request.labels <==> l in provider.labels + request.labels;
      }
    }
  }

  /** The candidate before which all candidates were passed over is the first matching host that was not. */
  lemma CandidateInConfiguration(
    config: Config, request: HostRequest, i: nat, passed: HostConfig -> bool)
    returns (k: nat)
    requires request.provider in config.providers && i < |Candidates(config, request)|
    requires forall j :: 0 <= j < i ==> passed(Candidates(config, request)[j])
    ensures
      var provider := config.providers[request.provider];
      && k < |provider.hosts| && provider.hosts[k] == Candidates(config, request)[i]
      && Matches(provider, request, provider.hosts[k]) && Before(provider, request, k, passed)
  {
    var provider := config.providers[request.provider];
    var positions := CandidatesAreMatches(config, request);
    k := positions[i];
    assert k in positions;
    forall j | 0 <= j < k && Matches(provider, request, provider.hosts[j]) ensures passed(provider.hosts[j]) {
      assert (j as nat) in positions;
      var m :| 0 <= m < |positions| && positions[m] == j;
      assert m < i;
      assert Candidates(config, request)[m] == provider.hosts[j];
    }
  }

  lemma NoCandidateLeft(config: Config, request: HostRequest, passed: HostConfig -> bool)
    requires request.provider in config.providers
    requires forall host :: host in Candidates(config, request) ==> passed(host)
    ensures Before(config.providers[request.provider], request, |config.providers[request.provider].hosts|, passed)
  {
    var provider := config.providers[request.provider];
    var positions := CandidatesAreMatches(config, request);
    forall j | 0 <= j < |provider.hosts| && Matches(provider, request, provider.hosts[j])
      ensures passed(provider.hosts[j]) {
      assert (j as nat) in positions;
      var m :| 0 <= m < |positions| && positions[m] == j;
      assert Candidates(config, request)[m] in Candidates(config, request);
    }
  }

  predicate IsLeased(leases: LeaseMap, host: HostConfig) {
    host.name in leases
  }

  predicate NotTheirs(leases: LeaseMap, workspaceID: string, host: HostConfig) {
    host.name !in leases || leases[host.name].workspaceID != workspaceID
  }

  /** The first host of the configuration that matches and is not passed over. */
  ghost predicate IsFirst(
    provider: ProviderConfig, request: HostRequest, host: HostConfig, passed: HostConfig -> bool)
  {
    exists k :: && 0 <= k < |provider.hosts| && provider.hosts[k] == host && Matches(provider, request, host)
                && Before(provider, request, k, passed) && !passed(host)
  }

  /**
   Which host is chosen in exclusive mode, in terms of the configuration: the first
   matching one that the workspace leases; if it leases none, and in a dry run, the
   first matching one that is free; none exactly when every matching one is leased,
   by others or, in a dry run, by anybody.
   */
  lemma ChoosesInOrder(config: Config, leases: LeaseMap, request: HostRequest, workspaceID: string)
    requires config.leaseMode == Exclusive && request.provider in config.providers
    ensures
      var provider := config.providers[request.provider];
      var leased := (h: HostConfig) => IsLeased(leases, h);
      var others := (h: HostConfig) => NotTheirs(leases, workspaceID, h);
      var result := Resolve(config, leases, request, workspaceID).result;
      var all := |provider.hosts|;
      if workspaceID != "" && !Before(provider, request, all, others) then
        result.Ok? && IsFirst(provider, request, result.value, others)
      else if !Before(provider, request, all, leased) then
        result.Ok? && IsFirst(provider, request, result.value, leased)
      else
        result.Err?
  {
    var provider := config.providers[request.provider];
    var candidates := Candidates(config, request);
    var leased := (h: HostConfig) => IsLeased(leases, h);
    var others := (h: HostConfig) => NotTheirs(leases, workspaceID, h);
    FirstFreeSpec(candidates, leases);
    FirstHeldSpec(candidates, leases, workspaceID);
    if workspaceID != "" && FirstHeld(candidates, leases, workspaceID).Some? {
      var i := FirstHeldAt(candidates, leases, workspaceID);
      var k := CandidateInConfiguration(config, request, i, others);
      assert !others(provider.hosts[k]);
    } else {
      if workspaceID != "" {
        NoCandidateLeft(config, request, others);
      }
      if FirstFree(candidates, leases).Some? {
        var i: nat :| 0 <= i < |candidates| && candidates[i] == FirstFree(candidates, leases).value
                      && forall j :: 0 <= j < i ==> candidates[j].name in leases;
        var k := CandidateInConfiguration(config, request, i, leased);
        assert !leased(provider.hosts[k]);
      } else {
        NoCandidateLeft(config, request, leased);
      }
    }
  }

  /** Why a request is refused: no such provider, no matching host, or none that can be had. */
  lemma RefusalReasons(config: Config, leases: LeaseMap, request: HostRequest, workspaceID: string)
    requires Resolve(config, leases, request, workspaceID).result.Err?
    ensures
      var reason := Resolve(config, leases, request, workspaceID).result.message;
      var named := request.host.Some? && request.host.value != "";
      if request.provider !in config.providers then
        reason == "Unknown provider"
      else
        var provider := config.providers[request.provider];
        if Before(provider, request, |provider.hosts|, (h: HostConfig) => false) && named then
          reason == "Host not found in provider"
        else if named && workspaceID != "" then
          reason == "Host is already leased"
        else
          reason == "No available host found"
  {
    if request.provider in config.providers {
      var positions := CandidatesAreMatches(config, request);
      if Candidates(config, request) == [] {
        NoCandidateLeft(config, request, (h: HostConfig) => false);
      } else {
        assert positions[0] in positions;
      }
    }
  }

  /** In shared mode a workspace that leases no matching host gets the first matching one, whoever leases it. */
  lemma SharedTakesFirst(config: Config, leases: LeaseMap, request: HostRequest, workspaceID: string)
    requires config.leaseMode == Shared && workspaceID != "" && request.provider in config.providers
    requires
      var provider := config.providers[request.provider];
      Before(provider, request, |provider.hosts|, (h: HostConfig) => NotTheirs(leases, workspaceID, h))
    ensures
      var provider := config.providers[request.provider];
      var r := Resolve(config, leases, request, workspaceID);
      if Before(provider, request, |provider.hosts|, (h: HostConfig) => false) then
        r.result.Err? && r.leases == leases
      else
        && r.result.Ok? && IsFirst(provider, request, r.result.value, (h: HostConfig) => false)
        && r.leases == leases[r.result.value.name := Lease(r.result.value.name, workspaceID, Shared)]
  {
    var provider := config.providers[request.provider];
    var candidates := Candidates(config, request);
    var none := (h: HostConfig) => false;
    if candidates == [] {
      NoCandidateLeft(config, request, none);
    } else {
      var k := CandidateInConfiguration(config, request, 0, none);
      assert !none(provider.hosts[k]);
      FirstHeldSpec(candidates, leases, workspaceID);
      forall host | host in candidates ensures NotTheirs(leases, workspaceID, host) {
        var i: nat :| i < |candidates| && candidates[i] == host;
        var m := CandidateInConfiguration(config, request, i, (h: HostConfig) => true);
      }
    }
  }

  // ---------- Dry runs, refusals, repetition ----------

  /**
   For a workspace that leases no candidate, acquiring picks the host the dry run names and changes
   only its lease.
   */
  lemma DryRunAgrees(config: Config, leases: LeaseMap, request: HostRequest, workspaceID: string)
    requires config.leaseMode == Exclusive && workspaceID != ""
    requires request.provider in config.providers ==>
      forall host :: host in Candidates(config, request) ==> !HeldBy(leases, host.name, workspaceID)
    ensures
      var dry, wet := Resolve(config, leases, request, ""), Resolve(config, leases, request, workspaceID);
      && (dry.result.Ok? <==> wet.result.Ok?)
      && (wet.result.Ok? ==> && dry.result == wet.result && wet.result.value.name !in leases
                             && wet.leases ==
                                   leases[wet.result.value.name :=
                                     Lease(wet.result.value.name, workspaceID, Exclusive)])
      && dry.leases == leases
  {
    if request.provider in config.providers {
      var candidates := Candidates(config, request);
      FirstHeldSpec(candidates, leases, workspaceID);
      FirstFreeSpec(candidates, leases);
    }
  }

  /** A known provider with candidates refuses exactly when every candidate is leased by someone else. */
  lemma FailsIffAllTaken(config: Config, leases: LeaseMap, request: HostRequest, workspaceID: string)
    requires config.leaseMode == Exclusive && workspaceID != ""
    requires request.provider in config.providers && Candidates(config, request) != []
    ensures Resolve(config, leases, request, workspaceID).result.Err? <==>
      forall host :: host in Candidates(config, request) ==>
        host.name in leases && leases[host.name].workspaceID != workspaceID
  {
    var candidates := Candidates(config, request);
    FirstHeldSpec(candidates, leases, workspaceID);
    FirstFreeSpec(candidates, leases);
  }

  lemma {:induction false} HeldAfterTaking(
    candidates: seq<HostConfig>, leases: LeaseMap, workspaceID: string, mode: LeaseMode)
    requires FirstHeld(candidates, leases, workspaceID) == None && FirstFree(candidates, leases).Some?
    ensures
      var host := FirstFree(candidates, leases).value;
      FirstHeld(candidates, Taken(leases, host, workspaceID, mode).leases, workspaceID) == Some(host)
  {
    FirstFreeSpec(candidates, leases);
    if candidates[0].name in leases {
      HeldAfterTaking(candidates[1..], leases, workspaceID, mode);
    }
  }

  /** Asking again returns the same host and leaves the leases alone, in either mode. */
  lemma ResolveIdempotent(config: Config, leases: LeaseMap, request: HostRequest, workspaceID: string)
    requires workspaceID != "" && Resolve(config, leases, request, workspaceID).result.Ok?
    ensures
      var once := Resolve(config, leases, request, workspaceID);
      Resolve(config, once.leases, request, workspaceID) == once
  {
    var candidates := Candidates(config, request);
    if FirstHeld(candidates, leases, workspaceID).None? && config.leaseMode == Exclusive {
      HeldAfterTaking(candidates, leases, workspaceID, Exclusive);
    }
  }

  /** The host chosen, dry run or not, is configured, and is the one named or carries every required label. */
  lemma ChoiceMatchesRequest(config: Config, leases: LeaseMap, request: HostRequest, workspaceID: string)
    requires Resolve(config, leases, request, workspaceID).result.Ok?
    ensures
      var host := Resolve(config, leases, request, workspaceID).result.value;
      && request.provider in config.providers && host in config.providers[request.provider].hosts
      && if NamesHost(request) then AnswersTo(host, request.host.value)
         else HasLabels(host, config.providers[request.provider].labels) && HasLabels(host, request.labels)
  {
    var candidates := Candidates(config, request);
    FirstHeldSpec(candidates, leases, workspaceID);
    FirstFreeSpec(candidates, leases);
    var labels := config.providers[request.provider].labels;
    assert forall l :: l in labels || l in request.labels ==> l in labels + request.labels;
  }

  /**
   A workspace finds the host it leases again under any of its names - canonical, ssh.host or alias -
   and takes no other lease.
   */
  lemma OwnLeaseFoundByAnyName(
    config: Config, leases: LeaseMap, provider: string, host: HostConfig, name: string, workspaceID: string)
    requires workspaceID != "" && provider in config.providers && host in config.providers[provider].hosts
    requires HeldBy(leases, host.name, workspaceID)
    requires name != "" && (name == host.name || name == host.sshHost || name in host.aliases)
    requires forall other :: HeldBy(leases, other, workspaceID) ==> other == host.name
    ensures
      var r := Resolve(config, leases, HostRequest(provider, Some(name), []), workspaceID);
      r.leases == leases && r.result.Ok? && r.result.value.name == host.name
  {
    var candidates := Candidates(config, HostRequest(provider, Some(name), []));
    assert host in candidates;
    FirstHeldSpec(candidates, leases, workspaceID);
  }
}
