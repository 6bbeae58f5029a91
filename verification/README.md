# opencode-remote-ssh: the permission engine and the binding lifecycle, verified

A Dafny 4.11 model of the two stateful halves of opencode-remote-ssh, with
proofs about every run of them. `dafny verify dfyconfig.toml` checks it all.

**The Go stub.** `StubState` and `StubHandler` are the code of `State` and of
the two handler paths that decide whether a command runs, one call at a time:
four maps, three of them mirrored in directories. `Patterns` is the approval
matcher and what it means. `ApprovalProtocol` takes the same operations apart at
every point where a crash or another request can come in between: requests and
replies are threads, "delete from the map, remove the file, run the command" are
three steps, "insert in the map, truncate, write" are three, and a crash may
fall anywhere and is followed by a fresh load of the directory. Over all
behaviours of that system:

- `ApprovalSafety`: default deny end to end, and at-most-once for "once"
  approvals. The code ignores the error of `os.Remove`, so the exact statement
  is *runs <= 1 + failed removals*; `ApprovalTightness` shows that for every
  number of failures some run uses the whole bound, and `ApprovalReruns` says in
  which reachable states a grant can let through another command.
- `ApprovalLedger`: saved "once" grants are conserved (consumed or outstanding,
  never both), and what "always" approvals cover never shrinks. Both need
  approval identifiers not to repeat; the code makes them from the millisecond
  clock.  `StandingLostIff` says exactly when an approval can be lost all the
  same, and `ApprovalLosses` has a run for each of the two ways.
- `EventBus`, `EventBusProtocol`: in-place removal from the listener slice, and
  publishes interleaved under the RWMutex.

**The TypeScript plugin.** `Leases`, `Providers`, `RuntimeState`, `Ports` and
`Tunnels` are the lease map, host selection, the persisted ordered map, the port
hash and search, and tunnel recovery. `Lifecycle` gives each operation as a
function of the whole state and of what SSH and HTTP answered, and proves the
agreement of bindings and leases over all legal runs, restarts included;
`Plugin` is the object whose methods are proved to perform such runs;
`ReuseSearch` is about the search for a binding to reuse, and `Processes` about the
tunnel processes that a stored binding should record: it says of every operation
exactly when it loses one. `Bootstraps` is a second model in which calls interleave
at every `await`, entry-point calls included. Bootstraps exclude each other on a
host unless the entry point is called during one, which is exactly what costs a
bootstrap its lease. The agreement of bindings and leases does not survive
interleaving: `Interleaving` proves that exactly one kind of step can break it, in
every interleaving, and that uninterrupted steps add up to the operations of
`Lifecycle`. `Orphans` and `Counterexamples` are the runs and inputs at which
properties fail.

Properties that turned out false of the code, each with its exact condition and
an input or run at which it fails:

| expected | what holds | fails in |
|---|---|---|
| a "once" approval runs at most one command | at most 1 + the failed removals of its file (`RunsWithinBudget`); another command can follow if and only if the grant can still be taken or one let through has not run (`RunsAgainIffUsable`) | `BudgetIsAttained` |
| an "always" approval stays until the end | unless another approval is inserted under its identifier, or the process dies before its file is written (`StandingLostIff`, over runs `StandingLostInSuchAStep`) | `RepeatedIdentifierLosesAlways`, `CrashBeforeWriteLosesAlways` |
| a create keeps bindings and leases in agreement for any identifier | if and only if no host is selected, or the identifier is not empty and not bound to the host selected (`RebindingCreateKeepsAgreementIff`) | `FailedRebindingLosesAgreement`, `EmptyIdentifierLosesAgreement` |
| a failed create restores the lease map | if and only if the workspace did not lease the selected host before (`FailedCreateRollsBack`) | `FailedCreateAfterConfigure` |
| calling the plugin entry point again keeps the leases of bootstraps under way | if and only if there are none (`ReinitKeepsBootLeasesIffNone`); no other step costs a bootstrap its lease (`StepKeepsBootsLeasedIff`) | `ReinitDuringBootLosesExclusion` |
| a bootstrap or recovery that fails starts no process that stays | if and only if no port of its search comes up at its turn (`FailureLeavesNoProcessIff`, `RecoveryLeavesNoProcessIff`) | `SilentStubLeaksTunnel` |
| every tunnel process that runs is recorded by a stored binding | an operation keeps this if and only if every process it starts ends up recorded and no binding it forgets, or records another process for, has one running (`KeepsTrackedIff`); a run keeps it if and only if all its operations do (`RunTrackedIff`) | `FailedSessionLeaksTunnel`, `FailedReuseLosesProcess`, `StatusLosesProcess`, `ReopeningLosesProcess` |
| agreement holds at `await` granularity | every step keeps it if and only if it is not an answer or a create that stores its binding after its lease was lost (`StepKeepsAgreementIff`, over runs `AgreementLostByLateStore`) | `AgreementCanBeLost`, `ReinitDuringBootLosesAgreement` |

Assumptions: a file either decodes to what was encoded into it or does not
decode; writes that no crash interrupts succeed; workspace and session
identifiers are single path segments where files are concerned; an empty `extra` map is the same as none.
Strings stand for Go's byte strings and for well-formed JavaScript strings.
Clock readings, random tokens and generated identifiers are parameters.
Lease claims are for the exclusive mode, which is the default.

## Model

| member | source | states |
|---|---|---|
| Patterns.MatchIsDenotation | stub/internal/state/state.go:339-358 | for all pattern and path strings the matcher's verdict is the meaning of the parsed pattern: a subtree of path segments, a raw prefix, or one exact string |
| Patterns.MintedCovers | stub/internal/handler/handler.go:541 | a pattern minted by a refused request matches exactly the paths whose '/'-segments start with the directory's segments |
| Patterns.CoversIsStringPrefix | stub/internal/state/state.go:343-351 | segment prefix coincides with equality or a string prefix that ends before a '/' |
| Patterns.StarIsRawPrefix | stub/internal/state/state.go:353-356 | a pattern ending in a single star is a raw string prefix, so it does reach siblings |
| Patterns.CoverageIsTreeOrder | stub/internal/state/state.go:339-358 | coverage by minted patterns is reflexive, transitive, antisymmetric, and the directories covering a path are comparable |
| Patterns.SiblingNotCovered | stub/internal/state/state.go:343-351 | a name that merely extends the approved directory's name, and everything below it, is never covered |
| Patterns.JoinSegments | stub/internal/state/state.go:343-351 | splitting into segments loses nothing |
| Patterns.SegmentsJoin | stub/internal/state/state.go:343-351 | every list of '/'-free segments is the split of its join |
| StubState.LoadEntries | stub/internal/state/state.go:129-142 | the shared load loop: whatever the order of entries, every decodable file's identifier is present with some such file's contents, and nothing else changes |
| StubState.LoadRestores | stub/internal/state/state.go:93-142 | loading a directory that agrees with a map rebuilds that map, in whatever order entries are read |
| StubState.ReplayKeepsInStep | stub/internal/state/state.go:161-337 | memory and directories agree after any sequence of completed mutators |
| StubState.RestartRestores | stub/internal/state/state.go:78-142 | after any sequence of mutators a fresh State over the same root holds exactly the same workspaces, sessions and approvals |
| StubState.State.StartAgain | stub/internal/state/state.go:68-97 | a fresh State over the root of one that agrees with its directories has the same three maps and no permission requests |
| StubState.State.Init | stub/internal/state/state.go:78-97 | loads the three directories and leaves permission requests alone |
| StubState.State.CreateWorkspace | stub/internal/state/state.go:161-166 | whole new state: the workspace is stored in memory, and on disk if its name stays in the directory |
| StubState.State.DeleteWorkspace | stub/internal/state/state.go:168-174 | whole new state: the workspace is gone from memory, and from disk if its name stays in the directory |
| StubState.State.CreateSession | stub/internal/state/state.go:212-237 | whole new state: the session is stored in memory, and on disk if its name stays in the directory |
| StubState.State.DeleteSession | stub/internal/state/state.go:226-232 | whole new state: the session is gone from memory, and from disk if its name stays in the directory |
| StubState.State.CreatePermission | stub/internal/state/state.go:251-270 | whole new state: the request is stored in memory only |
| StubState.State.CreateApproval | stub/internal/state/state.go:284-298 | whole new state: the approval is stored in memory and on disk |
| StubState.State.CheckApproval | stub/internal/state/state.go:302-314 | finds an approval exactly when a matching one exists, for every iteration order, and changes nothing |
| StubState.State.ConsumeApproval | stub/internal/state/state.go:319-337 | returns an approval exactly when a matching one exists, for every iteration order; a "once" approval returned is gone from memory and disk, any other stays |
| StubHandler.Handler.ExecuteCommandLike | stub/internal/handler/handler.go:528-577 | the directory is the one named, or the session's if none is; the command runs exactly when an approval of the workspace matches it, and then in it and under one of them; otherwise a pending request for its subtree, with all its fields, is filed and nothing runs |
| StubHandler.Handler.ApplyPermissionReply | stub/internal/handler/handler.go:405-436 | the status is overwritten whether or not the request was pending; "always" and "once", and no other reply, add one approval, for the request's first pattern, to map and directory; it fails exactly for such a reply without patterns |
| StubHandler.Handler.PermissionReply | stub/internal/handler/handler.go:438-465 | an unknown request changes nothing; a known one gets the reply |
| StubHandler.Handler.SessionPermissionReply | stub/internal/handler/handler.go:467-503 | the session route reaches only requests raised by that session |
| ApprovalProtocol.ArrivesForItsDirectory | stub/internal/handler/handler.go:529-531 | in the protocol too a request is checked for the directory it names, and for the session's exactly if it names none |
| ApprovalProtocol.ReplyGrantsIff | stub/internal/handler/handler.go:405-415 | a reply goes on to an approval exactly if it is "once" or "always" and the request has patterns |
| ApprovalProtocol.RefusedIffNothingMatches | stub/internal/state/state.go:319-337 | a waiting request can be refused exactly when no approval of its workspace matches its directory |
| ApprovalProtocol.AdmittedIffMatches | stub/internal/state/state.go:319-337 | and let through by an approval exactly when that one matches, spending it exactly if it is a "once" approval |
| ApprovalProtocol.FilesItsRequest | stub/internal/handler/handler.go:535-549 | the request filed has every field the sequential path gives it |
| ApprovalProtocol.StandingUse | stub/internal/state/state.go:327-335 | being let through by a standing approval is the sequential ConsumeApproval on memory and disk |
| StubHandler.RetryAllowed | stub/internal/handler/handler.go:405-429 | for every directory, a granting reply to a refused request makes the retry there and below allowed, by the new approval alone |
| StubHandler.RetrySpends | stub/internal/handler/handler.go:533-549 | that retry uses a "once" grant up and leaves an "always" grant in place |
| StubHandler.AskReplyRetry | stub/internal/handler/handler.go:405-564 | request, granting reply and immediate retry, called in turn: the retry runs under the new approval and uses a "once" one up |
| ApprovalProtocol.UninterruptedSpend | stub/internal/state/state.go:329-332 | the two steps of spending compose to the sequential ConsumeApproval on memory and disk |
| ApprovalProtocol.UninterruptedReply | stub/internal/handler/handler.go:405-427 | the steps of a granting reply compose to the sequential reply path on memory and disk |
| ApprovalProtocol.StepKeepsSound | stub/internal/state/state.go:284-337 | every step keeps the protocol invariant: one lock holder, recorded grants filed under their identifiers, memory mirrored on disk except for the file being written, an untouched file while a grant is being removed, justified history |
| ApprovalSafety.DefaultDeny | stub/internal/handler/handler.go:405-564 | in every run every executed command was let through by an approval of mode "once" or "always", from an earlier reply to a still earlier request of the same workspace whose directory's segments start the command's |
| ApprovalSafety.RunsWithinBudget | stub/internal/state/state.go:329-332 | in every run, crashes included, the runs of a "once" grant, its pending runs and its remaining liveness together are at most one plus its failed removals |
| ApprovalSafety.AtMostOnce | stub/internal/state/state.go:316-337 | with working file removal each "once" grant authorises at most one command in the whole history |
| ApprovalSafety.StepKeepsBudget | stub/internal/handler/handler.go:533-564 | no step, and in particular no restart between map delete and file removal, can raise a grant's use above its budget |
| ApprovalReruns.RunsAgainIffUsable | stub/internal/state/state.go:316-337 | in every reachable state some continuation runs another command under a "once" grant if and only if the grant can still be taken or one let through has not run yet |
| ApprovalReruns.UsedUpForever | stub/internal/handler/handler.go:533-564 | a grant that is neither stays so, and runs nothing more, in every continuation |
| ApprovalReruns.RemovalEndsLifeIff | stub/internal/state/state.go:330-332 | removing the file ends a grant's life if and only if the removal works |
| ApprovalReruns.LastRunIffRemoved | stub/internal/state/state.go:330-332 | after the only command let through has run, another one can follow if and only if the removal failed |
| ApprovalTightness.BudgetIsAttained | stub/internal/state/state.go:331 | for every n some run has n failed removals of a grant and n + 1 commands under it |
| ApprovalLedger.BehaviorLedger | stub/internal/state/state.go:284-337 | with distinct identifiers a grant is on disk exactly from its write to its removal, and in memory too unless it is being removed or a removal failed |
| ApprovalLedger.Conservation | stub/internal/state/state.go:284-337 | saved "once" grants are the disjoint union of consumed and outstanding ones in every reachable state, and the outstanding ones are those in memory when nobody holds the lock and no removal failed |
| ApprovalLedger.AlwaysCoverageGrows | stub/internal/handler/handler.go:411-427 | with distinct identifiers every (workspace, path) pair covered by a written "always" approval stays covered in all later states, restarts included |
| ApprovalLedger.StandingLostIff | stub/internal/state/state.go:284-298 | in any sound state a standing approval leaves memory in a step exactly when the step inserts another under its identifier or is a crash before its file is written |
| ApprovalLedger.StandingLostInSuchAStep | stub/internal/state/state.go:284-298 | in every run, a standing approval that is gone was lost in such a step |
| ApprovalLosses.RepeatedIdentifierLosesAlways | stub/internal/handler/handler.go:417 | a run in which a second reply with the same identifier ends the coverage of a written "always" approval |
| ApprovalLosses.CrashBeforeWriteLosesAlways | stub/internal/state/state.go:287-297 | a run with distinct identifiers in which a crash between map insert and write ends it |
| EventBus.WithoutKeepsOrder | stub/internal/handler/handler.go:58-67 | removal from distinct listeners takes out exactly the one asked for and keeps the rest in order |
| EventBus.EventBus.Subscribe | stub/internal/handler/handler.go:49-55 | a fresh empty channel is appended, in spare capacity or in a bigger array |
| EventBus.EventBus.Unsubscribe | stub/internal/handler/handler.go:58-67 | the slice, shifted inside the same array, is the old one without its first occurrence of the channel |
| EventBus.EventBus.Publish | stub/internal/handler/handler.go:39-46 | every listener holding fewer than 10 events gets the event at its end, every other one is unchanged |
| EventBusProtocol.SliceConstantDuringPublish | stub/internal/handler/handler.go:39-46 | in every interleaving the slice a publish iterates over is the one it started on, and its next offer is possible |
| EventBusProtocol.FinishedPublishReachedEachListenerOnce | stub/internal/handler/handler.go:32-47 | a finished publish was offered to exactly the listeners it started with, exactly once each |
| EventBusProtocol.ChannelsAreLosslessQueues | stub/internal/handler/handler.go:42-45 | sends to a channel are received in order without loss or repetition, and a drop happens only when 10 sent events are unreceived |
| EventBusProtocol.UnsubscribedIsNeverOffered | stub/internal/handler/handler.go:58-67 | after Unsubscribe no publish, old or new, offers that channel anything |
| EventBusProtocol.ListensWhileSubscribed | stub/internal/handler/handler.go:49-67 | in every interleaving the listeners are exactly the channels subscribed and not unsubscribed |
| EventBusProtocol.AlwaysGoesOn | stub/internal/handler/handler.go:32-67 | in every reachable state a publish can begin, one under way can offer or end, a channel that holds something can be read, and without one under way anybody can subscribe or unsubscribe |
| Leases.LeaseManager.Acquire | plugin/src/leases.ts:6-20 | exclusive mode refuses exactly a taken host and changes nothing then; otherwise exactly that host's record is replaced |
| Leases.LeaseManager.Restore | plugin/src/leases.ts:22-31 | overwrites the host's record unconditionally |
| Leases.LeaseManager.Release | plugin/src/leases.ts:50-55 | only the holder's release removes the record |
| Providers.ProviderRegistry.ResolveWithLease | plugin/src/provider.ts:21-86 | the candidate loop with its swallowed refusals computes the selection function and exactly its lease change |
| Providers.ChoosesInOrder | plugin/src/provider.ts:27-85 | in terms of the configuration: the first matching host the workspace leases, else the first matching free one, else a refusal; a dry run the first matching free one |
| Providers.RefusalReasons | plugin/src/provider.ts:20-85 | which of the reasons a refusal gives |
| Providers.SharedTakesFirst | plugin/src/provider.ts:60-79 | in shared mode the first matching host, whoever leases it |
| Wrappers.FilterKeepsPositions | plugin/src/provider.ts:31-38 | filtering keeps exactly the positions with the property, each once and in order |
| Providers.ChoiceMatchesRequest | plugin/src/provider.ts:27-38 | the host chosen is configured, and is the one named, by any of its names, or carries all required labels |
| Providers.ResolveSound | plugin/src/provider.ts:60-79 | exclusive mode: the chosen candidate ends up leased by the asker, nobody else's lease changes, and a refusal changes nothing |
| Providers.DryRunAgrees | plugin/src/provider.ts:17-90 | for a workspace leasing no candidate, acquiring picks exactly the host the dry run names and changes only its lease |
| Providers.FailsIffAllTaken | plugin/src/provider.ts:68-85 | a known provider with candidates refuses exactly when every candidate is leased by someone else |
| Providers.ResolveIdempotent | plugin/src/provider.ts:60-66 | repeating a successful request returns the same host and changes no lease |
| Providers.OwnLeaseFoundByAnyName | plugin/src/provider.ts:31-37 | a workspace finds its own lease again by canonical name, ssh.host or alias and takes no other |
| RuntimeState.StoredAt | plugin/src/state.ts:21-42 | storing a new identifier appends, storing a known one keeps its position |
| RuntimeState.DeletedAt | plugin/src/state.ts:30-33 | deleting takes out the one binding and keeps the order of the others |
| RuntimeState.LoadsWhatCounts | plugin/src/state.ts:44-68 | a file loads to its entries with the four strings, the last one of each identifier, whatever else is in it |
| RuntimeState.LoadAfterSave | plugin/src/state.ts:44-75 | loading what was saved restores all bindings in insertion order if and only if each has a workspace identifier, provider, host and token |
| RuntimeState.BindingStore.constructor | plugin/src/state.ts:17-68 | construction loads exactly the complete entries of the file |
| RuntimeState.BindingStore.Set | plugin/src/state.ts:21-24 | memory and file after set or replace |
| RuntimeState.BindingStore.Delete | plugin/src/state.ts:30-33 | memory and file after delete |
| Ports.Hash | plugin/src/ssh.ts:501-505 | the wrapped loop computes the base-31 polynomial of the code units modulo 2^32, and every intermediate is below 2^53 |
| Ports.AllocateInitialLocalPort | plugin/src/ssh.ts:499-507 | the starting port is that hash folded into the range; for an empty range, the JavaScript remainder, which is not a number exactly for a range of length zero |
| Ports.PortAtIsCyclic | plugin/src/ssh.ts:255-256 | attempts step up by one port and wrap once from the end of the range to its start |
| Ports.ProbeOrderIsPermutation | plugin/src/ssh.ts:251-256 | the probe order is a permutation of the port range |
| Tunnels.SSHManager.TryStartTunnel | plugin/src/ssh.ts:282-344 | a process is reported only for a port that did not answer before and did answer after it was started; none is started for a port that answers, and one that is not reported is stopped |
| Tunnels.SSHManager.EnsureTunnel | plugin/src/ssh.ts:244-264 | attempts follow the probe order and stop at the first success; it gives up only after the whole order, leaves running no process but the one found, and ends as the network has it end |
| Tunnels.GivingUpMeansEveryPortFailedOnce | plugin/src/ssh.ts:255-263 | when the search throws, every port of the range failed in exactly one attempt |
| Tunnels.FoundIsCyclicallyFirst | plugin/src/ssh.ts:255-260 | every port cyclically before the one found was tried and failed |
| Tunnels.SSHManager.EnsureSpecificOrFallbackTunnel | plugin/src/ssh.ts:266-280 | the preferred port first, then the whole range; no process is left running but the one found |
| Tunnels.SSHManager.WaitForHealth | plugin/src/ssh.ts:361-383 | success ends with a healthy probe of that port and token; failure means there was none in the whole time allowed |
| Tunnels.SSHManager.EnsureRecoveredBinding | plugin/src/ssh.ts:408-413 | whichever way recovery goes, the port handed out answered a health probe with the binding's token as the last act of the call; its outcome is a function of what the network answers |
| Tunnels.SSHManager.Reconnect | plugin/src/ssh.ts:93-119 | the same for the reconnecting half, with the port found by the preferred-then-range search; a process it started stays, whether or not the stub behind it gets healthy |
| Tunnels.SSHManager.Bootstrap | plugin/src/ssh.ts:29-86 | a bootstrap that succeeds ends with a healthy probe of its own port with the new token; its outcome is a function of what the network answers, and a process whose port came up stays even if the stub never gets healthy |
| Tunnels.SSHManager.Reopen | plugin/src/ssh.ts:101-112 | search and health wait end as the network has them end, and the log shows it |
| Tunnels.SearchFailsIff | plugin/src/ssh.ts:255-263 | a search finds nothing exactly when every port, at its turn, answers already or does not come up |
| Tunnels.FailureLeavesNoProcessIff | plugin/src/ssh.ts:73-74 | a prepared bootstrap leaves no process running if and only if no port comes up at its turn |
| Tunnels.RecoveryLeavesNoProcessIff | plugin/src/ssh.ts:93-119 | a recovery starts no process that stays if and only if one of its two probes is healthy or no port comes up at its turn |
| Tunnels.SSHManager.CloseRecoveredBinding | plugin/src/ssh.ts:419-428 | it succeeds exactly when the port did not answer the last probe, signals exactly the binding's own process, if that can be signalled, and then waits up to five seconds for the port to close; without a signal a port that answers fails it at once |
| Tunnels.ClosesByIff | plugin/src/ssh.ts:482-493 | waiting for a port to close succeeds exactly when some probe, 200 ms after the one before it, gets no answer that counts |
| Tunnels.PolledIff | plugin/src/ssh.ts:361-383 | polling succeeds exactly when a probe before the deadline gets the answer: every 300 ms a healthy one, or every 200 ms any |
| Lifecycle.LegalRunsKeepAgreement | plugin/src/index.ts:75-309 | exclusive mode: after any sequence of operations and restarts, whatever the network answered, every stored binding's host is leased by its workspace and no two bindings share a host |
| Lifecycle.CreateKeepsAgreement | plugin/src/index.ts:279-300 | creating a fresh workspace keeps agreement, succeed or fail |
| Lifecycle.ReadyKeepsAgreement | plugin/src/index.ts:153-164 | making a binding ready keeps agreement |
| Lifecycle.CheckKeepsAgreement | plugin/src/index.ts:435-449 | a status round, which may forget the binding, keeps agreement |
| Lifecycle.ReuseKeepsAgreement | plugin/src/index.ts:103-129 | a reuse round, with its mismatch release and its catch, keeps agreement |
| Lifecycle.RestartProjects | plugin/src/index.ts:166-174 | a restart keeps exactly the complete bindings in order and exactly one lease per kept binding, dropping leases without one |
| Lifecycle.RehydratedIsProjection | plugin/src/index.ts:166-174 | rebuilding leases from bindings on distinct hosts yields exactly their projection |
| Lifecycle.LastOnHostWins | plugin/src/index.ts:166-174 | for any bindings, each rebuilt lease is that of the last live binding on its host, and there are no others |
| Lifecycle.StartAgreesIff | plugin/src/index.ts:166-174 | a loaded file starts in agreement if and only if no kept entry is removed and no two share a host |
| Lifecycle.FailedCreateRollsBack | plugin/src/index.ts:96-100 | a failed create never changes bindings, and restores the lease map if and only if the workspace did not lease the host before |
| Lifecycle.RebindingCreateKeepsAgreementIff | plugin/src/index.ts:279-300 | for any identifier, the empty one included, every outcome of a create keeps agreement if and only if no host is selected or the identifier is neither empty nor bound to that host |
| Lifecycle.RemoveIsAllOrNothing | plugin/src/index.ts:176-181 | removing takes away exactly the binding and its lease, or nothing if the tunnel does not close |
| Lifecycle.CreateHandsOut | plugin/src/index.ts:283-295 | every field of the binding a create hands out, exactly when all its steps succeed |
| Lifecycle.ReadyHandsOut | plugin/src/index.ts:153-164 | the binding as it is, or with the new port and process and ready, or nothing |
| Lifecycle.ReusedKeepsSession | plugin/src/index.ts:116-121 | a session is kept; without one the binding is handed out exactly when it gets one |
| Lifecycle.FailedCheckLeavesNothing | plugin/src/index.ts:437-439 | a status round that fails leaves neither record nor lease |
| Lifecycle.ReadyIsCoherent | plugin/src/index.ts:153-164 | what is handed out is what is stored, and only port, process and status can differ from before |
| ReuseSearch.ReusedIsLeasedCandidate | plugin/src/index.ts:103-122 | a binding found has the asked provider, a host among the request's candidates, is stored and holds its lease |
| ReuseSearch.NothingReusableMeansNothingLeft | plugin/src/index.ts:103-129 | with no host asked for and nothing found, no binding of the provider is left and other providers' bindings and leases are untouched |
| ReuseSearch.RoundKeepsSession | plugin/src/index.ts:116-121 | a round on the selected host with a recovered tunnel hands the binding over with its session, whatever a session request would answer |
| ReuseSearch.FruitlessRoundLeases | plugin/src/index.ts:111-125 | a host offered in place of the binding's own is given back; a forgotten binding leaves no lease |
| ReuseSearch.FruitlessRoundSparesIff | plugin/src/index.ts:105-125 | a round that finds nothing keeps its binding exactly when the provider is another one or the host asked for can be had and is a different one |
| ReuseSearch.FruitlessSearchSparesIff | plugin/src/index.ts:104-125 | after a search in vain a binding is still stored exactly when its own round, at its turn, spared it |
| ReuseSearch.FruitlessSearch | plugin/src/index.ts:104-126 | where the search stands after any number of fruitless rounds |
| ReuseSearch.FruitlessRoundFrame | plugin/src/index.ts:105-125 | a round that finds nothing touches only its own binding and leases |
| Plugin.Plugin.constructor | plugin/src/index.ts:335-344 | start-up loads the file and rebuilds the leases from it |
| Plugin.Plugin.RehydrateLeasesFromState | plugin/src/index.ts:166-174 | the loop rebuilds exactly the leases of the live bindings, later ones winning |
| Plugin.Plugin.Reinitialise | plugin/src/index.ts:340-343 | calling the entry point again replaces the configuration and rebuilds the leases |
| Plugin.Plugin.ConfigureWorkspace | plugin/src/index.ts:264-277 | configuring takes the lease of the host it returns and stores no binding |
| Plugin.Plugin.StartAgain | plugin/src/index.ts:335-344 | a new process over the same file performs the restart operation |
| Plugin.Plugin.CreateBinding | plugin/src/index.ts:75-101 | the common create path performs the create operation, keeps agreement for a fresh identifier, hands out only a port that has just answered, starts no process that stays exactly when no port came up, and performs the operation on records and processes together |
| Plugin.Plugin.EnsureBindingReady | plugin/src/index.ts:153-164 | performs the ready operation, keeps agreement, and hands out only a port that has just answered with the binding's token; bindings, leases and processes change together |
| Plugin.Plugin.CheckRound | plugin/src/index.ts:434-439 | performs the check operation on bindings, leases and processes together |
| Plugin.Plugin.RemoveBinding | plugin/src/index.ts:176-181 | performs the remove operation on bindings, leases and processes together, exactly when the last probe of the port gets no answer |
| Plugin.Plugin.RemoveWorkspace | plugin/src/index.ts:302-309 | removes the bound workspace, and does nothing for an unknown one |
| Plugin.Plugin.GetTarget | plugin/src/index.ts:311-324 | hands out a ready binding of the workspace whose port has just answered |
| Plugin.Plugin.ReuseRound | plugin/src/index.ts:104-126 | one iteration of the reuse loop performs the reuse operation on bindings, leases and processes together; it starts no process that stays exactly when its recovery opened no port |
| Plugin.Plugin.FindReusableBinding | plugin/src/index.ts:103-129 | the loop performs a reuse search over the bindings it started with and keeps agreement |
| Plugin.Plugin.RemoteStatus | plugin/src/index.ts:432-452 | checks every binding, keeps agreement, and leaves stored exactly the bindings it reports as recovered, each of whose ports gave a healthy answer during the sweep |
| Plugin.StatusReportsWhatIsStored | plugin/src/index.ts:434-449 | after any part of a status sweep the stored bindings are the reported ones and those not reached |
| Plugin.Plugin.RemoteDisconnect | plugin/src/index.ts:459-472 | removes the targets in order, stopping at the first that does not close, with an identifier exactly the binding of that identifier, else all in order; it succeeds exactly when there were targets and all closed; the port of each removed binding was seen not to answer |
| Plugin.DisconnectAllLeavesNone | plugin/src/index.ts:460-469 | disconnecting everything leaves no binding |
| Plugin.Plugin.RemoteSwitch | plugin/src/index.ts:407-428 | a reuse search, then a create only if it found nothing; the port handed out has just answered |
| Plugin.Plugin.RemoteDoctor | plugin/src/index.ts:480-518 | a preflight that reuses nothing connects for exactly the provider and host asked for and then removes what it created, exactly when the last probe of its port gets no answer |
| Plugin.DoctorLeavesNoTrace | plugin/src/index.ts:480-518 | creating and removing a fresh workspace restores leases and bindings exactly, order included |
| Bootstraps.BootstrapsExcludeEachOther | plugin/src/index.ts:75-101 | in every interleaving at the awaits without an entry-point call during a bootstrap, bootstraps under way are on pairwise distinct hosts, each holding its own lease |
| Bootstraps.StepKeepsBootsLeasedIff | plugin/src/index.ts:75-472 | a step between two awaits leaves every bootstrap its lease if and only if it is not an entry-point call during a bootstrap |
| Bootstraps.BindsUnderItsLease | plugin/src/index.ts:283-295 | a create that succeeds stores its binding, and while its workspace leases the host if and only if the lease is still there, which it is without such a call |
| Bootstraps.StepKeepsInv | plugin/src/index.ts:75-472 | every step between two awaits keeps the identifiers of bootstraps under way unknown to every other call |
| Bootstraps.ReinitKeepsBootLeasesIffNone | plugin/src/index.ts:166-174 | rebuilding leases in a running process keeps the leases of bootstraps under way if and only if there are none |
| Bootstraps.LateAnswerKeepsAgreementIffLeaseHeld | plugin/src/index.ts:158-161 | storing a late recovery answer keeps agreement if and only if the lease is still held |
| Interleaving.StepKeepsOneHost | plugin/src/index.ts:75-472 | in every interleaving all bindings of one workspace, stored or stale, are live and name one host |
| Interleaving.StepKeepsAgreementIff | plugin/src/index.ts:75-472 | any step between two awaits keeps agreement if and only if it is not an answer or a create storing its binding after the lease was lost |
| Interleaving.AgreementLostByLateStore | plugin/src/index.ts:153-181 | in every interleaving, agreement that is gone was taken away by such a step |
| Interleaving.LateStoreLosesAgreement | plugin/src/index.ts:153-181 | and such a step always takes it away |
| Interleaving.SingleSteps | plugin/src/index.ts:264-344 | configuring, an entry-point call and a new process are the operations of those names |
| Interleaving.EveryCallGoesOn | plugin/src/index.ts:75-472 | no call is stuck: a waiting one takes any answer, every other one has its next step |
| Interleaving.UninterruptedCreate | plugin/src/index.ts:279-300 | the steps of an uninterrupted create add up to the create operation |
| Interleaving.UninterruptedRound | plugin/src/index.ts:103-164 | the steps of an uninterrupted status, target or reuse round add up to their operations |
| Interleaving.UninterruptedRemove | plugin/src/index.ts:176-181 | the steps of an uninterrupted removal add up to the remove operation |
| Processes.KeepsTrackedIff | plugin/src/index.ts:75-181 | an operation keeps every running process recorded by a stored binding if and only if every process it starts ends up recorded and no binding it forgets, or records another process for, has one running |
| Processes.LostStaysLost | plugin/src/ssh.ts:346-359 | a process that nothing records is never recorded or signalled again |
| Processes.RunTrackedIff | plugin/src/index.ts:75-181 | over whole runs every running process is recorded at the end if and only if every operation met its condition |
| Processes.CallKeepsTrackedIff | plugin/src/index.ts:75-181 | the same for each call of the plugin that performs one operation |
| Counterexamples.FailedRebindingLosesAgreement | plugin/src/index.ts:297-299 | a create for a bound workspace that fails leaves the binding without its lease |
| Counterexamples.EmptyIdentifierLosesAgreement | plugin/src/provider.ts:50-58 | a create for an empty identifier stores a binding that leases nothing |
| Counterexamples.FailedCreateAfterConfigure | plugin/src/index.ts:264-299 | a configured workspace whose create fails loses the lease it had |
| Counterexamples.ReinitDuringBootLosesExclusion | plugin/src/index.ts:340-343 | the entry point called during a bootstrap ends with two bootstraps on one host |
| Counterexamples.ReinitDuringBootLosesAgreement | plugin/src/index.ts:283-295 | or with a binding stored after its lease was dropped |
| Counterexamples.FailedReuseLosesProcess | plugin/src/index.ts:117-124 | a healthy binding whose session request fails is forgotten, and its process runs on unrecorded |
| Counterexamples.StatusLosesProcess | plugin/src/index.ts:437-439 | so it is when a status round forgets a binding whose process still runs |
| Counterexamples.ReopeningLosesProcess | plugin/src/ssh.ts:114-118 | and when a recovery records another process |
| Counterexamples.SilentStubLeaksTunnel | plugin/src/ssh.ts:73-74 | a create whose stub never gets healthy leaves no lease and no binding, but its tunnel process |
| Counterexamples.FailedSessionLeaksTunnel | plugin/src/index.ts:93-99 | so does a create whose bootstrap succeeds and whose remote session fails |
| Orphans.AgreementCanBeLost | plugin/src/index.ts:153-181 | a run of a status check and a disconnect that ends with a stored binding whose host nobody leases |

## Left out

- StubState.State.CreateWorkspace: for an identifier with '/' in it, empty, "." or "..", only the effect on the maps is stated; where the joined path then leads is not followed.
- StubState.State.DeleteWorkspace: the same.
- StubState.State.CreateSession: the same for an identifier with '/' in it.
- StubState.State.DeleteSession: the same for an identifier with '/' in it.
- Bootstraps.BootstrapsExcludeEachOther: assumes each workspace identifier is not empty and created at most once; the code makes identifiers from the millisecond clock and the workspace name.
- Interleaving.StepKeepsAgreementIff: the same assumption; what other creates do is in `RebindingCreateKeepsAgreementIff`, for one call at a time.
- Processes.KeepsTrackedIff: assumes that a new process has an identifier that is neither running nor recorded, and counts a process as running until it is signalled.
- Tunnels.SSHManager.Bootstrap: installing, hashing and starting the stub over SSH is one yes-or-no outcome.
- Plugin.Plugin.RemoteDoctor: the health request between connecting and cleaning up decides only the report and is not modelled.
- Shared lease mode beyond `Acquire`, `Resolve` and `ResolveIdempotent`: it overwrites other holders, so agreement does not hold in it.
- `acquiredAt` timestamps, and the strategy and labels echoed back by host selection: nothing depends on them.
- `ProviderRegistry` label lists are one sequence per host and provider; duplicates do not matter.
- The permission request's status is changed through a shared pointer outside the lock; the model changes it at the locked update. Nothing that is proved depends on the status.
- Go's fsync behaviour and power loss: a crash stops the process, not the file system.
- HTTP routing, JSON encoding, server-sent events, the health and adaptor endpoints, command output and exit codes.
- `stub/internal/auth/auth.go`, `stub/cmd/main.go` and the configuration defaults in `plugin/src/config.ts`.
- Listing calls that only read: `ListApprovals`, `ListSessions`, `LeaseManager.list`, `hasWorkspace`, and `remote-workspace-list`, whose rounds are those of `EnsureBindingReady`.
- ARCHITECTURE.md line 134 promises symlink blocking; there is no code for it, and matching is on raw strings.
- Lone surrogates in workspace or host names, which Dafny characters do not include.
