# ackOS in Dafny

ackOS turns "change this resource from state A to state B" into a governed lifecycle: observe,
normalise, reconcile, govern, reserve a single-use authority, execute, verify independently, commit.
This project models the parts of it where concurrency, partial failure or recursive data make the
outcome hard to see, and proves what they guarantee. `dafny verify dfyconfig.toml` checks all of it.

**The lifecycle runtime.** `Evidence` has the value types and the pure functions of the kernel.
`KernelSteps` says what each mutex-protected section does to the runtime's fields; `RuntimeClass` is the
code itself, objects updated in place, proved section by section against those functions. `Start` lets go
of the mutex once and `Verify` three times, so `Interleaving` lets any number of calls mix their sections,
with arbitrary executor and verifier answers, clock ticks and outside writes of the root, and proves an
inductive invariant. `StateMachines` says what a run is, for every machine here. `Serialized` is the
reference machine, in which an execution and a verification are single steps; every interleaving is shown
to be, state by state, a run of it. `WholeRuns` has the theorems about runs. `Cooperation` has a measure
that every cooperative call lowers, and `Progress` turns it into runs that reach COMMITTED.

**Controllers.** `HostAdmission` and `McpAdmission` are state machines for callbacks that outlive their
deadline; `ProviderGates` has the gates as objects, proved to move as the Host's machine does. `Adapters`
carries data between kernel and provider. `ControlSteps` is one controlled change as a function and
`ControlSuccess` the exact condition under which it succeeds; `LifecycleCalls`, `HostControl` and `McpServer`
are the methods, over the runtime object, that are proved equal to it. `Turns` spells the change out in
sections of the kernel, and `SharedRuntime` puts the Host's machine beside the kernel: the call that holds
the lifecycle token is alone with the kernel until it gives the token back, whatever other Hosts do.

**Providers.** `MemoryResource` is the versioned in-memory resource. The Git provider takes eight files:
`GitText` (split, join, cut), `GitFormats` (tree listings and commit objects, with their parsers),
`GitOrder` (what is sent to `git mktree`), `GitTrees` (what stored trees denote), `GitRepository` (the git
commands on a growing object store and one branch that others move), `GitPaths` (the tree walks),
`GitClaims` (fingerprints, tokens, commit messages, a commit that changes one file) and `GitProvider`
(`Observe`, `Execute`, `Verify`). `GitHiddenMoves` is a small repository with runs of `Execute` that fail
after the branch has moved. `GitControl` puts Host and Git provider together and says what a nil error means
for the branch and when there is one; `GitControlCase` has a case to which that applies.

## Idealisations

- SHA-256 fingerprints are symbolic: a digest is a constructor applied to what was hashed, so it is
  injective by construction. The code hashes JSON, which maps different invalid UTF-8 strings to one text.
- A character of a `string` stands for one byte. Object names, paths and messages are byte strings in Go.
- A clock reading is never Go's zero time and readings never decrease. Times are integers without bound.
- A channel is a number, fresh for each `Start`; a closed channel is membership in a set.
- Deadlines, grace intervals and cancellations are events that may happen at any moment.
- JSON and base64 decoding are inputs: a payload or an evidence record is what the decoder makes of it,
  and a resource ID is mapped to its path by an arbitrary function, followed by the code's own path check.
- A git command is atomic at one moment; before it other writers may do anything to the branch and add any
  objects. A stored tree always has its subtrees in the store, and an object name is never reused for
  something else; a write that would break this shows as a failed command.

## What the code does that a reader may not expect

- `Host.Control` can leave the runtime in STARTED: the `select` in `Verify` may take the ended context
  although the executor has finished. `ControlSteps.DriveOutcome` has the exact condition (`Stranded`: the
  attempt is authorised and reserved, Start's checks pass, the execution succeeds and the wait for it is
  cancelled), and `HostControl.StrandingHappens` a call on a fresh runtime that meets it. The MCP server
  waits with an uncancellable context and never ends there.
- A callback is refused as "in flight" only when the earlier one has already returned from its provider and
  has not left its gate yet (`HostAdmission.RefusalIsAlwaysLate`), and that does happen
  (`HostAdmission.LateRefusalHappens`).
- A failed Git `Execute` does not mean that the branch was not moved: update-ref may move it and then fail,
  and the read that follows may fail too or find another commit. `GitProvider.FileProvider.Execute` has the
  exact condition, in what update-ref did, what it reported and what the branch read afterwards;
  `GitHiddenMoves.FailedExecuteMayHaveMoved` has a whole run of it for each of the two errors that leave it
  open.
- The bytes sent to `git mktree` can depend on the order of the input: the path check lets a trailing slash
  through, and then a directory and a file can tie in Git's order. `GitOrder.BytesIgnoreInputOrder` has the
  exact condition (`HasTie`: a directory and another entry named like it with a slash at the end), and
  `GitOrder.TrailingSlashTies` two such entries.
- The memory resource's version wraps at 2^64, where a stale execution goes through
  (`MemoryResource.AbaAtWrapAround`).
- `PhaseFailed` and `DecisionStale` are declared in the kernel but no step produces them.

## Model

| member | source | states |
|---|---|---|
| `Evidence.NewObservation` | kernel/kernel.go:67-84 | an observation is built exactly from a non-empty subject and state and an encodable, non-zero time; what is built validates |
| `Evidence.FingerprintBindsObservation` | kernel/kernel.go:86-113 | two valid observations with one fingerprint are equal in every field |
| `Evidence.Reconcile` | kernel/kernel.go:162-184 | succeeds exactly on valid evidence for one subject; the decision is "execute" exactly when before and after differ |
| `Evidence.TransitionBindsEvidence` | kernel/kernel.go:162-184 | a transition's fingerprint determines the observation and the proposal behind it |
| `RuntimeClass.StateStore.CompareAndSwap` | kernel/kernel.go:268-276 | the root changes exactly when it had the expected value |
| `RuntimeClass.Runtime.Observe` | kernel/kernel.go:349-365 | new fields and error are those of `ObserveStep`; nothing else changes |
| `RuntimeClass.Runtime.Normalize` | kernel/kernel.go:367-383 | new fields and result are those of `NormalizeStep` |
| `RuntimeClass.Runtime.Reconcile` | kernel/kernel.go:385-398 | new fields and result are those of `ReconcileStep` |
| `RuntimeClass.Runtime.Govern` | kernel/kernel.go:400-419 | new fields and result are those of `GovernStep` under the runtime's policy |
| `RuntimeClass.Runtime.Reserve` | kernel/kernel.go:421-441 | new fields and authority are those of `ReserveStep` |
| `RuntimeClass.Runtime.BeginStart` | kernel/kernel.go:447-468 | the first section of Start: authority consumed, fresh channel, STARTED, or an error and no change |
| `RuntimeClass.Runtime.FinishStart` | kernel/kernel.go:473-486 | the second section of Start, ignored when its attempt is no longer current |
| `RuntimeClass.Runtime.BeginVerify` | kernel/kernel.go:508-515 | the reservation, granted once per execution at a time |
| `RuntimeClass.Runtime.ReleaseVerificationIfCurrent` | kernel/kernel.go:489-493 | gives back a reservation of the same execution only |
| `RuntimeClass.Runtime.AdmitVerifier` | kernel/kernel.go:526-537 | the verifier's snapshot, or the reservation given back |
| `RuntimeClass.Runtime.FailVerification` | kernel/kernel.go:495-502 | fails the attempt it was started for and no other |
| `RuntimeClass.Runtime.FinishVerify` | kernel/kernel.go:555-562 | VERIFIED for the attempt it was started for and no other |
| `RuntimeClass.Runtime.Commit` | kernel/kernel.go:565-577 | root and phase after commit, and RECOVERY after a conflict |
| `RuntimeClass.Runtime.Recover` | kernel/kernel.go:579-601 | new fields and error are those of `RecoverStep` |
| `Interleaving.StepKeepsKernel` | kernel/kernel.go:349-601 | after any section of any call the phase determines which parts of an attempt exist, they are the reconciliation of the current evidence, and channels and completion times agree |
| `Interleaving.StepKeepsCalls` | kernel/kernel.go:443-563 | every unfinished Start or Verify keeps what it relies on: one executor, one reservation holder, snapshots still current |
| `Interleaving.StepKeepsHistory` | kernel/kernel.go:349-601 | the events of the current attempt spell out the runtime's fields, and every past commit and execution start is backed by its attempt |
| `Interleaving.StepKeepsInv` | kernel/kernel.go:349-601 | the three together are inductive over every interleaving |
| `Interleaving.VerifiedIsBacked` | kernel/kernel.go:565-577 | in VERIFIED the last eight events are one complete successful attempt |
| `Serialized.StepSimulates` | docs/RESEARCH_BOUNDARIES.md:87-95 | every section of every interleaving is a step of the serialized lifecycle or invisible in it, and the call gets the answer of that step |
| `Serialized.StepAnswers` | kernel/kernel.go:349-601 | each call succeeds exactly when its serialized step is taken, and hands out what that step determines: a return from Start or from Verify is the one step at which its execution or its verification happens |
| `Serialized.LeaveStartSimulates` | kernel/kernel.go:470-486 | an execution takes effect at the executor's return, with the root and the clock of its beginning |
| `Serialized.JudgementSimulates` | kernel/kernel.go:539-562 | a verification takes effect at its last section, successfully only with proof |
| `Serialized.ReservationSimulates` | kernel/kernel.go:508-537 | reserving, waiting, cancelling and calling the verifier are invisible |
| `WholeRuns.RunKeepsInv` | kernel/kernel.go:349-601 | the invariant holds after every run |
| `WholeRuns.RunIsSerializable` | docs/RESEARCH_BOUNDARIES.md:87-95 | every concurrent run is matched by one serialized run through the abstractions of all its states, in order, each action answered as its serialized step is |
| `WholeRuns.CommitHistory` | kernel/kernel.go:268-276 | every commit starts from the root the previous write left, is a real change, and follows one complete attempt of its own: evidence, reservation, one successful execution, proof dated after it; no attempt backs two commits |
| `WholeRuns.ReservationsAreSingleUse` | kernel/kernel.go:421-468 | each execution begins right after its own reservation |
| `WholeRuns.AttemptIsFrozen` | kernel/kernel.go:341-365 | from the consumption of the authority no call changes the attempt, until recovery or a new observation after the commit |
| `WholeRuns.OneExecutor` | kernel/kernel.go:470-471 | at most one executor runs, and the unlocked read gave it the observation that was authorised |
| `WholeRuns.GuardsNeverFire` | kernel/kernel.go:474-477 | the re-checks after an executor and after a verifier always find the attempt current |
| `WholeRuns.ReservationHasOneOwner` | kernel/kernel.go:489-563 | the reservation flag is set exactly when one live Verify of the current execution holds it |
| `WholeRuns.StaleVerifierIsInvisible` | docs/RESEARCH_BOUNDARIES.md:91-95 | a verifier of an older attempt changes neither runtime nor history |
| `WholeRuns.CancellationReleasesOwnReservation` | kernel/kernel.go:489-524 | cancelling a wait clears the flag exactly when the cancelled call held it |
| `WholeRuns.ReconcileCannotFail` | kernel/kernel.go:385-398 | Reconcile succeeds exactly in NORMALIZED |
| `WholeRuns.StartFailsExactlyWhen` | kernel/kernel.go:447-459 | in RESERVED, Start fails exactly by expiry or because the root is not the observed state |
| `WholeRuns.SubjectIsLifelong` | kernel/kernel.go:349-365 | the subject of an observed runtime never changes |
| `WholeRuns.RecoveryAcceptsFreshEvidence` | kernel/kernel.go:579-601 | RECOVERY always has a subject and a completion time, and accepts exactly the valid same-subject evidence after it and not in the future |
| `Cooperation.VerifyAloneIsItsSections` | kernel/kernel.go:504-563 | a lone Verify is what its four sections do back to back in any system |
| `Cooperation.StartAloneIsItsSections` | kernel/kernel.go:443-487 | a lone Start whose executor returns at once is what its three actions do back to back in any system |
| `Cooperation.CooperationAdvances` | kernel/kernel.go:349-601 | each cooperative call lowers the rank |
| `Cooperation.CooperationCommits` | kernel/kernel.go:349-601 | from every quiescent runtime, at most ten cooperative calls reach COMMITTED at the target |
| `Progress.CallDoes` | kernel/kernel.go:349-601 | a cooperative call is a run of at most four actions |
| `Progress.ProgressFromAnywhere` | kernel/kernel.go:349-601 | from every reachable state with no call in flight, whatever its phase, there is a run of at most five actions for each unit of the measure, fifty in all, to COMMITTED at the target |
| `Adapters.BeforeObservationIsFaithful` | control/provider_adapters.go:120-127 | an observation is recovered from what the provider is told exactly when it is valid |
| `Adapters.ExecutionAnswer` | control/provider_adapters.go:43-69 | success exactly for an uncancelled call, a nil error and the matching execution ID |
| `Adapters.VerificationAnswer` | control/provider_adapters.go:84-118 | an observation exactly for the expected resource with a usable time; it is valid and carries the provider's data |
| `ControlSteps.FulfilOutcome` | control/host.go:180-224 | a reserved attempt ends committed with everything delivered, or with the root untouched; in STARTED exactly when Start's checks pass, the execution succeeds and the wait is cancelled; never in VERIFIED |
| `ControlSteps.DriveOutcome` | control/host.go:165-224 | the same from an accepted observation on: STARTED exactly when the attempt is also authorised and reserved |
| `ControlSuccess.EnterSucceedsExactly` | control/host.go:150-164 | an observation opens an attempt exactly when it is valid, of the runtime's subject, outside STARTED and VERIFIED, and in RECOVERY newer than the failed execution and not from the future |
| `ControlSuccess.DriveSucceedsExactly` | control/host.go:165-224 | from an accepted observation on, a change succeeds exactly when the root is the observed state, the policy allows this real change, the authority has not expired, the executor succeeds under its ID, the wait is not cancelled and the verifier's evidence is valid, of the desired state, newer than the execution and under a changed token |
| `LifecycleCalls.Start` | kernel/kernel.go:443-487 | the method around one executor callback computes `StartAlone` |
| `LifecycleCalls.Verify` | kernel/kernel.go:504-563 | the method around one verifier callback computes `VerifyAlone`, or changes nothing when its wait is cancelled |
| `LifecycleCalls.AwaitExecutor` | kernel/kernel.go:508-537 | reservation, wait and snapshot; a cancelled wait changes nothing |
| `LifecycleCalls.Settle` | control/host.go:203-223 | Verify and Commit in order compute `JudgeSteps` |
| `LifecycleCalls.Drive` | control/host.go:165-224 | the calls in order compute `DriveSteps` |
| `HostControl.Host.Register` | control/host.go:83-95 | registers exactly a provider that is there, under a non-empty name not yet taken |
| `HostControl.Host.Control` | control/host.go:105-232 | a call that gets as far as an attempt does what `DriveSteps` says, any other changes nothing; the error is nil exactly when the call enters and the attempt meets the condition of `DriveSucceedsExactly`, and then the root went from the observed and expected state to the desired one on fresh, execution-bound evidence; failure leaves the root; STARTED at the end exactly if it was so before or the call entered and its attempt was stranded |
| `HostControl.StrandingHappens` | kernel/kernel.go:517-524 | a call on a fresh runtime, through a state that interleavings reach, is stranded and ends in STARTED |
| `Turns.DriveYields` | control/host.go:165-224 | the sections of a change, in the code's order and at the script's times, are possible one after the other from any state with an accepted observation, and take the kernel where `DriveSteps` says |
| `HostAdmission.StepKeepsInv` | control/provider_gate.go:81-121 | token, gates, wait groups and callbacks stay consistent under every step of every call on every Host |
| `HostAdmission.OneCallbackAtATime` | control/host.go:50-71 | at most one provider callback runs, over all Hosts of a runtime, timed out or not |
| `HostAdmission.TokenIsConserved` | kernel/kernel.go:307-321 | the lifecycle token is in its slot or with exactly one call; acquisitions and releases match |
| `HostAdmission.ReleaseFollowsLastCallback` | control/host.go:66-71 | the token goes back into an empty slot, when no callback runs |
| `HostAdmission.ReleasedOnce` | control/host.go:66-71 | over any run, a call that gives the token back has taken it before and never takes or gives it again |
| `HostAdmission.NilErrorIsOwnCompletion` | control/provider_gate.go:96-120 | a call goes on after a callback exactly when that callback has finished with a nil error |
| `HostAdmission.RefusalIsAlwaysLate` | control/provider_gate.go:81-94 | a refusal happens exactly when the occupant has already returned from its provider |
| `HostAdmission.LateRefusalHappens` | control/host.go:54-63 | there is a run with such a refusal and no callback running |
| `SharedRuntime.TurnIsOwn` | kernel/kernel.go:307-321 | until the holder of the lifecycle token gives it back, every section of the kernel is its own, over all Hosts, and the runtime does what these sections do alone |
| `SharedRuntime.HolderFindsItsKernel` | kernel/kernel.go:307-321 | between two sections of the holder only time passes in the kernel |
| `SharedRuntime.HolderDrives` | control/host.go:105-232 | a controlled change by the holder of a shared runtime's token has the outcome of `DriveSteps`, whatever other Hosts and late callbacks do meanwhile |
| `ProviderGates.ProviderGate.TryEnter` | control/provider_gate.go:27-36 | admits exactly when free; a refusal leaves the owner |
| `ProviderGates.Gates.ForProvider` | control/provider_gate.go:56-69 | one gate per name, made free on first use, never shared |
| `ProviderGates.Gates.Enter` | control/provider_gate.go:81-94 | admission on the objects is the admission of the Host's machine, with the same answer, and keeps each gate busy exactly when the machine has it occupied |
| `ProviderGates.Gates.Exit` | control/provider_gate.go:38-43 | leaving on the objects is leaving in the machine |
| `ProviderGates.Gates.OtherStepsKeepGates` | control/provider_gate.go:81-121 | no step changes a Host's gates except entering or leaving one of them, those at other Hosts' gates included |
| `McpAdmission.StepKeepsInv` | integrations/mcp/server.go:146-269 | gate, lifecycle token, callbacks and their log stay consistent under every step |
| `McpAdmission.GateIsConserved` | integrations/mcp/server.go:146-157 | the gate token is in the gate or with exactly one callback |
| `McpAdmission.AdmissionSeesLateEffects` | integrations/mcp/server.go:184-208 | a callback, a recovery observation in particular, is let in only when every earlier one has returned |
| `McpAdmission.CallbacksNeverOverlap` | integrations/mcp/server.go:184-269 | over a whole run, each callback has ended before the next one begins |
| `McpAdmission.ResultIsOwn` | integrations/mcp/server.go:222-237 | a delivered result is that of the call's own callback, which has returned |
| `McpAdmission.RecoveryMayOutrunExecutor` | integrations/mcp/server.go:240-269 | there is a run in which a recovery asks for its observation while a timed-out executor still runs |
| `McpServer.SeenByProvider` | integrations/mcp/server.go:127-144 | an answer is accepted exactly when it is what some valid observation of the subject asked for looks like, and that observation is the result |
| `McpServer.Server.New` | integrations/mcp/server.go:76-121 | a server is made exactly from a provider or from all of executor, verifier and both observers, and starts settled |
| `McpServer.Server.Control` | integrations/mcp/server.go:329-450 | with a provider or with its own four parts, a control call does what `DriveSteps` says or changes nothing, gives its token back, ends in STARTED or VERIFIED only if it found the runtime there, moves the root only to the desired state on proof, and has a nil error exactly when it enters and meets the condition of `DriveSucceedsExactly` |
| `MemoryResource.Resource.Execute` | integrations/memory/provider.go:62-84 | new state and refusal are those of `ExecuteOn`; no change when the context has ended |
| `MemoryResource.Resource.Verify` | integrations/memory/provider.go:86-109 | success exactly when `VerifyOn` accepts |
| `MemoryResource.Resource.Set` | integrations/memory/provider.go:111-117 | new fingerprint, next version, no execution |
| `MemoryResource.VersionCountsMutations` | integrations/memory/provider.go:80-81 | after any operations the version has advanced by the number of mutations, modulo 2^64 |
| `MemoryResource.StaleExecutionExactly` | integrations/memory/provider.go:71-76 | an execution on an old observation goes through exactly after a multiple of 2^64 mutations that restored the fingerprint |
| `MemoryResource.NoAba` | integrations/memory/provider.go:71-76 | below 2^64 mutations it goes through exactly when there were none |
| `MemoryResource.AbaAtWrapAround` | integrations/memory/provider.go:80-81 | at 2^64 mutations it can go through |
| `MemoryResource.VerifyMeansLastWriter` | integrations/memory/provider.go:97-102 | with unique execution IDs, Verify confirms an execution exactly when it went through, set what is expected and was the last mutation |
| `GitText.SplitJoin` | integrations/git/provider.go:158 | splitting undoes joining for parts without the separator |
| `GitText.JoinInjective` | integrations/git/provider.go:574-577 | joined slash-free names can be told apart, so nested directories never collide |
| `GitFormats.ReadRecords` | integrations/git/read.go:78-101 | the parsing loop computes `ParseTreeText` |
| `GitFormats.TreeTextRoundTrip` | integrations/git/tree.go:32-41 | parsing a printed listing gives back the entries in order, names with tabs, spaces and newlines included |
| `GitFormats.ReadHeaders` | integrations/git/read.go:33-60 | the header loop computes `ParseCommit` |
| `GitFormats.CommitRoundTrip` | integrations/git/read.go:33-60 | for any tree, parents, extra or continuation lines and any message, parsing the commit text gives exactly tree, parents in order and message |
| `GitFormats.IdentityLineIsExtra` | integrations/git/commit.go:48-58 | an identity that passes the check prints as a header line that commit parsing skips, so it cannot pose as a tree, a parent or the end of the headers |
| `GitOrder.CheckEntries` | integrations/git/tree.go:12-30 | accepts exactly valid entries with distinct paths |
| `GitOrder.KeysDifferExactly` | integrations/git/tree.go:60-70 | distinct paths have distinct sort keys exactly without a tie |
| `GitOrder.SortedOrderIsUnique` | integrations/git/tree.go:31 | entries with distinct sort keys have one sorted order only |
| `GitOrder.BytesIgnoreInputOrder` | integrations/git/tree.go:31-41 | for valid entries with distinct paths, the bytes do not depend on the input order exactly when no directory and other entry tie |
| `GitOrder.SlashFreeHasOneText` | integrations/git/tree.go:31-41 | valid entries with distinct names without a slash have one printed text, whatever their input order |
| `GitOrder.TrailingSlashTies` | integrations/git/tree.go:60-70 | two tied entries that pass the path check, with two sorted orders of different bytes |
| `GitOrder.WrittenTreeReadsBack` | integrations/git/tree.go:11-51 | what WriteTree prints parses to the validated entries in sorted order |
| `GitTrees.DenotesIsStable` | integrations/git/read.go:63-102 | a tree keeps its meaning while objects are added |
| `GitTrees.DenotesIsUnique` | integrations/git/read.go:63-102 | a tree denotes one directory |
| `GitTrees.PermutedListing` | integrations/git/tree.go:31 | the order of a listing does not matter for its meaning |
| `GitTrees.ReplaceIsExact` | integrations/git/provider.go:528-565 | a replacement changes the leaf at its path and no other, at any depth |
| `GitTrees.IndexAfterReplace` | integrations/git/provider.go:567-592 | the flattened index of a replacement is the old index with one entry changed |
| `GitRepository.Repository.ReadRef` | integrations/git/read.go:10-23 | the tip at that moment, valid, or an error |
| `GitRepository.Repository.ReadCommit` | integrations/git/read.go:25-61 | the parsed commit of the store, or an error |
| `GitRepository.Repository.ReadTree` | integrations/git/read.go:63-102 | the stored listing itself, through the printed records and their parser |
| `GitRepository.Repository.WriteTree` | integrations/git/tree.go:11-51 | a written tree lists the given valid, distinct entries in Git's order |
| `GitRepository.Repository.CommitTree` | integrations/git/commit.go:9-46 | a written commit reads back with the given tree, parents and message, under checked identities |
| `GitRepository.Repository.UpdateRef` | integrations/git/ref.go:9-21 | moves the branch at most once, only from the expected value, and the ghost result says whether; a nil error means it did; an error leaves both open; it fails only when a command fails |
| `GitRepository.HiddenMove` | integrations/git/ref.go:9-21 | from every branch at the expected value there is a run of update-ref that moves it and reports an error |
| `GitPaths.ReadPath` | integrations/git/provider.go:508-526 | finds exactly what the tree has at the path, if no command fails |
| `GitPaths.ReplacePath` | integrations/git/provider.go:528-565 | a successful result denotes the input tree with the leaf of an existing regular file replaced; undisturbed, it succeeds on every such file whose listings can be written again |
| `GitPaths.FlattenTree` | integrations/git/provider.go:567-592 | the result is the index of all leaves below the tree by full path |
| `GitPaths.CompareTreeLeaves` | integrations/git/provider.go:594-610 | accepts exactly equal path sets with equal entries everywhere but at the target |
| `GitPaths.ReplacementIsExact` | integrations/git/provider.go:528-592 | flattening before and after a replacement differs in the target's mode and object only, despite the re-sort |
| `GitPaths.ReadingAgreesWithIndex` | integrations/git/provider.go:508-592 | a path reads as a non-directory entry exactly when the index has it, with that mode and object |
| `GitClaims.TipTokenRoundTrip` | integrations/git/provider.go:412-421 | a token parses exactly to the valid tip it was made for |
| `GitClaims.MessageBindsExecution` | integrations/git/provider.go:337-339 | commit messages are equal exactly for equal execution IDs |
| `GitClaims.FingerprintIsUnambiguous` | integrations/git/provider.go:80-87 | file fingerprints are equal exactly for equal modes and contents |
| `GitClaims.MatchedFileIsExact` | integrations/git/provider.go:80-87 | a commit has the file of a fingerprint exactly when it has that mode and those bytes |
| `GitClaims.ComparingIndexes` | integrations/git/provider.go:294-304 | comparing the two indexes is comparing the two trees outside the target |
| `GitProvider.FileProvider.Observe` | integrations/git/provider.go:89-119 | the fingerprint is that of the file at a tip the branch had during the call, and the token names that tip; undisturbed, a regular file at the tip is always observed |
| `GitProvider.FileProvider.Execute` | integrations/git/provider.go:121-230 | under any interference the branch is moved at most once, only from the authorised tip to the execution's own commit on top of it; success means the branch was there during the call; after update-ref there is an error exactly when it reported one and the branch does not read as the new commit, and which error is determined by that reading; an error hides a move exactly when update-ref moved, reported failure and the reading differs; if nobody else moves the branch, no command fails and nothing stands in the way of the request, it succeeds and the branch ends at that commit |
| `GitProvider.MoveMayBeHidden` | integrations/git/provider.go:204-228 | wherever update-ref would move the branch, an error can hide the move, whatever other commit or none the branch then reads as |
| `GitProvider.FileProvider.PreparedMoveMayBeHidden` | integrations/git/provider.go:204-228 | whenever update-ref begins on a prepared request with the branch at the authorised tip, the move can be hidden behind each error that the reading determines |
| `GitHiddenMoves.FailedExecuteMayHaveMoved` | integrations/git/provider.go:121-230 | on a repository with one file, a request with nothing in its way whose commit is prepared undisturbed and whose own move is made, and the answer is that the outcome is unknown, or that the branch was overtaken |
| `GitProvider.FileProvider.Verify` | integrations/git/provider.go:232-335 | success means that the whole claim is true and the branch was at the result at the last look; undisturbed, it succeeds exactly then |
| `GitProvider.FileProvider.ConfirmedIsExact` | integrations/git/provider.go:232-335 | a confirmed claim pins mode, bytes, sole parent and execution ID |
| `GitProvider.FileProvider.ExecuteThenVerify` | integrations/git/provider.go:121-335 | after a successful Execute, an undisturbed Verify confirms exactly when the branch is still at the result commit |
| `GitControl.FileControl.Control` | control/host.go:105-232 | Host and Git provider together: a nil error means that the change was delivered, the branch was at the observed tip during the call and, at the last look, at another commit that carries this attempt's execution ID, whose only parent is that tip and whose only difference is the desired file; an error leaves the root; if the runtime is open, the branch can take the change, the policy is willing, nobody else moves the branch, no command fails and the clock moves on in time, the error is nil |
| `GitControl.FileControl.ChangedIsExact` | integrations/git/provider.go:232-335 | the changed file has exactly the mode and the bytes that its approved fingerprint was made of, in a commit of this attempt on top of the observed tip alone |
| `GitControlCase.ChangeIsPossible` | integrations/git/provider.go:121-230 | a repository, a request and a translation that meet the condition for success |

## Left out

- `GitRepository.Repository.WriteTree`: does not model `--missing` subtrees, because a stored tree is taken to have its subtrees in the store.
- `GitRepository.Repository.ReadTree`: does not model modes that git itself would not print, nor partial clones.
- `GitProvider.FileProvider.Locate`: the base64 and JSON of a resource ID are an arbitrary function, so nothing is claimed about its injectivity.
- `HostControl.Host.Control`: is one call with nobody else on the runtime. That other calls through Hosts leave it so is in `SharedRuntime`; clients that call the kernel past the lifecycle token are in `Interleaving`.
- `GitControl.FileControl.Control`: its callbacks run to their end; a call that is cut short by a deadline ends in an error, as `HostControl.Host.Control` and `HostAdmission` have it. Its sequence of calls is that of `LifecycleCalls`, written out again around the provider's methods, since a method cannot be passed to a method.
- `GitFormats.ValidIdentity`: white space is ASCII white space, where Go's `TrimSpace` knows Unicode too.
- Running git, its environment and repository discovery: only each command's effect on objects and branch is modelled, for one branch.
- Ref-name checks: they only filter requests; a refused name is one more failed command.
- The bodies of JSON, base64 and SHA-256, and error texts and metadata.
- Copying of evidence bytes and payloads against aliasing: they are immutable values here.
- The HTTP adapter, MCP SDK wiring, JSON schemas and the command-line programs: plumbing.
- The synthetic provider: the memory provider's shape once more.
- Overflow of time arithmetic, and of Go's `UnixNano` in execution IDs: times are unbounded integers.
- Crash, restart and distribution: outside the runtime's own scope (docs/ARCHITECTURE.md:60-66).
- Liveness of waiting: a callback that never returns keeps its token or gate for ever, in the model as in the code.
