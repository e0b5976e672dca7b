# A verified model of the S3 lease

Processes share one object in a conditional store and use it as a lease: whoever replaced the record last with its own
identity holds it until a local deadline, and every acquisition gets a larger fencing epoch. This project models that
protocol, the fenced manifest that checks the epochs, and the two recipes that hold a lease on a caller's behalf, and
proves what they promise, for every number of processes, every interleaving and every loss, delay or repetition of a
request. `dafny verify dfyconfig.toml` checks everything.

## How it is built

The lease client is modelled twice. `LeaseCore` has the source's objects: a client whose fields change in place, the
leases, observations and frozen proposals it points to, and one method for each block that runs under the state lock.
`LeaseClient` has the same blocks as functions on values, and every method of `LeaseCore` is proved to take the object's
value exactly where the function takes it. Object identity becomes a number in the value: a lease is its position among
the grants, a proposal has its own number, and the identity of an observation, which is what tells a superseded read, is
the count of observations installed.

`LeaseSystem` puts any number of such clients around one object. An operation is split into its locked blocks, its
requests, the store's commits and the replies, and those of all processes interleave freely with each other, with any
number of overlapping reads and with expiry callbacks however late. A sent write may commit at any later time or never,
whatever its sender was told. `LeaseLog` says what the committed history looks like, `LeaseInvariant` what every process
knows about it, `LeasePreservation` and `LeaseSteps` prove that every step keeps that, `LeaseHistory` what one step may do
to a client, and `LeaseTheorems` and `LeaseRetention` draw the guarantees. `LeaseAnswers` and `LeaseOutcomes` say exactly what each
operation answers and leaves behind, in terms of the log, the clock and what was observed when; `LeaseCauses` why leases
retire, and `LeaseLoss` what a holder may conclude. `LeaseWitness`, `DropWitness` and `TakeoverWitness` are concrete runs.

`ManifestRecords`, `ManifestLog`, `ManifestStore` and `ManifestWriter` do the same for the manifest, with the writer's
retry loop as a method on an object and the rest of the world as a script played between its requests.
`EndToEndFencing` joins both protocols. `Lifecycle`, `Holder`, `ManualMutex` and `MutexOwnership` are about the recipes:
the first three about one holder, the last about all holders of one mutex together with the client's mutation lock. A
renewal that its holder stopped waiting for may be under way when the mutex is free again. It cannot meet a later holder in
the client: one mutation is inside at a time, the next lease is granted only when it has left, and from then on the client
refuses the earlier lease. `MutexWitness` runs through that case.

## Environment

- Every commit gives the object a version it never had before (here: its position in the log), and a success reply names
  the version that this very write became. A rejection says nothing: the write may have committed before.
- The object is never deleted, and nobody but these clients writes it.
- Clocks run at one rate with arbitrary offsets and never show the zero time; durations of different processes are
  unrelated. Times are mathematical integers in nanoseconds.
- Two renewals built by one process never carry equal records. A readback compares records (`lease/operations.go:529`),
  and a proposal can be dropped while its write is still under way (`lease/operations.go:485`, `497`), so with a standing
  clock a later renewal could be taken for an earlier one. `LeaseSystem.FreshRenewal` is this assumption; it is needed
  only against renewals the same process has already sent.
- For the manifest, a conflict reply or another definite failure means that this send did not and will not commit; only an
  unknown outcome leaves a write that may land later.
- In the recipes, clock readings do not go back. A manual lock's release additionally takes for granted that, once its
  renewal loop reported the lease as lost, the lease's check fails. `LeaseLoss.LossShows` and `LeaseLoss.DoneShows` prove
  that of the client, in every run, for errors of the store and of a context that are not themselves lease losses.

## Findings

- `confirmRelease` installs its record without looking at what was observed meanwhile, so the observed (epoch, sequence)
  can go back. `LeaseTheorems.ObservedMonotone` says exactly when, and `LeaseWitness.ReleaseReplacesNewer` reaches it.
  Safety does not suffer: a stale observation only lets a later write fail.
- The design document (`docs/s3_lease_high_level_design.md:172`) has a different proposal wait until the outcome of the
  last one is known or local authority ended. The code drops a pending renewal when its next request is refused before the
  phase ends (`lease/operations.go:485`) or answered by an error that is neither an unknown outcome nor a conflict
  (`lease/operations.go:497`). If the renewal was sent before with an unknown outcome, the rule is broken: another renewal is
  frozen while the first may still commit. The model takes a definite error to say nothing about the write it answers, so it
  counts such a drop as breaking the rule even without an earlier unknown outcome. `LeaseRetention.RuleBreaksByDropping` proves that for a renewal that was sent
  this is the only way, and always is one; `LeaseRetention.OpenRenewalWasDropped` says the same with the first write still
  acceptable to the store; `DropWitness.AnotherWhileOpen` is a run that does it, and in which the first write then commits.
  The guarantees hold nevertheless, given the assumption about equal renewals above. Dropping a renewal that was never sent
  does not touch the rule.

## Model

| member | source | states |
|---|---|---|
| LeaseRecords.AdvertisedExceedsDeadline | lease/core.go:129-158 | an accepted configuration advertises its duration without loss and longer than its own renew deadline |
| LeaseRecords.TransitionsAccepted | lease/record.go:71-178 | every acquisition, renewal and release of an accepted record is accepted again, comes after it and is compatible with it; counters do not overflow, identity is permanent, an epoch keeps its start and terms |
| LeaseRecords.InitialAccepted | lease/record.go:122-145 | the record a create proposes is accepted by readers |
| LeaseCore.Core.RetireLeaseLocked | lease/core.go:231-248 | retiring is sticky, stops the timer, closes done and clears the active lease, and touches nothing else |
| LeaseCore.Core.TimerFires | lease/core.go:250-262 | a stale or early expiry callback changes nothing |
| LeaseCore.Core.CheckLease | lease/core.go:210-229 | the check retires an overdue lease and reports why a lease is unusable, a null one included |
| LeaseCore.Core.SetTerminalLocked | lease/core.go:291-299 | the first terminal error sticks and retires the active lease |
| LeaseCore.Core.PrepareToRequire | lease/operations.go:214-234 | drops what has run out, then refuses while anything is held or unresolved |
| LeaseCore.Core.FindPending | lease/operations.go:236-252 | finds the proposal to reconcile, and refuses a foreign lease or another kind of proposal |
| LeaseCore.Core.ValidateActiveLocked | lease/operations.go:254-279 | each reason to refuse, a null or foreign lease included, and which of them retire the lease |
| LeaseCore.Core.FinishReadLocked | lease/operations.go:281-369 | the locked half of a read: superseded, missing, malformed, contradicting and newer replies, with the observation installed |
| LeaseCore.Core.RetireIfObservationLostLocked | lease/operations.go:371-389 | an observation that does not sustain the active lease retires it, its own pending renewal excepted |
| LeaseCore.Core.Freeze | lease/operations.go:433-447 | a frozen proposal is a new object with the given contents |
| LeaseCore.Core.ConfirmAcquired | lease/operations.go:408-459 | grants the lease with a deadline counted from the first send, or refuses because it is late or superseded |
| LeaseCore.Core.SnapshotForRenewal | lease/operations.go:92-100 | what a renewal is built from |
| LeaseCore.Core.SetPendingRenewal | lease/operations.go:102-132 | a renewal becomes pending only if its lease is still good |
| LeaseCore.Core.SnapshotForRelease | lease/operations.go:153-162 | a release retires its lease before anything is built |
| LeaseCore.Core.SetPendingRelease | lease/operations.go:164-189 | the release becomes pending |
| LeaseCore.Core.ConfirmRenewed | lease/operations.go:549-582 | extends the lease to the first send plus the renew deadline, or retires it when the confirmation comes late |
| LeaseCore.Core.ConfirmReleased | lease/operations.go:584-607 | installs the released record if the release is still the pending one |
| LeaseCore.Core.AbandonExpiredPending | lease/operations.go:609-623 | clears the proposal and expires the lease of a renewal |
| LeaseCore.Core.LosePendingProposal | lease/operations.go:625-635 | clears the proposal and loses the lease of a renewal |
| LeaseRecords.ConfigAccepted | lease/core.go:129-158 | exactly which configurations are accepted: named, whole seconds, request timeout below renew deadline below duration |
| LeaseLog.CommitsAccepted | lease/record.go:71-91 | every committed record passes a reader's validation, with counters in range |
| LeaseLog.CommitsOrdered | lease/record.go:93-106 | commits keep the UID, grow strictly in (epoch, sequence), and each is first sent after its predecessor committed |
| LeaseLog.CommitTerms | lease/record.go:147-178 | a commit advertises its writer's terms, has no owner exactly if it is a release, and sequence 1 exactly if it acquires |
| LeaseLog.EpochHasOneOwner | lease/record.go:147-178 | all commits of one epoch are one process's; only the first acquires, only the last can release |
| LeaseLog.TakeoverWaits | lease/operations.go:400-406 | a later epoch is first sent a full advertised duration after any commit of an epoch that was not released |
| LeasePreservation.FinishReadKeeps | lease/operations.go:337-369 | no reply the store can give to a read that is not superseded makes the client terminal, and the invariant is kept |
| LeasePreservation.ConfirmAcquisitionKeeps | lease/operations.go:408-459 | a confirmed acquisition, whatever was observed meanwhile, keeps the invariant |
| LeasePreservation.ConfirmRenewalKeeps | lease/operations.go:549-582 | a confirmed renewal keeps the invariant without comparing observations |
| LeaseSteps.NextKeeps | lease/operations.go:12-190 | every step of every operation, of the store and of the clock keeps the invariant of the whole system |
| LeaseSteps.RunKeeps | lease/operations.go:12-190 | the invariant holds in every reachable state |
| LeaseHistory.PhaseEndsAtAuthority | lease/operations.go:541-547 | a frozen renewal's phase ends exactly with the authority it would extend |
| LeaseHistory.StepEvolves | lease/operations.go:541-643 | one step leaves a retired lease alone, extends a live one only while it has time, closes done once, expires it no earlier than due, and moves the observation back only by confirming a release |
| LeaseTheorems.MutualExclusion | lease/operations.go:400-459 | at any moment of any run at most one lease of one process passes its check |
| LeaseTheorems.EpochOutlastsDeadline | lease/operations.go:400-406 | when the store has moved on from an unretired lease's epoch, its deadline has passed |
| LeaseTheorems.LiveLeaseIsCurrent | lease/operations.go:36-71 | a live lease's epoch is the stored one, written by its process |
| LeaseTheorems.GrantsDistinct | lease/operations.go:36-71 | no two grants share an epoch |
| LeaseTheorems.GrantHasAcquisition | lease/operations.go:36-71 | every grant comes from exactly one acquisition commit of its own process |
| LeaseTheorems.GrantOrder | lease/record.go:147-159 | acquisition commits are in the order of their grants' epochs, both ways |
| LeaseTheorems.RegisterRefined | lease/operations.go:98-189 | every step is no change or one operation of a timed register: create, takeover after the advertised wait, renewal or release by the granted process, the release only after its lease is retired |
| LeaseTheorems.ProposalCommitsOnce | lease/operations.go:462-506 | a proposal commits at most once, however often it is resent |
| LeaseTheorems.ReleaseEndsEpoch | lease/record.go:171-178 | a release is followed only by a takeover into the next epoch |
| LeaseTheorems.ObservationSound | lease/operations.go:281-369 | an observation is a committed pair, dated no earlier than the first send of its write; no client ever turns terminal |
| LeaseTheorems.ClientState | lease/operations.go:214-279 | a lease is active or retired, done closed exactly when retired; while active it is sustained by the observation and only its own renewal is pending |
| LeaseTheorems.AuthorityFixed | lease/operations.go:549-581 | the deadline is the first send of the unique commit with the lease's epoch and sequence plus the renew deadline |
| LeaseTheorems.RefusedRenewalRetires | lease/operations.go:74-133 | a renewal refused for the lease's sake, by admission, validation, readback, expiry or late confirmation, leaves the lease retired; building it fails exactly when the sequence counter is exhausted |
| LeaseTheorems.CheckMeans | lease/core.go:210-229 | in a reachable state a check passes exactly for an unretired lease before its deadline, and else reports the cause recorded |
| LeaseTheorems.NoRevival | lease/core.go:210-262 | a retired lease never changes again, and a lease whose check would fail once never passes later |
| LeaseTheorems.NoEarlyExpiry | lease/core.go:250-262 | a lease newly retired as expired is at or past its own deadline |
| LeaseTheorems.ObservedMonotone | lease/operations.go:348-366 | the observed (epoch, sequence) goes back if and only if the step confirms a release older than what is observed |
| LeaseTheorems.BoundedBlocking | lease/operations.go:214-234 | a new acquisition is admitted if and only if the active lease and the pending proposal have run out, and always one renew deadline after the proposal's first send |
| LeaseAnswers.ReadInstalls | lease/operations.go:281-369 | a finished read installs the commit it fetched unless something newer was observed since it started, keeps the date if the version is the observed one, and hands its caller what is observed then |
| LeaseAnswers.ReadDetects | lease/operations.go:300-347 | whatever a store answers, a read stops the client exactly if it shows a malformed or contradicting object, no version, or no object where one was observed |
| LeaseAnswers.UnchangedSince | lease/operations.go:348-358 | the date of the observed version is that of one step, at which it was first read or confirmed as the client's own write; from then on the version was observed without a break and the date never moved |
| LeaseAnswers.DateStays | lease/operations.go:348-358 | while one version stays observed, only confirming it as an own write moves its date, to the first send |
| LeaseAnswers.TakeoverProposed | lease/operations.go:24-52 | a create if nothing was found; a takeover if and only if what was found is released or was unchanged for as long as it advertises; otherwise the answer is not eligible |
| LeaseAnswers.TakeoverWaitsFromFirstRead | lease/operations.go:400-406 | an unreleased record is taken over if and only if as much time passed since its first read as it advertises, however often it was read again |
| LeaseAnswers.GrantedExactly | lease/operations.go:408-459 | a committed acquisition is granted if and only if it is confirmed in time, not canceled, and nothing newer was observed; the lease then passes its check until one renew deadline after the first send |
| LeaseOutcomes.RequireAnswers | lease/operations.go:214-234 | which of held, unresolved and admitted Require answers, and what it expires and drops |
| LeaseOutcomes.Admits | lease/operations.go:236-252 | Renew and Release start, reconcile their own pending proposal, or refuse |
| LeaseOutcomes.RenewalValidated | lease/operations.go:92-100 | a renewal goes on exactly from a lease with time left whose backing commit is the one observed; any other lease retires with the stated cause |
| LeaseOutcomes.ReleaseValidated | lease/operations.go:153-162 | so does a release, which retires the lease at once |
| LeaseOutcomes.Builds | lease/operations.go:102-120 | a renewal is the backing record one sequence later, a release the same without an owner; either fails exactly if the sequence cannot grow |
| LeaseOutcomes.Freezes | lease/operations.go:121-189 | a renewal becomes pending exactly if its lease is still good, a release always |
| LeaseOutcomes.ReadRetiresExactly | lease/operations.go:371-389 | a read costs the active lease if and only if the fetched commit neither backs it nor is that of its pending renewal |
| LeaseOutcomes.ReadbackResolves | lease/operations.go:528-539 | a readback confirms if and only if it shows the proposal's own commit, stays open on the replaced version, and loses otherwise |
| LeaseOutcomes.RepliesLead | lease/operations.go:478-507 | where each reply to a renewal or release leads |
| LeaseOutcomes.ExpiredIsGivenUp | lease/operations.go:609-623 | what runs out is given up and expires its lease; a request refused earlier is only dropped |
| LeaseOutcomes.RenewalExtends | lease/operations.go:549-582 | a confirmed renewal extends its lease to one renew deadline after its first send if and only if the lease is unretired and in time |
| LeaseOutcomes.ReleaseConfirms | lease/operations.go:584-607 | a confirmed release is observed and touches no lease |
| LeaseOutcomes.ExpiresExactly | lease/core.go:210-262 | a timer callback and a check expire their lease if and only if it is unretired and overdue |
| LeaseCauses.RetiresForCause | lease/operations.go:254-279 | a lease retires because it is overdue, by its own release, or because a later commit exists that is not that of its pending renewal |
| LeaseCauses.InTimeOnlyByOwnDoing | lease/operations.go:371-389 | before its deadline a lease retires only by its own release or because a renewal its client had dropped was committed |
| LeaseCauses.CommittedRenewalKeepsLease | lease/operations.go:371-389 | a committed renewal keeps its lease alive up to the deadline for as long as it is pending, whatever is read meanwhile |
| LeaseCauses.ReadbackExtends | lease/operations.go:528-582 | a renewal whose reply was lost and which is read back and confirmed before the deadline leaves its lease good, until one renew deadline after its first send |
| LeaseRetention.PendingEnds | lease/operations.go:462-506 | while its lease lives, a pending renewal stops being pending if and only if it is confirmed or dropped; while it may still commit, only by being dropped |
| LeaseRetention.RuleBreaksByDropping | lease/operations.go:478-506 | over any stretch of a run, a sent renewal gives way unconfirmed under a live lease if and only if some step dropped it |
| LeaseRetention.OpenRenewalWasDropped | lease/operations.go:478-506 | the same when the store would still accept the renewal at the end |
| LeaseLoss.LossShows | lease/operations.go:74-133 | after a Renew reported that its lease is lost, no check of that lease passes for the rest of the run |
| LeaseLoss.DoneShows | lease/core.go:210-248 | nor after the lease's done channel closed |
| LeaseLoss.OnlyNewestProceeds | lease/operations.go:236-279 | a Renew or Release of any lease but the one granted last is refused before anything is proposed, and changes nothing |
| LeaseWitness.Acquires | lease/operations.go:12-72 | a run in which a process holds a lease |
| LeaseWitness.ReleaseReplacesNewer | lease/operations.go:584-607 | a run whose last step replaces a newer observation by the released record |
| DropWitness.AnotherWhileOpen | lease/operations.go:497 | a run in which another renewal is frozen under a good lease while the dropped one may commit, and then does |
| TakeoverWitness.SecondIsGranted | lease/operations.go:408-459 | a run in which a second process is granted what the first released |
| TakeoverWitness.WaiterIsGranted | lease/operations.go:400-459 | a run in which it waits out an unreleased lease, reading it before and after, and is granted |
| ManifestRecords.TrimMeans | examples/fencedmanifest/manifest.go:383 | trimming takes the white space off both ends and nothing else |
| ManifestRecords.NewRequest | examples/fencedmanifest/manifest.go:379-400 | which requests are admitted and which refused, and that an admitted one carries the trimmed identifier, the compacted payload and their digest |
| ManifestRecords.PreparedExactly | examples/fencedmanifest/manifest.go:418-440 | exactly when a request goes ahead, needs nothing any more, or is refused, and for which reason |
| ManifestRecords.ProceedMeans | examples/fencedmanifest/manifest.go:418-440 | a request goes ahead only as a publication in the accepted epoch or an activation above it, with a mutation ID not in the history |
| ManifestRecords.InitialValid | examples/fencedmanifest/manifest.go:402-416 | a created record is acceptable to readers |
| ManifestRecords.ResultValid | examples/fencedmanifest/manifest.go:442-453 | appending with truncation keeps a record acceptable: history length, epoch order, activations, distinct IDs |
| ManifestRecords.HistoryStatus | examples/fencedmanifest/manifest.go:318-329 | matched if the very mutation is in the history, conflict if only its ID is |
| ManifestRecords.CheckHistory | examples/fencedmanifest/manifest.go:523-550 | the loop accepts exactly the histories with that shape |
| ManifestLog.CommitMeans | examples/fencedmanifest/manifest.go:442-453 | every commit is acceptable, has revision one more than the last, one resource UID, and ends its history with its own mutation |
| ManifestLog.CommitFenced | examples/fencedmanifest/manifest.go:418-453 | a publication commits only on its own accepted epoch; an activation only above, leaving the payload |
| ManifestLog.EpochsMonotone | examples/fencedmanifest/manifest.go:418-453 | accepted epochs never go back over the whole log, and an activation ends all smaller ones |
| ManifestLog.RecordIsSummary | examples/fencedmanifest/manifest.go:442-453 | the stored record is the newest eight mutations and the last publication of the whole log |
| ManifestLog.SnapshotShows | examples/fencedmanifest/manifest.go:489-506 | a snapshot shows the last commit's epoch, revision and mutation, the last publication, and the newest mutations in order |
| ManifestLog.ContainedWasCommitted | examples/fencedmanifest/manifest.go:318-329 | a mutation found in the history was committed by one of the last eight commits |
| ManifestWriter.EnvironmentSettlesNothing | examples/fencedmanifest/manifest.go:331-346 | whatever others commit and whatever arrives late, only the unresolved proposal of this writer can land meanwhile |
| ManifestWriter.Writer.NoFalseAlarm | examples/fencedmanifest/manifest.go:348-370 | what is remembered never contradicts the stored record |
| ManifestWriter.Writer.Read | examples/fencedmanifest/manifest.go:348-377 | returns the record current when read and remembers it; fails only if the store fails or there is no object |
| ManifestWriter.Writer.Judge | examples/fencedmanifest/manifest.go:354-369 | exactly which records are refused as invalid, of another object, or rolled back, whoever wrote them |
| ManifestWriter.Writer.ReadManifest | examples/fencedmanifest/manifest.go:150-171 | the public read never reports a changed, rolled-back or disappeared object |
| ManifestWriter.Writer.SendPending | examples/fencedmanifest/manifest.go:331-346 | a success settles the proposal with one commit; an unknown outcome makes it ambiguous for good; undisturbed it succeeds if and only if it expects the current version |
| ManifestWriter.Writer.ResolvePending | examples/fencedmanifest/manifest.go:266-316 | confirms, resends, rebases only what is not ambiguous, and otherwise keeps an ambiguous proposal; which of these, undisturbed, by the current record |
| ManifestWriter.Writer.Prepare | examples/fencedmanifest/manifest.go:211-244 | on the record read: sends if and only if the request is new, in the right epoch and the revision can grow, finishes if and only if it stands already, and otherwise fails for exactly the stated reason |
| ManifestWriter.Writer.Attempt | examples/fencedmanifest/manifest.go:189-255 | one attempt settles at most one commit, and only by succeeding; an error was called for by the object at some moment of it |
| ManifestWriter.Writer.Mutate | examples/fencedmanifest/manifest.go:173-264 | success means the mutation is in the history of the returned committed record or the epoch is activated; failure settles nothing, raises no false alarm, wraps an unknown outcome while the proposal is ambiguous, keeps an ambiguous proposal, and was called for by the object; undisturbed, an admissible request commits exactly once and any other answer is the stated one |
| ManifestWriter.Writer.MutateRepeatedly | examples/fencedmanifest/manifest.go:130-148 | repeating one mutation commits it at most once, and not at all if the last answer is a definite error |
| EndToEndFencing.EntriesFenced | examples/fencedmanifest/manifest.go:418-453 | with epochs taken from grants, manifest entries of one epoch are contiguous and one process's, epochs never go back, and a later epoch belongs to a grant whose acquisition committed later |
| Lifecycle.TakenIsFirst | recipes/internal/holder/holder.go:76-166 | a loop over a select takes events up to the first that stops it |
| Lifecycle.RenewalsDisjoint | recipes/internal/holder/holder.go:50-252 | between a renewal's start and the next renewal or release, a renewal ended |
| Holder.StoppedRenewalState | recipes/internal/holder/holder.go:258-269 | pending exactly after an unknown outcome; suppresses the release exactly when a reconciliation failed otherwise |
| Holder.HandleRenewal | recipes/internal/holder/holder.go:115-165 | keeps the bookkeeping in step with the calls, and stops for exactly the outcomes that end the loop |
| Holder.HandleEvent | recipes/internal/holder/holder.go:76-166 | every event keeps exactly one of a renewal in flight and an armed timer, or stops for the stated cause |
| Holder.StopsExactly | recipes/internal/holder/holder.go:76-166 | exactly which events stop the loop, and which count as losing the lease |
| Holder.RunLoop | recipes/internal/holder/holder.go:76-166 | the calls made, the cause and the renewal bookkeeping are those the script determines |
| Holder.Drain | recipes/internal/holder/holder.go:178-220 | after joining the work and waiting for the renewal, what is left pending or suppressed is what script and answers determine |
| Holder.ReleaseLease | recipes/internal/holder/holder.go:244-251 | as many releases as the answers call for, one to three, repeated only after an unknown outcome |
| Holder.CleanUp | recipes/internal/holder/holder.go:222-252 | a cleanup renewal exactly when one is pending, releases exactly when due, and the complaints of each way out |
| Holder.DueWhenAsked | recipes/internal/holder/holder.go:222-241 | a release is due only after an uncanceled work return under releaseOnWorkReturn or a cancellation under releaseOnCancel, in time and for a good lease; and then, with no renewal in doubt, it is |
| Holder.Run | recipes/internal/holder/holder.go:50-252 | the lifecycle makes the calls its script asks for, then one cleanup renewal and the releases exactly when script and answers make them due, all of it disciplined; a release is one the policy asks for; it reports why it stopped, and nothing if all went well |
| ManualMutex.StopsExactly | recipes/mutex/manual.go:200-240 | exactly which events end the loop, and which report a loss |
| ManualMutex.RenewLoop | recipes/mutex/manual.go:200-240 | the calls and the report are those of the script up to the first event that stops the loop; renewals never overlap, and a renewal in doubt is reported or suppresses the release |
| ManualMutex.ReleaseManual | recipes/mutex/manual.go:81-140 | one cleanup renewal and one release exactly when due, none after suppression or with a renewal possibly unresolved |
| ManualMutex.Lifetime | recipes/mutex/manual.go:81-240 | loop and release together: script and answers determine the report, the cleanup renewal and the release, and all calls keep the discipline; a release comes in time and for a good lease, and always then if the renewals went well |
| MutexOwnership.NextKeeps | recipes/mutex/mutex.go:151-181 | the mutex is busy exactly while it has an owner, and it never has two |
| MutexOwnership.RunKeeps | recipes/mutex/mutex.go:94-181 | so in every run of concurrent calls, locks, repeated and late blocks |
| MutexOwnership.OwnerExcludes | recipes/mutex/manual.go:290-339 | only the owner changes busy, manual and releasing, but for a call entering an idle mutex; an owner that does not act stays the owner |
| MutexOwnership.ReleaseBeginsOnce | recipes/mutex/manual.go:290-329 | a release begins if and only if its lock is the current one, not released before and not abandoned |
| MutexOwnership.EntersWhenFree | recipes/mutex/mutex.go:151-159 | a call enters if and only if the mutex has no owner |
| MutexOwnership.ClearingFrees | recipes/mutex/mutex.go:161-181 | clearing the current lock, or a call's end, leaves the mutex without an owner |
| MutexOwnership.StuckStaysBusy | recipes/mutex/mutex.go:161-173 | a mutex whose work did not stop stays busy for good |
| MutexOwnership.OneMutationInside | lease/operations.go:77-80 | of all acquisitions, renewals and releases of all holders, at most one is inside the client at any moment of any run |
| MutexOwnership.GrantsAlone | lease/operations.go:15-18 | a lease is granted only while no renewal or release is inside |
| MutexOwnership.NoEarlierLeaseInside | lease/operations.go:236-279 | once a lease was granted, no renewal or release of an earlier one is ever inside again |
| MutexOwnership.RenewalBelongsToOwner | recipes/mutex/manual.go:81-106 | a renewal called and not returned, of a lock or a WithLock call, belongs to the owner, unless its holder went on without it |
| MutexWitness.RequireIsRefused | recipes/mutex/manual.go:41-54 | a run in which a stale renewal is inside the client and the next call's Require is refused |
| MutexWitness.StaleLoopIsRefused | recipes/mutex/manual.go:200-240 | a run in which the next lock is held and the client refuses the stale loop |
| MutexOwnership.Lock.Retire | recipes/mutex/manual.go:274-288 | the first cause sticks and done closes once |
| MutexOwnership.Mutex.TryEnter | recipes/mutex/mutex.go:151-159 | enters only an idle mutex |
| MutexOwnership.Mutex.BeginReleaseBy | recipes/mutex/manual.go:81-93 | only the current lock of this mutex begins a release, once; any other, null or foreign, is refused |
| MutexOwnership.Mutex.AbandonManual | recipes/mutex/manual.go:309-329 | retires the handle, keeping its first cause, and blocks the mutex only if it is the current lock |
| MutexOwnership.Mutex.ClearManual | recipes/mutex/manual.go:331-339 | clears only its own lock |

## Left out

- JSON encoding and body size limits: bodies are records. What counts as valid JSON and how it is compacted is a function
  parameter, and readers do not check a stored payload for it.
- SHA-256: the digest of a request is a value computed by a function parameter, and the digest of a body is the record.
- UUID and hex generation: identifiers are parameters that are not empty.
- `lease/s3store`, logging, metrics, nil-interface checks and error texts; only the kind of an error is modelled.
- `context` plumbing and goroutines: cancellations and timeouts are events that may happen at any step, and a locked block
  is one step. In the lease protocol the mutation lock is the rule that a process runs one operation at a time; the lock
  itself, and its refusals, are modelled with the mutex.
- Request timeouts and saturation of 64-bit duration arithmetic in elapsed-time comparisons.
- Liveness: nothing says that an acquisition eventually succeeds.
- `recipes/leaderelection`, `recipes/internal/acquire` and `recipes/internal/schedule`: retry classification, jitter and
  callback order.
- What the store does to an object that is deleted or rolled back: the branches that detect it are modelled and proved
  unreachable under the environment above.
- That the holder's notion of a pending renewal equals the client's, and that an idle mutex implies that no lease is live,
  are not claimed.
- The order in which select picks among ready channels: every order is allowed.
- The holder and the manual lock are modelled on values, with local variables of the source as fields of a record; the
  lease client they call is an arbitrary sequence of answers.
- MutexOwnership.OneMutationInside: is about mutations inside the client. A call that waits outside the client's lock, before it
  or after it, may coincide with a later holder's calls; it does nothing there.
- Null contexts, clients, stores and work functions.
- Lengths count characters where the source counts bytes.
