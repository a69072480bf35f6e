# The port-lease broker, modelled and proved

`llama-stackd` leases host ports to agent runs. The broker keeps two durable tables, capabilities and leases, and a
volatile table of running forwarders, one per leased host port. Both say which ports are in use, and they must agree
through partial failures, crashes, restarts, cascading deletes and allocators that wait for each other.

The model has three parts.

* **Specification.** `Plans.dfy` gives every operation of the broker as a function of the state it finds and of what it
  meets outside: each clock reading, the set of ports the system lets it bind, the identifiers it draws, and the set of
  calls that fail (each with no effect). A plan holds the final state, the answer, and the durable state after each
  store write; a crash leaves one of these. `Restart.dfy` does the same for opening, `Waiting.dfy` for the retry loop,
  `Expiry.dfy` for the daemon's jobs and `Forwarder.dfy` for one forwarder's accept loop, connections and shutdown.
* **Outcomes.** `Outcomes.dfy` says of every operation, on the rows, fields and ports themselves and without the plans'
  own parts, exactly when it succeeds, with which error it fails otherwise, and what it leaves.
* **Objects.** `Store.Database`, `Manager.Manager`, `Api.Api` and `Forwarder.Forwarder` carry out the source's
  statements and loops on fields, and every method is proved to do what its plan says. `Database.history` records each
  durable state as it is written, so the crash points of the plans are those of the methods. `Manager.sockets` holds the
  listening sockets, so that no failing path leaves one open.

How the model reads the source:

* A mutex section is one step. Other threads act on the broker only through such sections, so a waiter sees an arbitrary
  sequence of operations between capturing the `changed` channel and locking, and another while it is blocked.
  `State.changed` counts how often that channel was closed and replaced.
* Clock readings are arbitrary instants after the zero `time.Time`. Where a result needs a clock that does not go back,
  it says so, and then only of the readings that matter (`Agreement.Orderly`).
* Token hashes are never issued twice and callers hold capabilities that were issued (`Runs.Honest`); identifiers may
  collide and the unique keys refuse them. Identifiers and texts are numbers; the broker only compares them.
* The order in which the store lists rows is not fixed: every result holds for every order.
* An allocation meets an endless sequence of turns, one for each time round its loop; it ends because the waiters are
  signalled finitely often, and not because the turns run out.
* A bind succeeds when no other process holds the port and this process does not listen on it.
* `gosqlite` and `gasket` are not part of this model; a bag of timed jobs, each tried up to three times more a
  second apart, and two maps with a cascade stand for them.

Findings, each proved with its exact condition. A reap that deletes leases and then fails to delete capabilities does
not wake the waiters (`Waiting.RemovalIsSignalled`), a later reap does only if it finds another lease expired
(`Waiting.LostSignalIsNotResent`), and a waiter can stay blocked though a retry would be granted
(`Limitations.SampleWakeupIsMissed`). Three events can leave an unexpired lease without its forwarders, and no other can
(`Agreement.AgreementSurvivesExactly`): a revocation whose deletion fails has already closed its forwarders
(`Agreement.RevocationAgrees`); a renewal whose clock has gone back revives an expired lease that is no longer forwarded
(`Agreement.RenewalAgrees`); an opening succeeds though it could neither restore nor delete a lease
(`Agreement.OpeningAgrees`). A renewal can shorten a lease, although it is documented
to extend it (`Limitations.RenewalShortens`). Opening fails when the last listed lease cannot be bound and succeeds when
only an earlier one cannot (`Restart.OpenIsExact`); a failed opening leaves the forwarders it restored open, so that
opening again in the same process deletes every active lease (`Restart.ReopeningInProcessDeletesAll`). A renewal answers with a
lease already expired exactly when its capability has expired by the third clock reading
(`Limitations.RenewalAnswersExpired`). An accepted number of seconds is served the lifetime it asks for exactly when its
product fits in 64 bits (`Types.ServedAsAsked`), and stands for the default exactly when it is a multiple of 2^55
(`Types.ZeroExactlyOnMultiples`).

`Limitations.dfy` shows those of the broker on concrete states. `Example.dfy` gives a run and a service of the daemon that
meet the assumptions of the results over runs and end with a lease in force. Verify with `dafny verify dfyconfig.toml`.

## Model

| member | source | states |
|---|---|---|
| Safety.OpKeepsSafe | internal/resource/manager.go:141-302 | whatever the clock reads and whichever calls fail, every operation keeps: each forwarded port has a lease row naming it and its target, rows share no port, rows belong to a stored capability and expire no later; every durable state in between keeps the table part |
| Safety.ReapKeepsSafe | internal/resource/manager.go:383-399 | the same for a reap stopped at any of its three store calls |
| Safety.AttemptKeepsSafe | internal/resource/manager.go:141-193 | the same for an allocation attempt stopped at any of its calls |
| Safety.RenewKeepsSafe | internal/resource/manager.go:214-238 | the same for a renewal: the clamp keeps the expiry within the capability's |
| Safety.RevokeHashKeepsSafe | internal/resource/manager.go:253-274 | the same for a revocation: the query with the zero instant finds every row the cascade will delete |
| Safety.FailedAttemptOnlyReaps | internal/resource/manager.go:141-193 | a failed attempt did nothing but reap, or nothing |
| Tables.CascadeRemovesNothing | internal/resource/store.go:24-24 | after the expired leases are deleted the cascade of the capability purge deletes no lease, because no lease outlives its capability |
| Tables.PutLeaseKeepsConsistent | internal/resource/store.go:123-136 | a row on unused ports, or the same row with another expiry, keeps the tables consistent |
| Tables.ForwardsPairs | internal/resource/manager.go:187-191 | each host port of a row forwards to the target port it is paired with |
| Pool.LowestIsFirstFit | internal/resource/manager.go:312-322 | the scan returns the n lowest free ports in ascending order, or all of them when there are fewer |
| Pool.FirstFitUnique | internal/resource/manager.go:312-322 | no other list is a first fit |
| Pool.AllocationKeepsQuotas | internal/resource/manager.go:334-354 | an allocation that passed the limit checks keeps every quota of every user and run |
| Outcomes.AttemptAnswer | internal/resource/manager.go:141-193 | when an attempt is granted and with which error it is refused, as equivalences: the request's bounds, then the capability, then the run's quota, the user's and the ports; a refusal has reaped or done nothing |
| Outcomes.GrantedLease | internal/resource/manager.go:176-183 | a granted lease is the capability's, was created at the clock reading, and lasts as long as was asked for, cut at the capability's expiry |
| Outcomes.GrantedPorts | internal/resource/manager.go:304-322 | it has one port for each target asked for, in order, each on a port in the range that can be bound and that no unexpired lease names, ascending, and no such port below one of them is left out |
| Outcomes.GrantOutcome | internal/resource/manager.go:156-192 | a grant leaves the unexpired leases and capabilities as before, one row more under the capability, a forwarder for each of its ports to its target on the capability's host, and of the others those that no expired lease names |
| Outcomes.RenewalAnswer | internal/resource/manager.go:214-232 | when a renewal is granted, for each of its clock readings, and with which error it is refused, as equivalences |
| Outcomes.RenewalOutcome | internal/resource/manager.go:233-236 | a renewal gives the lifetime asked for from the third clock reading, cut at the capability's expiry; the row differs in its expiry alone, and nothing else changes |
| Outcomes.ReleaseOutcome | internal/resource/manager.go:241-302 | an owner's release succeeds if and only if the lease is the owner's, an administrator's revoke if and only if it exists; its row and forwarders go, all others stay, and the waiters are signalled once |
| Outcomes.RevocationAnswer | internal/resource/manager.go:253-274 | a capability is revoked if and only if it is stored and no call fails, whether or not it has leases, and with which error not |
| Outcomes.RevocationOutcome | internal/resource/manager.go:261-273 | what the revocation leaves, row by row and port by port, also when only its deletion fails |
| Outcomes.ReapOutcome | internal/resource/manager.go:383-399 | a reap leaves exactly the unexpired leases and capabilities and the forwarders no expired lease names, and what is left when one of its calls fails |
| Outcomes.IssueOutcome | internal/resource/manager.go:50-81 | when a capability is issued, with which error not, and that it is stored as asked for with the lifetime asked for, all else unchanged |
| Waiting.GrantedExactly | internal/resource/manager.go:141-193 | an attempt is granted if and only if the capability is live, both quotas allow it, enough ports are available, the identifier is new and no call fails; it then gets the lowest available ports, paired in order with the targets |
| Waiting.ExhaustedMeansTooFew | internal/resource/manager.go:304-332 | the attempt answers exhausted if and only if it passed every check and fewer ports are available than asked for, and then it has only reaped |
| Waiting.RemovalIsSignalled | internal/resource/manager.go:395-430 | an operation removes a row without signalling the waiters if and only if it reaps an expired lease and then fails to delete the expired capabilities |
| Waiting.LostSignalIsNotResent | internal/resource/manager.go:386-397 | after a signal lost in that way a reap, at whatever instant and whatever fails in it, signals if and only if it is complete and finds another lease expired |
| Waiting.NoMissedWakeup | internal/resource/manager.go:115-138 | in every interleaving in which no operation loses its signal, while the channel captured before a failed attempt is current, no row has gone since the attempt, and on a bindable set that has not grown fewer ports are available than asked for |
| Waiting.BlockedMeansTooFewPorts | internal/resource/manager.go:115-138 | the same for a turn of the retry loop, counted from the capture of the channel |
| Waiting.RetryWouldFail | internal/resource/manager.go:141-193 | with too few ports available and no lease expired a retry is not granted |
| Waiting.AllOrNothing | internal/resource/manager.go:90-193 | whatever the number of retries, a failed allocation leaves exactly what the acts of others and the reaps left, and a granted one adds to that exactly one row and its forwarders |
| Waiting.ExhaustedMeansOutOfTime | internal/resource/manager.go:119-134 | an allocation answers exhausted if and only if the last attempt it made found too few ports, from the state that turn started in, and it may not wait, its deadline had passed or its timer fired |
| Waiting.AnswerIsThatOfTheLastTurn | internal/resource/manager.go:115-138 | each turn but the last found too few ports with time left and was woken, each starts where the one before left the broker, and the last one gives the answer, whichever it is |
| Waiting.RetriesAreSignalled | internal/resource/manager.go:115-138 | an allocation makes at most one attempt more than there are signals while it runs |
| Waiting.AllocationTerminates | internal/resource/manager.go:115-138 | with finitely many signals the unbounded loop comes to an answer, and after how many turns at most |
| Waiting.OneTurnSignalsFew | internal/resource/manager.go:126-137 | an allocation whose first wait nobody interrupts meets that assumption |
| Waiting.ReleaseUndoesGrant | internal/resource/manager.go:284-302 | releasing a lease just granted takes back exactly what the grant added |
| Restart.RestoreExact | internal/resource/manager.go:367-379 | restoring deletes exactly the listed rows with a port that cannot be bound, restores the others whole with their targets, and fails if and only if the last listed row is one of the former |
| Restart.OpenIsExact | internal/resource/manager.go:356-381 | the rows and forwarders after opening on any consistent tables, for two clock readings, and exactly when opening fails |
| Restart.OpenAnswer | internal/resource/manager.go:361-366 | opening keeps exactly the capabilities unexpired at its first clock reading, and fails and forwards nothing when a store read or purge fails |
| Restart.OpenKeepsSafe | internal/resource/manager.go:356-381 | opening, stopped at any store call, leaves consistent tables, and forwards nothing without a row |
| Restart.FailingStartsAreBounded | internal/resource/manager.go:23-29 | with a working store there are at most as many failing starts in a row as leases |
| Agreement.CloseThenOpenAfterAnyRun | internal/resource/manager.go:35-47 | at the end of every steady run with nothing expired, shutting down and opening again with every port bindable restores the same forwarders and keeps every lease |
| Restart.ReopeningInProcessDeletesAll | internal/resource/manager.go:26-28 | opening again in a process where the forwarders of an earlier opening still run, as they do when it failed, deletes every lease still active |
| Runs.EventKeepsInvariant | internal/resource/manager.go:16-302 | every operation, crash between two store writes, shutdown and start keeps the invariant of the tables, the forwarders and the issued capabilities |
| Runs.NothingForwardedWithoutLease | internal/resource/manager.go:166-394 | in every reachable state each forwarded port has exactly one row, with its target, and rows share no port |
| Runs.LifetimeBound | internal/resource/manager.go:61-75 | in every reachable state, however often renewed, a lease expires no later than its capability, so no later than its issue plus the maximum lifetime |
| Runs.OpenAfterAnyRun | internal/resource/manager.go:356-381 | after a crash anywhere, a successful opening forwards exactly the ports of the leases it found active and could bind, to their own targets |
| Runs.NoGrantAfterRevocation | internal/resource/manager.go:151-225 | once a capability is gone no later run stores a lease under it, and no allocation or renewal authenticated earlier is granted |
| Runs.RevocationIsComplete | internal/resource/manager.go:253-274 | a successful revocation removes all rows and forwarders of the capability, expired ones included, signals, and leaves all others unchanged |
| Runs.NothingAfterRevocation | internal/resource/manager.go:151-274 | both together: in every run that begins with a successful revocation no lease is under the capability at the end, and no allocation or renewal for it is granted |
| Runs.IdsStayUnique | internal/resource/store.go:13-14 | stored capabilities never share an identifier |
| Limits.QuotasAlwaysHold | internal/resource/manager.go:304-354 | under one configuration and for any clock readings, any set of ports that rows of one run name is at most as large as the run's maximum, any that rows of one user name at most the user's, and every leased port is in the range |
| Pool.PortsAreCounted | internal/resource/manager.go:334-349 | the counts the quotas compare are the sizes of those sets |
| Limits.OpKeepsLimits | internal/resource/manager.go:141-193 | each operation keeps quotas and range at each of its durable states |
| Agreement.AgreementAlwaysHolds | internal/resource/manager.go:141-412 | over all runs of steady events, with crashes and restarts, every unexpired row of a running broker has all its ports forwarded to their targets |
| Agreement.AgreementSurvivesExactly | internal/resource/manager.go:141-412 | agreement survives an event if and only if the event is steady, whatever the clock reads and whichever calls fail; only a revocation, a renewal and an opening can fail to be |
| Agreement.OrderlyIsSteady | internal/resource/manager.go:214-381 | every event is steady where the store deletes when told to and a renewal reads a clock that has not gone back |
| Agreement.RenewalAgrees | internal/resource/manager.go:214-238 | agreement survives a renewal granted if and only if the lease still has its forwarders or is expired again |
| Agreement.OpeningAgrees | internal/resource/manager.go:356-381 | a state just opened agrees if and only if every unexpired lease that could not be restored was deleted, wherever the two clock readings lie |
| Agreement.RevocationAgrees | internal/resource/manager.go:267-272 | agreement survives a revocation if and only if the deletion succeeds or the capability has no unexpired lease |
| Agreement.PoolIsConserved | internal/resource/manager.go:304-412 | with no row expired the forwarders number the sum of all users' ports, and that sum and the free ports make up the range |
| Agreement.ListingsPartition | internal/resource/manager.go:196-211 | the listing of all leases is of exactly the unexpired ones, and at one clock reading it is the disjoint union of the listings of the stored capabilities |
| Agreement.OwnersAreIsolated | internal/resource/manager.go:214-302 | a capability's renewal or release touches no row and no forwarder of another |
| Expiry.EveryLeaseHasItsJob | cmd/llama-stackd/main.go:91-113 | while schedule calls succeed, through crashes, restarts and failing reaps, every active lease has a job of its own for its current expiry unless its call is still under way or that very job was dropped after its last retry failed, and no job is due early, or later than the scheduling latency unless it is a retry within a second |
| Expiry.NoLeaseOutstays | cmd/llama-stackd/main.go:98-105 | once all due jobs have run no lease whose call has completed is past its expiry by the scheduling latency, unless a failed reap for that expiry is tried again within a second, or its own job was dropped and no job for that expiry is left |
| Expiry.DroppedAfterAllRetries | cmd/llama-stackd/main.go:91-103 | a job is dropped only after its reap and all its retries have failed |
| Expiry.JobRemovesOnlyExpired | cmd/llama-stackd/main.go:91-95 | a job, stale or duplicate, whatever fails in it, removes no unexpired lease; one that succeeds leaves exactly those |
| Forwarder.ShutdownClosesAll | internal/resource/proxy.go:63-71 | under every interleaving, once close has finished every tracked connection is closed and at most the one in the accept loop's hand is open; none once that loop has returned |
| Forwarder.NothingServedAfterClose | internal/resource/proxy.go:14-33 | once closed, a connection accepted but not registered is never forwarded, and is closed when the loop returns |
| Forwarder.LoopStopsSoon | internal/resource/proxy.go:14-33 | once the listener is closed the accept loop takes at most two more steps |
| Forwarder.SweepAlone | internal/resource/proxy.go:68-70 | an uninterrupted sweep closes the tracked connections, in whatever order, and no others |
| Forwarder.EveryClientIsServed | internal/resource/proxy.go:14-33 | under every interleaving, until close begins, every connection accepted has been handed to a goroutine but for the one in the accept loop's hand, and exactly that one and those still relayed are open |
| Forwarder.LoopCanGoOn | internal/resource/proxy.go:14-33 | the accept loop can take a step whenever the mutex is free, until it has returned |
| Forwarder.Forwarder.Admit | internal/resource/proxy.go:23-31 | the accept loop's mutex section tracks the client, leaves it open and starts its goroutine, unless the forwarder is closed; then it closes the client, tracks nothing more and returns |
| Forwarder.Forwarder.Depart | internal/resource/proxy.go:40-45 | a finished goroutine closes its client whoever holds the mutex, and removes it once it gets the mutex, whatever others did in between |
| Forwarder.Forwarder.Close | internal/resource/proxy.go:63-71 | close marks the forwarder closed, stops listening and closes every tracked connection; it is an uninterrupted shutdown of the transition system |
| Forwarder.ShutdownIsShut | internal/resource/proxy.go:63-71 | every uninterrupted shutdown of the transition system, in whatever order it sweeps, ends in the state close leaves |
| Store.Database.List | internal/resource/store.go:138-156 | a query returns each matching row once, in some order |
| Tables.InsertNeedsCapability | internal/resource/store.go:22-32 | inserting a lease keeps the foreign keys if and only if its capability is stored |
| Tables.EraseUndoesInsert | internal/resource/store.go:123-183 | deleting undoes an insertion if and only if the identifier was new, and changes nothing if and only if it is missing |
| Tables.DeletionsCascade | internal/resource/store.go:108-121 | purging the expired capabilities or deleting one leaves the remaining capabilities and the largest set of leases whose foreign keys hold |
| Manager.Manager.CheckLimits | internal/resource/manager.go:334-354 | the loop answers the run's limit if and only if the port lists of the run's rows and the request add up to more than its maximum, else the user's likewise; on distinct rows with distinct ports the sums are the numbers of ports held |
| Manager.Manager.ReserveListeners | internal/resource/manager.go:304-332 | the scan opens exactly the first-fit ports, paired with the targets, and when there are too few leaves no listener open |
| Manager.Manager.CloseLeaseProxies | internal/resource/manager.go:401-412 | closes exactly the forwarders of the row, with their sockets |
| Manager.Manager.RemoveExpiredLocked | internal/resource/manager.go:383-399 | carries out the reap, with its durable states, and keeps the broker valid |
| Manager.Manager.AllocateOnce | internal/resource/manager.go:141-193 | carries out the attempt, with its durable states, leaves no socket without a forwarder on any path, and keeps the broker valid |
| Manager.Manager.Allocate | internal/resource/manager.go:90-139 | the loop, which has no bound of its own, ends, and comes to the answer and state of the turns it took |
| Manager.Manager.Renew | internal/resource/manager.go:214-238 | carries out the renewal with its three clock readings |
| Manager.Manager.ReleaseWhere | internal/resource/manager.go:284-302 | carries out the release, for an owner or an administrator |
| Manager.Manager.RevokeCapability | internal/resource/manager.go:253-274 | carries out the revocation of the one capability with the identifier |
| Manager.Manager.IssueCapability | internal/resource/manager.go:50-81 | carries out the issue |
| Manager.Manager.Reconcile | internal/resource/manager.go:356-381 | carries out the opening for some listing of the rows active at the second clock reading |
| Api.Api.Allocate | internal/resourceapi/api.go:181-196 | a request refused is refused as the manager refuses it; a granted one gets its job; one whose scheduling fails is released after whatever others did since the grant |
| Api.RequestIsAsAsked | internal/resourceapi/api.go:181-186 | the wait is as long as was asked for if and only if its product fits in 64 bits, the deadline is its end, and the lifetime is the one asked for when its product fits |
| Api.RollbackIsComplete | internal/resourceapi/api.go:186-192 | whatever others did since the grant, the release leaves no lease of the capability under the identifier and changes no other row or forwarder |
| Api.LoneRollback | internal/resourceapi/api.go:186-195 | with no other callers and a working store, an allocation that cannot be scheduled leaves the rows and forwarders of before the call, minus the expired ones |
| Api.Api.Renew | internal/resourceapi/api.go:234-243 | the renewal stays when its scheduling fails |
| Api.Api.ScheduleRestored | cmd/llama-stackd/main.go:106-113 | when it succeeds every lease listed has a job at or after its expiry |
| Limitations.RenewalShortens | internal/resource/manager.go:229-233 | a renewal shortens the lease if and only if the lifetime asked for ends before the current expiry |
| Limitations.SampleRenewalShortens | internal/resource/manager.go:233-233 | a renewal that shortens |
| Limitations.RenewalAnswersExpired | internal/resource/manager.go:218-233 | a renewal answers with a lease expired at its third clock reading if and only if its capability has expired by then |
| Limitations.SampleRenewalIsExpired | internal/resource/manager.go:233-233 | such a renewal |
| Limitations.SampleOpeningDependsOnOrder | internal/resource/manager.go:367-380 | two leases, one of which cannot be bound: opening fails when it is listed last and succeeds when it is listed first, with the same rows left |
| Limitations.SampleReopeningDeletesAll | internal/resource/manager.go:26-28 | the failed opening followed by one in the same process, which deletes the lease the first had restored |
| Limitations.SampleSignalIsLost | internal/resource/manager.go:392-397 | a reap that frees a port and signals nobody |
| Limitations.SampleRevocationBreaksAgreement | internal/resource/manager.go:267-272 | a failed revocation that leaves an unexpired lease without its forwarder |
| Limitations.SampleWakeupIsMissed | internal/resource/manager.go:115-138 | a waiter whose captured channel is still current though the port it needs has been freed and a retry would be granted |
| Limitations.SampleRenewalBreaksAgreement | internal/resource/manager.go:222-233 | a renewal under a clock that has gone back revives a lease that nothing forwards |
| Limitations.SampleOpeningBreaksAgreement | internal/resource/manager.go:370-375 | an opening that succeeds and leaves an active lease it could neither bind nor delete |
| Example.RunHoldsALease | internal/resource/manager.go:16-193 | opening on empty tables, issuing and allocating is a steady run under one configuration, and ends with one unexpired lease, so the assumptions of the results over runs can be met |
| Example.ServiceHoldsALease | cmd/llama-stackd/main.go:91-113 | the same life with its expiry job scheduled at once meets every assumption of the job results |
| Types.ServedAsAsked | internal/resourceapi/api.go:186-186 | an accepted request is served the lifetime it asks for if and only if its product fits in 64 bits |
| Types.WrappedIsOutOfBounds | internal/resource/manager.go:101-107 | an accepted request not served as asked has asked for more than the maximum or for less than nothing |
| Types.ZeroExactlyOnMultiples | internal/resourceapi/api.go:186-186 | the converted lifetime is zero, which stands for the default, if and only if the seconds are a multiple of 2^55 |
| Types.WrappedRequestIsServed | internal/resourceapi/api.go:186-186 | every other multiple of 2^55 is far out of bounds and is served as the default lifetime |

## Left out

- HTTP routing, JSON decoding, bearer parsing, status codes and the client: plumbing around the calls modelled here.
- `Manager.Close` beside running operations: `allocateOnce` does not look at `closed`; shutting down is a step on its own.
- Inserting a capability does not take the mutex; it is a step between mutex sections, since it adds a row that no running section refers to.
- The bytes relayed and the dial timeout of a forwarder: only connections being open or closed; the manager's forwarders are map entries with their target, not `Forwarder` objects.
- The order of listings (`Ordering` on `CreatedAt`): results hold for every order.
- The 15-second reap loop: any `Reap` may happen at any time, and no result relies on one.
- Agreement.AgreementAlwaysHolds: asks of each revocation, renewal and opening what Agreement.AgreementSurvivesExactly proves to be exactly what agreement needs; it is false otherwise (the three samples in Limitations).
- Waiting.NoMissedWakeup: asks that no operation of others loses its signal in the state it finds, because it is false otherwise (Limitations.SampleWakeupIsMissed; Waiting.RemovalIsSignalled says exactly when one does); ports freed by other processes are not signalled to waiters and are outside the statement.
- Manager.Manager.Allocate: asks that the waiters are signalled finitely often while it runs; that the deadline timer must fire in the end is not modelled, since clock readings are arbitrary.
- Expiry.NoLeaseOutstays: a lease whose own job was dropped after its last retry, with no other job for its expiry left, is left to the reap loop and outside the statement.
- Forwarder.Forwarder.Close: the object's shutdown is not interrupted; the accept loop and goroutines that act without the mutex while it sweeps are covered by Forwarder.ShutdownClosesAll.
- Configuration validation, rendering, the command-line tools, the MCP servers and the installers: no part of the broker.
