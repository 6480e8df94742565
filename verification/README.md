# agentd: dispatch, registry and names, verified

`agentd` turns the at-least-once deliveries of a NATS JetStream stream into runs of local
handler programs. This project models what decides whether that goes well, and proves what the
code keeps.

**The dispatch protocol.** `Protocol` is a transition system: any number of dispatch tasks, each
with a program counter, over the shared registry, the dispatcher's `states` map, semaphores named
by generation, the completed store and the server's messages. One action is one access to shared
state, so every interleaving of a multi-threaded runtime is a run. The environment publishes,
expires, delivers and redelivers at any time, binds consumers with their limit, changes the
registry, applies changes, purges records, fails store reads and writes, spawns and acks, starts a
drain, and crashes the daemon. `Reachable` is everything a run can reach from a cold start, and the
results below hold of all of it. `DispatcherObject.Dispatcher` is the code as written, an object
whose methods update a map in place: each critical section is proved to be exactly one action, with
any actions of others between two of them, so every result about runs holds of it.

**The registry, the relay and the control path.** `Registries.Registry` keeps a directory and a map
in step through a failure or a crash at any file step; `ReloadDiff` is the reload as a patch;
`Relays.Relay` holds the pull loops; `Control.DaemonHandle` joins the three and proves that they
stay joined.

**Time and text.** `DedupStores` and `Leases` hold the retention and keepalive arithmetic;
`AgentIds` and `RedactUrl` the id recogniser, the derived names and the URL redaction.

## What the code keeps, and what it does not

A change here is an applied change that finds an entry of the agent to drop; one that finds none,
as when an agent is registered, does nothing to the dispatcher and is not counted.

Some promises hold with a condition. Each has a concrete run or input where it fails, and a
statement of exactly when it holds.

- "One event invokes the handler at most once" holds, without faults, exactly for agents of
  concurrency one (`OnceExactly`): the completed lookup and the in-flight insert are separate
  critical sections. For every agent the number of runs has the bound `RunsBounded`, which is met
  for every concurrency, number of changes and number of purges (`BoundMet`). The runs that meet it
  redeliver a message that tasks still hold. On a clock, with a server that waits for the lease and
  delays that fit in AckWait, no delivery does that (`TimedHeldStay`); then an event whose id belongs
  to one message has one run, and one more for each failed lookup, failed mark, crash and purge of
  its own, whatever the concurrency and the changes (`LeasedRuns`). Any accepted configuration gives
  that for delays of up to one second (`ValidatedRuns`).
- "Between two changes handlers of an event do not overlap" fails when the change found a task with
  the event in hand (`OverlapAfterChange`), because the change drops the in-flight set and the old
  task later removes the new task's entry. Whatever the change, the record and the queue are, a
  change is safe for an event exactly when no task has it in hand (`ChangeIsSafeExactly`): the
  environment can otherwise configure the agent, publish a message with the event's id, and deliver
  it until two handlers run. `OrphansStep` is the exact account, and `OverlapBounded` the bound.
- "State is recreated with the new concurrency" (src/dispatcher.rs:114-117) holds until the next
  change or configuration exactly when nothing stale is under way (`RecreatedCurrentExactly`). There
  are three ways to be stale: a query of the free slots that has read the old concurrency, a task
  past the gates with it, and a task that waits for a permit of an old semaphore, or holds one and
  has not inserted. The first two make a new semaphore of the old capacity, the third puts the old
  one back (`OldSemaphoreReturns`).
- A serial agent's handlers start in stream order, except for a message that the server has
  meanwhile been told to terminate or has expired (`SerialAgentsStartInOrder`). Once a later message
  has started, an earlier one can still start exactly when a live copy of it stands before its
  start, its event has no record and no running handler, and its gates can pass
  (`OvertakenExactly`); it happens after a failed spawn (`SpawnFailureReorders`).
- Redaction hides the userinfo of a URL with a scheme. Of a scheme-less one it does so exactly when
  no "://" follows the userinfo (`BareUserinfoHidden`); otherwise the userinfo stays
  (`BareUserinfoKept`), against the comment at src/logging.rs:48-51.
- The lease of a held message never lapses exactly when interval and delay fit in AckWait
  (`LeaseNeverLapses`). Purging is safe for every message published by the first completion of its
  id exactly when the record retention covers the stream's (`PurgeSafeExactly`). A single message,
  also one published after that completion with its id used again, is covered exactly when the
  retention reaches to the end of its stay (`CoveredExactly`): with 14 days of retention and 7 days
  of stream, for a week after the completion.

Where comments and code differ the code is followed: src/agent_id.rs:1-13 describes dot-separated
ids, the code splits on `_`; src/dispatcher.rs:74-76 says a delivery is always resolved, the
in-flight duplicate is dropped without an ack.

## Model

| member | source | states |
|---|---|---|
| EffectivelyOnce.RunsBounded | src/dispatcher.rs:194-320 | in every reachable state, the handler runs of one (agent, event) are at most N·(R+1)·(P+1), for the largest concurrency N, the most changes R of any one lifetime and the purges P of its record, plus failed lookups, failed marks, crashes, and changes before the last crash |
| EffectivelyOnce.SerialRunsOnce | src/dispatcher.rs:194-232 | a serial agent with no change, purge, store failure or crash runs each event at most once |
| EffectivelyOnce.SerialNeverDrops | src/dispatcher.rs:226-230 | and whatever the store does, its in-flight duplicate branch is unreachable while no change has dropped its entry in this lifetime |
| EffectivelyOnce.PermitsBounded | src/dispatcher.rs:194-197 | tasks of one agent that hold a permit, over all semaphore generations of a lifetime, are at most N times one more than the changes |
| EffectivelyOnce.OrphansStep | src/dispatcher.rs:345-350 | exact account: the tasks in hand that the in-flight set does not show grow by one when a change finds the event in flight, and shrink by one when a remove finds its entry gone |
| EffectivelyOnce.OverlapBounded | src/dispatcher.rs:118-123 | handlers of one event that run at the same time are at most one more than the changes of this lifetime |
| EffectivelyOnce.OverlapNeedsOrphaning | src/dispatcher.rs:219-232 | along any run, overlap grows only by changes that find the event in flight |
| EffectivelyOnce.InFlightIsLive | src/dispatcher.rs:311-350 | every id in a current in-flight set belongs to a live task between its insert and its remove, across changes too |
| Overlap.ChangeIsSafeExactly | src/dispatcher.rs:118-123 | for every reachable state that is not draining and every event: after a change, and until the next, no two handlers of the event are ever running at the same time, if and only if no task had it in hand when the change was applied |
| Overlap.HandlersOverlap | src/dispatcher.rs:219-232 | on a dropped entry, with two permits configured and a task in hand for the event wherever it stands, redeliveries of a message that is out are enough for a run without a further change to two running handlers |
| Overlap.InHandOverlaps | src/dispatcher.rs:118-123 | and in any state that is not draining the environment can bring such a message about, so two handlers come to run |
| Tightness.OnceExactly | src/dispatcher.rs:200-231 | over every reachable state and event without faults, agents of concurrency at most n run each event at most once, if and only if n is at most one |
| Tightness.BoundMet | src/dispatcher.rs:194-231 | for every concurrency n, number of changes R and number of purges P, a reachable state with no fault of another kind and n·(R+1)·(P+1) runs of one event: the bound is met |
| SoleDelivery.OneRunPerFault | src/dispatcher.rs:199-320 | along every run in which no delivery of the event finds an unfinished task of it: at most one run, and one more for each failed lookup, failed mark, crash and purge of the record |
| LeasedDelivery.HeldStaySole | src/relay.rs:409-417 | over every run: when no delivery hands out a message that an unfinished task has, and an id belongs to one message, no delivery of the event finds an unfinished task of it |
| LeasedDelivery.TimedHeldStay | src/relay.rs:411-430 | over every run on the clock with interval and delay within AckWait: a server that hands a pending message out again only after its lease has run out never hands out one that an unfinished task has |
| LeasedDelivery.LeasedRuns | src/dispatcher.rs:199-320 | so, on the clock, an event has at most one run, and one more for each failed lookup, failed mark, crash and purge of its record |
| LeasedDelivery.ValidatedRuns | src/config.rs:94-98 | as every accepted configuration gives for delays of up to one second |
| Witnesses.OverlapAfterChange | src/dispatcher.rs:345-350 | a reachable state where two handlers of one event run that both started after the only change |
| Witnesses.ChangeSafeAndUnsafe | src/dispatcher.rs:118-123 | one agent and one message reach a state where a change is safe and a state where it is not |
| Witnesses.OldSemaphoreReturns | src/dispatcher.rs:219-225 | a reachable state where the entry made after a change has the old capacity |
| Recreation.RecreatedCurrentExactly | src/dispatcher.rs:114-123 | from a change until the agent is changed or configured again, every entry it gets has the configured capacity, over all runs, if and only if no query, gated task, waiter or holder before its insert carries another one |
| Recreation.UpToDateStep | src/dispatcher.rs:333-343 | every action short of a new configuration keeps entry, queries and tasks of an agent at the configured concurrency |
| Recreation.ComesBack | src/dispatcher.rs:219-225 | a task that waits for or holds a permit can bring its semaphore back into a dropped entry, through the holder it waits for when no permit is free |
| Witnesses.SpawnFailureReorders | src/dispatcher.rs:251-262 | a run of a serial agent where a message starts after a later one, behind a failed spawn |
| Invariants.ConservedStep | src/dispatcher.rs:194-197 | every action keeps free permits plus holders equal to capacity, for every semaphore generation |
| Invariants.NoPhantomsStep | src/dispatcher.rs:345-350 | every action keeps every in-flight id owned by a task in its window |
| Invariants.SoundRun | src/dispatcher.rs:129-321 | over every run: permits conserved, no phantom in-flight ids, every task wired to its message and its semaphore |
| NoLoss.AckedWasHandled | src/dispatcher.rs:199-217 | a message is acked only if a handler run of its (agent, event) was waited for, over crashes, purges and store failures |
| Decisions.StartedHadPassed | src/dispatcher.rs:139-179 | and a handler starts only if at its task's gate check the message was within the limit, had an envelope for its own agent, and the agent was registered and enabled; for that message and event |
| Decisions.HitNeverRuns | src/dispatcher.rs:199-212 | over every run: a task to which the store has said "completed" never starts a handler, and ends acked unless it is lost in a crash |
| NoLoss.TermedHadCause | src/dispatcher.rs:139-179 | a message is termed as oversize, invalid, mismatched, unregistered or disabled only if some step of the run is the gate check of a task that had the message, and at that step its size was over the limit, it had no envelope, the envelope named another agent, the agent was not registered, or it was disabled |
| NoLoss.UnspawnableHadFailure | src/dispatcher.rs:251-262 | a message is termed as unspawnable only if a spawn for that very message failed |
| NoLoss.EndsExactlyOnce | src/dispatcher.rs:125-129 | a dispatch acks, terms or drops at most once, and exactly once when it ends other than by a crash, with the outcome it ends in |
| NoLoss.ReachableSettledProperly | src/dispatcher.rs:313-319 | the server settles messages by ack and term only |
| Progress.NothingStranded | src/dispatcher.rs:125-129 | from every reachable state that is not draining, a run of task steps and redeliveries alone reaches rest with every pending message acked or termed and every other message untouched |
| Progress.RedeliverySettles | src/dispatcher.rs:226-231 | a redelivery into a daemon at rest, run to rest by any schedule, settles its message and no other |
| Progress.RedeliveriesSettle | src/dispatcher.rs:226-231 | any number of redeliveries into a daemon at rest, in any interleaving, run to rest: for every message redelivered a pending message of its event is settled, and it is that very message when its event has no other |
| Progress.RoundsSettleAll | src/dispatcher.rs:226-231 | from rest, as many rounds as an event has pending messages, each redelivering them all and run to rest by any schedule, settle them all |
| Progress.NoScheduleStrands | src/dispatcher.rs:125-129 | and so from every reachable state, after any run to rest |
| Progress.SomeTaskCanStep | src/dispatcher.rs:194-197 | no deadlock: while a task is unfinished some task has an enabled step, even when all tasks wait for permits |
| Progress.DrainTerminates | src/relay.rs:309-319 | once the drain has begun no task is spawned, and the steps of the tasks that exist are bounded by the sum of their remaining phases, under any environment short of a crash |
| Progress.ComesToRest | src/relay.rs:317-318 | a schedule within that bound does bring every task to its end |
| Progress.QuietIsClean | src/dispatcher.rs:306-320 | when every task has ended, every in-flight set is empty and every permit is free |
| SerialOrder.SerialAgentsStartInOrder | src/relay.rs:45-60 | a serial agent with no entry dropped, store failure or purge starts its handlers in stream order, but for messages already termed or expired, despite redeliveries, lost acks and crashes |
| Overtaking.OvertakenExactly | src/dispatcher.rs:194-232 | once a later message of such an agent has started, an undisturbed run can still start an earlier one if and only if a live copy of it stands before its start, its event has no record and no handler still to be recorded, and its gates can pass |
| Overtaking.LateRun | src/dispatcher.rs:199-262 | a late start comes from such a copy, over every undisturbed run |
| SerialOrder.DeliveredInLine | src/relay.rs:56-58 | under a pending limit of one, whatever is delivered has every earlier message of the agent closed |
| SerialOrder.MarkAlone | src/dispatcher.rs:306-311 | when a serial agent's task records an event, no other task of the agent is between its lookup and its start |
| Isolation.AgentsDoNotInterfere | src/dispatcher.rs:67-83 | deleting every step of other agents from any run leaves a run that ends in what the full run holds for the agent: permits, in-flight set, records, message fates, history |
| Isolation.AgentAlone | src/dedup.rs:67-109 | from a cold start, an agent cannot tell whether others exist, even when event ids are reused |
| DispatcherObject.Dispatcher.EnsureState | src/dispatcher.rs:333-343 | finds the agent's semaphore, or makes one of a new generation with all its permits free |
| DispatcherObject.Dispatcher.Available | src/dispatcher.rs:104-112 | reads the registry, then finds or makes the entry with what was read, with everyone else in between: the free permits of the entry, and zero for an agent that is disabled or gone, for which nothing changes |
| DispatcherObject.Dispatcher.ApplyChanges | src/dispatcher.rs:118-123 | drops exactly the entries of the changed agents; semaphores and tasks stay |
| DispatcherObject.Dispatcher.AddInFlight | src/dispatcher.rs:221-231 | the insert, with an entry made from the held semaphore when there is none |
| DispatcherObject.Dispatcher.RemoveInFlight | src/dispatcher.rs:345-350 | takes the id out of the current entry, whoever put it in |
| DispatcherObject.Dispatcher.InFlightCount | src/dispatcher.rs:324-331 | the number of an agent's events in flight, which is never more than its tasks between insert and remove |
| DispatcherObject.Dispatcher.Gate | src/dispatcher.rs:139-179 | the gates are one action: undecided exactly for a message within the limit, with an envelope for its own agent, registered and enabled at the one registry read; otherwise termed with the first reason that applies |
| DispatcherObject.Dispatcher.TryAcquire | src/dispatcher.rs:194-197 | takes a permit of the task's own semaphore if and only if one is free |
| DispatcherObject.Dispatcher.LookupCompleted | src/dispatcher.rs:199-217 | a hit if and only if the store answers and has the event; a failing store counts as a miss |
| DispatcherObject.Dispatcher.CheckAndInsert | src/dispatcher.rs:219-232 | drops the copy if and only if the event is in flight in the current entry |
| DispatcherObject.Dispatcher.MarkCompleted | src/dispatcher.rs:306-310 | records exactly the event, or nothing when the store fails, and goes on either way |
| DispatcherObject.Dispatcher.RemoveFromFlight | src/dispatcher.rs:259-311 | the event leaves the in-flight set; what follows is an ack after a run and a term after a failed spawn |
| DispatcherObject.Dispatcher.Dispatch | src/dispatcher.rs:129-321 | with everyone else running between any two steps: the task's own steps are exactly those of one of the ways through a dispatch, each with the store's, the spawn's and the server's own answer; it has acked, termed or dropped exactly once as it reports, or still waits for its permit, and acks only after a handler exit of its event |
| DispatcherObject.StepsAnswer | src/dispatcher.rs:194-320 | those ways, step by step: one lookup; after a hit only the ack; a duplicate ends at its insert; a failed spawn is removed and termed; a handler that ran is recorded once, removed and acked |
| DedupStores.RecordedExactly | src/dedup.rs:83-110 | after any marks and purges the pair has a row if and only if some mark that found none has not been passed by a later purge |
| DedupStores.DedupStore.IsCompleted | src/dedup.rs:83-93 | an error, or whether some mark of the pair that found no row still stands, over all marks and purges that went through |
| DedupStores.DedupStore.MarkCompleted | src/dedup.rs:98-110 | adds the row with the current second, keeps the time of an earlier completion, and changes nothing on an error |
| DedupStores.DedupStore.PurgeExpired | src/dedup.rs:114-124 | removes exactly the rows older than the saturated cutoff, and counts them |
| DedupStores.PurgedMeansOlder | src/dedup.rs:114-124 | with truncation to whole seconds on both sides, a purged row is strictly older than the retention |
| DedupStores.RecordOutlivesMessage | src/dedup.rs:98-124 | over every history of marks and purges, a record whose retention reaches outlives the message, published before or after the completion, and keeps its first time |
| DedupStores.PurgeSafeExactly | src/dedup.rs:112-124 | purges are safe for retained messages if and only if the retention is at least the stream's maximum age |
| DedupStores.PurgeSafeBySevenDays | src/config.rs:35-37 | which seven configured days give on the stream the operator tool creates, for messages published by the completion |
| DedupStores.CoveredExactly | src/dedup.rs:98-124 | a message, published before or after the completion its id is recorded with, is covered for its whole stay if and only if the retention, in whole seconds, reaches to its end |
| DedupStores.CoveredByDays | src/config.rs:122-127 | a message published up to as many days after the completion as are configured beyond seven is covered for its whole stay |
| DedupStores.EndlessRetention | src/config.rs:122-127 | with more days than fit in 64 bits of seconds nothing is ever purged |
| Configs.TtlInDays | src/config.rs:125-127 | every configured day is 86400 seconds of retention, as long as they fit, and the largest number from there on |
| Configs.DaemonConfig.Validate | src/config.rs:80-100 | accepts exactly a positive retention, an event size of 1 to 2^31-1 and a progress interval below AckWait |
| Configs.TtlCoversStream | src/config.rs:122-127 | the saturating retention covers the stream's seven days if and only if at least seven days are configured |
| Leases.Keepalive | src/relay.rs:423-430 | the loop resets the lease at the times that its sleeps and calls add up to, and an ack takes to arrive |
| Leases.WakesEvenly | src/relay.rs:423-430 | with calls of one length the keepalive wakes in equal steps, whenever its acks arrive |
| Leases.LeaseNeverLapses | src/relay.rs:411-416 | a message held by a live task stays leased for every pattern of delays within d if and only if interval + d is at most AckWait |
| Leases.ValidatedLeaseHolds | src/config.rs:94-98 | validation alone leaves room for any delay up to one second |
| AgentIds.ValidateToken | src/agent_id.rs:85-109 | accepts exactly [a-z0-9][a-z0-9-]{0,62}, with the length counted in UTF-8 bytes, and refuses with the first error that applies |
| AgentIds.Parse | src/agent_id.rs:37-51 | accepts exactly 1 to 16 tokens joined by '_', and keeps the input |
| AgentIds.LimitsMet | src/agent_id.rs:22-27 | 16 tokens of 63 characters are an id of 1023; a token of 64 or a 17th token is refused |
| AgentIds.AlphabetIs | src/agent_id.rs:90-102 | the characters allowed first and later, written out |
| AgentIds.TokensUnique | src/agent_id.rs:37-51 | an id splits into tokens in one way only |
| AgentIds.IdShape | src/agent_id.rs:22-27 | an id has 1 to 1023 characters of [a-z0-9_-] and starts with one of [a-z0-9] |
| AgentIds.NamesInjective | src/relay.rs:41-43 | subject, consumer name and file name each determine the id |
| AgentIds.FiltersDisjoint | src/agent_id.rs:58-63 | under token-wise matching, one agent's filter matches another's subject if and only if the ids are equal |
| AgentIds.FileNamesRecognised | src/registry.rs:170-193 | the sweep of stale temporaries never takes an agent file, always takes a temporary, and an agent file reads back under its id |
| AgentIds.StaleTempExactly | src/registry.rs:170-170 | the sweep takes exactly the names that start with a dot and end in ".tmp" |
| AgentIds.TomlExactly | src/registry.rs:177-177 | a load considers exactly the names that end in ".toml" after something else |
| RedactUrl.Redact | src/logging.rs:52-68 | the index arithmetic gives the specified cut of the URL |
| RedactUrl.RedactIdempotent | src/logging.rs:52-68 | for every string, redacting twice is redacting once |
| RedactUrl.CutPlain | src/logging.rs:60-62 | a URL with no userinfo is left as it is |
| RedactUrl.SchemeUserinfoHidden | src/logging.rs:53-56 | with a scheme, the result is the same for every userinfo without '/' |
| RedactUrl.BareUserinfoHidden | src/logging.rs:53-62 | without a scheme, that holds if and only if no "://" follows the userinfo |
| RedactUrl.BareUserinfoKept | src/logging.rs:53-56 | and otherwise the userinfo stands at the start of the result |
| Registries.Registry.Persist | src/registry.rs:357-393 | a failed step leaves every agent file as it was; a crash leaves the old file or the new one |
| Registries.Registry.Register | src/registry.rs:230-247 | adds a valid new agent on disk and in memory, or changes neither, also when the directory was edited by hand; with no fault it succeeds if and only if the agent is valid and new |
| Registries.Registry.Update | src/registry.rs:250-267 | replaces an existing agent on disk and in memory, or changes neither |
| Registries.Registry.SetEnabled | src/registry.rs:271-288 | flips `enabled` and no other field, and writes nothing when it has that value |
| Registries.Registry.Unregister | src/registry.rs:293-310 | removes file and agent, or neither; with no fault it succeeds if and only if the agent is there and so is its file |
| Registries.Registry.ReadAgentFile | src/registry.rs:397-405 | succeeds if and only if the file reads, parses, names a grammatical id and validates |
| Registries.Registry.Load | src/registry.rs:154-203 | for every listing order, gives the map the directory determines, or fails because of a file that is bad, unreadable or not listed; all stale temporaries that can be removed go, and nothing else |
| Registries.GivesUnique | src/registry.rs:154-203 | a directory determines one map, so the loaded map does not depend on its order |
| Registries.GivesWritten | src/registry.rs:357-393 | putting one agent's file in place puts exactly that agent in the loaded map |
| Registries.GivesRemoved | src/registry.rs:293-310 | removing one agent's file takes exactly that agent out of it |
| Registries.Registry.Reload | src/registry.rs:314-348 | takes the directory's map, whatever was edited there, and reports exactly the difference; on any error memory stays; without edits nothing is reported |
| Registries.Registry.Perform | src/registry.rs:135-310 | any operation with a failure or a crash at any file step, and a restart after a crash: disk and memory agree, on the map from before or on the intended one |
| Registries.Registry.History | src/registry.rs:135-348 | so they agree after every history of operations, failures and crashes |
| ReloadDiff.Diff | src/registry.rs:323-347 | the changes are sorted by id; an added, updated, enabled, disabled or removed entry is in the list exactly when that is what happened to its agent between the two maps |
| ReloadDiff.LessExactly | src/registry.rs:345-345 | the order of ids is the dictionary's |
| ReloadDiff.ValidExactly | src/registry.rs:55-77 | a configuration is valid exactly with an absolute handler, at least one handler at a time and an absolute working directory, if any |
| ReloadDiff.SortById | src/registry.rs:345-345 | sorts by id and keeps exactly the changes |
| ReloadDiff.DiffUnique | src/registry.rs:324-345 | the list does not depend on the order in which ids were visited |
| ReloadDiff.DiffIsPatch | src/registry.rs:312-348 | applying the changes to the old map gives the new one |
| ReloadDiff.EmptyIffSame | src/registry.rs:312-348 | no change is reported if and only if the maps are equal |
| ReloadDiff.ChangesCarryAll | src/registry.rs:107-121 | each change carries the whole new configuration, and is a flip if and only if `enabled` flipped |
| ReloadDiff.ReloadsTrack | src/registry.rs:314-348 | over any number of reloads, folding everything reported tracks the registry |
| Relays.Relay.StartPull | src/relay.rs:277-289 | files a new loop and aborts the one it replaces: one live loop per agent |
| Relays.Relay.StopPull | src/relay.rs:300-304 | removes and aborts the agent's loop |
| Relays.Relay.ApplyChanges | src/relay.rs:211-257 | the agents pulled after a list of changes, with any binds failing, and the attempts to bind that it made; with one change per agent, a disabled or removed one, or an updated one now disabled, has no loop left |
| Relays.Relay.SyncConsumers | src/relay.rs:197-206 | startup pulls exactly the enabled agents whose binds succeed, and misses those whose bind has just failed |
| Relays.Relay.StopAll | src/relay.rs:309-316 | taking the handles out of the map and aborting them one by one leaves no loop alive |
| Relays.PullsThere | src/relay.rs:212-254 | with one change per agent, an agent's own change alone decides whether it is pulled |
| Control.FlippedStops | src/registry.rs:331-336 | an agent that was enabled and no longer is has a change in the reload's list that stops its loop |
| Relays.BindsThere | src/relay.rs:214-243 | and whether its last bind has failed |
| Relays.PullsFollow | src/relay.rs:208-257 | changes that explain the step from one registry to the next keep enabled agents pulled, but for those whose last bind failed, and pulled agents registered |
| Relays.DiffExplains | src/registry.rs:323-347 | the reload diff is such a list |
| Control.DaemonHandle.Apply | src/control.rs:64-69 | with dispatch running before, in between and after: the entry of every changed agent is dropped on the way, pull loops follow, and the three parts agree |
| Control.DaemonHandle.Handle | src/control.rs:71-93 | a request, an edit by hand, a kill or a start, with any file or bind failure in it or a crash before a file step, and whatever the directory holds: without faults it succeeds exactly when it can be done, a reload or a start exactly when the directory loads; an error leaves registry map, entries and loops as they were, a crash leaves a daemon that is down |
| Control.DaemonHandle.ReloadFrom | src/control.rs:89-93 | a reload over a directory edited in any way brings registry, dispatcher and relay to the directory's map, or leaves all three; an agent that was enabled and no longer is has no live loop |
| Control.DaemonHandle.Start | src/relay.rs:195-206 | a start over a directory edited in any way succeeds exactly when the directory loads, and pulls exactly the enabled agents whose bind succeeds |
| Control.DaemonHandle.Die | src/dispatcher.rs:82-83 | a process killed at any point of a request leaves no loop, no entry and no map, and the directory as it is |
| Control.DaemonHandle.FreeSlots | src/dispatcher.rs:104-112 | a loop left for a disabled agent sees no free slot |
| Control.DaemonHandle.Serve | src/control.rs:71-93 | over every history of requests, edits by hand, reloads that succeed or are refused, kills, crashes and starts, with dispatch running throughout: while the daemon runs, pulled agents are registered, with one live loop each, and an enabled agent is not pulled only if the last bind tried for it failed; while it does not, no loop is alive |

## Left out

- The NATS client, connection, credentials and fetch timeouts: the server is the fates of messages, with expiry, redelivery and a limit of outstanding messages per consumer.
- The pull loop's fetch: `Poll` and `Deliver` may happen in any number and order, which includes what the loop does; that it fetches no more than the free slots is not used by any result.
- Time inside the protocol: a pending message may be redelivered at any moment, also before AckWait; `LeasedDelivery` adds the clock, the lease and the server's waiting to its runs.
- A consumer limit may be any concurrency the agent was ever configured with, because a bind can meet a consumer that exists.
- Fairness: the progress results give a schedule and a bound for all schedules, not that a scheduler takes them.
- Process spawning, stdin, environment variables and exit codes: a handler run is a start and, later, an exit.
- JSON and TOML parsing: a message has an envelope or none, a file a configuration or none, and writing then reading a configuration gives it back.
- SQLite, WAL and fsync: the store is a durable table whose reads and writes may fail; a failing call changes nothing.
- Opening the store, control socket input and output, file modes, the command-line tool, logging, spans and status output.
- Concurrent control requests: registry mutation and apply are not one critical section, so `Control` covers sequential histories.
- Graceful shutdown inside a control history: `Kill` ends the process at once; the drain is proved in `Progress` and `Relays`.
- Handlers that outlive a killed daemon: a crash ends every handler, so the results on overlap count the handlers of one lifetime.
- Fetched messages that reach no task, for lack of metadata or because their loop was aborted: such a message stays pending, as one not yet redelivered does.
- Task panics and lock poisoning, which count as a crash.
- Directory durability after power loss: a renamed file may be the old or the new one.
- Semaphore queue order: a waiting task takes a permit whenever one is free.
- Redacted text is a sequence of characters; the byte indices of the source fall on the same cuts, because the characters searched for are ASCII.
- DedupStores.RecordOutlivesMessage: covers clock readings whose second fits in 63 bits, so that the cast to the table's signed column keeps the value; the methods cover all 64-bit readings.
- SerialOrder.SerialAgentsStartInOrder: excludes agents that had an entry dropped by a change, because an old semaphore may then serve beside a new one.
- Control.DaemonHandle.FreeSlots: says nothing of the registry after a query for an enabled agent, because others may run between its two accesses.
