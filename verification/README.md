# RDMA resource interception: a verified model

The interceptor sits between an application and the RDMA verbs library. It counts the queue pairs
(QPs) and memory regions (MRs) of each process and of each tenant, decides whether a new one may be
created, and shares its counts through shared memory and a collector daemon. This project models
that accounting engine in Dafny and proves what it keeps over whole runs, and exactly where it does
not. `dafny verify dfyconfig.toml` checks everything.

Operations that the program performs in place are methods of classes over the program's own arrays
and counters. Each is proved equal to a function on values, and the results below are lemmas about
runs of those functions. The sizes of the process table, the tenant table and the cache are
parameters, never fixed numbers. Outcomes of driver calls, clock readings, environment variables
and file contents are inputs.

- `ProcessTable`, `PerfOptimizer`, `Coalescing`, `CacheCoherence`: the shared process table, and
  the write-behind buffer and TTL cache in front of it. A coalesced run followed by a flush leaves,
  slot for slot, the table of unbuffered updates, even when the table overflows; a cache hit is the
  latest value of exactly that process.
- `TableHistory`, `CacheHistory`, `HashSpread`: what the table holds and a cache lookup answers,
  read off the list of operations, and which processes share a bucket.
- `BatchConcurrency`: producers and the flush thread as steps at the boundaries of the buffer's
  mutex. One producer never loses an update; with more, the forced flush loses one exactly when its
  relock finds a pending update that matters.
- `CacheConcurrency`: the same producers with their cache writes, and readers of the cache.
- `TenantRegistry`, `RegistryRefinement`, `MemberLists`: the registry's slot arrays and redundant
  counters refine a finite map from pids to tenants.
- `TenantRecords`: each tenant record has a history of its own.
- `LockedRuns`, `SlotwiseRegistry`: under the test-and-set lock every interleaving, even slot by
  slot, is a serial run in lock-acquisition order.
- `TenantHooks`, `TenantQuota`, `TenantMemory`, `ProcessLimits`, `UsageTotals`, `Noninterference`,
  `UsageProtocol`, `TenantOvershoot`: the check / driver call / account protocol of the tenant hooks, in serial runs
  and with concurrent threads.
- `Words`, `Verbs`: machine words, sequence search and the types both sets of hooks share.
- `LocalHooks`, `ProcessAdmission`, `FallbackAdmission`: QP admission of one process by its local
  counter, with several threads, by the process table, and by eBPF readings.
- `CText`, `PolicyFile`, `PolicyLines`, `ConfigFile`, `ConfigValues`: the text formats: what is
  read back, and what each line, value and variable means.
- `Collector`, `CollectorAdmission`: the collector's counters, its answers and its statistics.

## Where the code falls short of its intention

The model follows the code. Each of these is stated as a lemma, with the exact condition where
there is one.

- The tenant memory quota is meant to be cumulative, but accounting never adds to the recorded
  memory: it bounds each region, hence MR quota times memory quota in total
  (`CumulativeQuotaHoldsIff`).
- A SUSPENDED tenant passes the admission checks while its accounting is refused, so
  its quota bounds nothing (`QuotaHoldsIffActive`).
- Usage is read and written in two critical sections, so concurrent hooks of one tenant can lose
  updates: exactly when a write finds another record than its thread has read (`AlwaysExactIff`).
  Without lost updates, threads overshoot a quota by at most their number minus one; with lost
  updates nothing bounds them (`TenantOvershoot.BoundHoldsIff`).
- Producers write the cache after they have released the buffer, so a later update can be hidden by
  an earlier one (`AlwaysSettledIff`).
- The forced flush of a full buffer can overwrite what another producer has stored (`NeverLosesIff`).
- The usage record does not follow a process that is moved with live QPs (`BindKeepsQpInvIff`,
  `UnbindKeepsQpInvIff`).
- Destroying a QP does not lower the count in the process table, so a process that once reached its
  limit is never admitted again (`EverAdmitsIff`). A process that is not listed in the table when
  others fill it has no limit at all (`LimitHoldsIffListed`).
- Checks compare wrapped 32-bit or 64-bit sums (`PassesIff`, `LocalHooks.BoundHoldsIff`,
  `RegistrationAdmittedIff`).
- The collector trusts any destruction request (`BytesAreConservedIff`, `QpsAreConservedIff`).
- Without the process table, a low eBPF reading admits QPs above the limit (`AlwaysWithinIff`).
- Policy files are written with 64-bit numbers of megabytes but read into 32 bits
  (`SaveThenLoadRestoresIff`).
- Moving a mapped process to another tenant leaves it in the old tenant's member list
  (`BindKeepsMembersIff`); deactivating a tenant by status or binding pid 0 breaks the registry
  (`CallKeepsRegistryIff`).

## Model

| member | source | states |
|---|---|---|
| `ProcessTable.SharedTable.UpdateProcessResources` | src/shm/shared_memory.c:179-220 | the scan leaves exactly the table in which the process's own slot, else the first free slot, holds pid and usage; a full table or a non-positive pid changes nothing and returns -1 |
| `ProcessTable.SharedTable.GetProcessResources` | src/shm/shared_memory.c:137-157 | returns the usage in the first slot of the pid, zero usage for an unlisted one, -1 for a non-positive one |
| `ProcessTable.UpdateLookup` | src/shm/shared_memory.c:137-220 | a write is read back if and only if the table accepts it, and no other process's reading changes |
| `ProcessTable.UpdateOverwrites` | src/shm/shared_memory.c:179-220 | two updates of one process leave what the second alone leaves, slot for slot |
| `ProcessTable.UpdatesCommute` | src/shm/shared_memory.c:179-220 | updates of different processes commute, slot for slot, once one of them owns a slot or can never get one |
| `ProcessTable.UpdateSettles` | src/shm/shared_memory.c:179-220 | after an update its process owns a slot for good or the table is full for good |
| `TableHistory.TableIsHistory` | src/shm/shared_memory.c:179-220 | from an empty table every sequence of updates leaves the first slots to the processes in order of arrival, as many as fit, each with its last report, and the rest free |
| `TableHistory.LookupIsHistory` | src/shm/shared_memory.c:137-157 | a lookup reads the last report of a process that found a slot, and zero usage for any other |
| `PerfOptimizer.Optimizer.BatchUpdateResource` | src/performance_optimizer.c:233-280 | coalesces in place, appends, or flushes a full buffer and restarts it, then refreshes the cache entry; with batching off it writes through and reports the table's own result |
| `PerfOptimizer.Optimizer.FlushBatchBuffer` | src/performance_optimizer.c:283-308 | applies the pending updates in first-arrival order and empties the buffer |
| `PerfOptimizer.Optimizer.GetCached` | src/performance_optimizer.c:130-183 | a hit only for a valid entry of this very pid within the TTL; an expired entry is invalidated, nothing else changes |
| `PerfOptimizer.Optimizer.UpdateCached` | src/performance_optimizer.c:186-202 | overwrites exactly the bucket of the pid, or nothing if the cache is off |
| `PerfOptimizer.Optimizer.InvalidateCache` | src/performance_optimizer.c:205-216 | invalidates the bucket only if it holds this pid |
| `PerfOptimizer.Optimizer.ClearCache` | src/performance_optimizer.c:219-230 | invalidates every bucket and keeps the rest of each entry |
| `PerfOptimizer.Optimizer.PrefetchResources` | src/performance_optimizer.c:459-465 | loads the table's value, not the pending one, into the cache |
| `PerfOptimizer.Optimizer.SetCacheTtl` | src/performance_optimizer.c:311-316 | the TTL becomes the argument limited to 10..10000 ms |
| `PerfOptimizer.HashPid` | src/performance_optimizer.c:38-40 | the bucket index is in range for every pid, negative ones included |
| `Coalescing.RewriteIsUpdate` | src/performance_optimizer.c:253-255 | overwriting a pending update in place has the effect of one more update at the end of the sequence, on every table |
| `Coalescing.EnqueueIsUpdate` | src/performance_optimizer.c:239-270 | each of the three ways to store an update keeps pending pids distinct and moves table-plus-buffer by exactly that update |
| `Coalescing.LogicalTableOfRun` | src/performance_optimizer.c:130-336 | over every run of all operations with batching on, table-plus-buffer equals direct replay of the updates so far |
| `Coalescing.CoalescingIsExact` | src/performance_optimizer.c:233-308 | a final flush leaves, slot for slot and also when the table overflows, the table that unbuffered updates in order leave |
| `Coalescing.DirectWriteSurvivesIff` | src/performance_optimizer.c:234-237 | with batching switched off while data is pending, a direct write that the table accepts survives the next flush if and only if no different value of that process is pending |
| `CacheCoherence.ReplayIsLatest` | src/shm/shared_memory.c:137-220 | with room for all processes, replaying updates leaves each process its last value, one slot each |
| `CacheCoherence.StepKeepsCoherence` | src/performance_optimizer.c:130-336 | every covered operation keeps each valid entry in its own bucket and equal to the table overlaid with the buffer |
| `CacheCoherence.CacheHitIsLatest` | src/performance_optimizer.c:130-280 | over all covered runs a hit is the last value reported for exactly this process, so colliding pids never see each other's data |
| `CacheCoherence.InitialStateIsCoherent` | src/performance_optimizer.c:83-114 | the initialised state satisfies the invariant for any set of processes that fits the table |
| `CacheCoherence.PrefetchIsCoherentIff` | src/performance_optimizer.c:459-465 | a prefetch keeps the cache coherent if and only if no pending value of the process differs from the table |
| `CacheCoherence.UpdateReachesTableIff` | src/performance_optimizer.c:186-308 | after an update and a flush the cache hit equals the table if and only if the table had room for the process or the usage was zero |
| `CacheCoherence.HitIsRecent` | src/performance_optimizer.c:160-174 | over every run of all operations a hit was stored for this pid at most one TTL ago |
| `CacheHistory.SwitchesAre` | src/performance_optimizer.c:311-336 | cache, batching and TTL hold what the last operation on each asked for, the TTL limited to 10..10000 |
| `CacheHistory.HitIff` | src/performance_optimizer.c:130-465 | over every run of all operations from an empty cache a lookup answers a value if and only if the cache is on, the last store into the bucket put that value there for this pid, no invalidation of the pid, clear or expired lookup came after it, and its age is within the TTL |
| `CacheHistory.InvalidatedMisses` | src/performance_optimizer.c:205-216 | an invalidated process misses until it is stored again, whatever is done in between |
| `HashSpread.CollideIff` | src/performance_optimizer.c:38-40 | with a bucket count that divides 2^32 two pids share a bucket if and only if they differ by a multiple of it |
| `HashSpread.NeighboursDoNotCollide` | src/performance_optimizer.c:38-40 | any 256 consecutive pids have a bucket each |
| `BatchConcurrency.OverwriteIsUpdateIff` | src/performance_optimizer.c:264-268 | overwriting the buffer with one update equals adding it at the end, slot for slot and on every table, if and only if each pending update that a flush would bring into the table is for the same process or repeats what the table holds |
| `BatchConcurrency.NeverLosesIff` | src/performance_optimizer.c:233-308 | with any number of producers, an interleaving of the critical sections never loses an update if and only if every relock finds only such pending updates; table overflow included |
| `BatchConcurrency.SingleProducerLosesNothing` | src/performance_optimizer.c:56-308 | one producer and the flush thread, interleaved in any way, yield the table of direct writes in call order, slot for slot |
| `BatchConcurrency.WindowIsSafeIff` | src/performance_optimizer.c:258-268 | an update that another producer stores between the forced flush and the relock survives if and only if it is for the same process, is refused by the flushed table, or repeats what that table holds |
| `BatchConcurrency.TwoProducersCanLoseAnUpdate` | src/performance_optimizer.c:258-268 | a window that loses an update is reachable from an empty buffer with two producers |
| `CacheConcurrency.AlwaysSettledIff` | src/performance_optimizer.c:130-280 | with any number of producers, the flush thread and readers, a hit for a process that no producer is storing is at all times its last buffered update if and only if, among overlapping cache writes of one process, the last one stores the last update |
| `CacheConcurrency.SingleProducerHitIsLatest` | src/performance_optimizer.c:130-280 | with one producer a hit is, on all interleavings, the last update of exactly this process that has reached the cache |
| `CacheConcurrency.SingleProducerHitIsLogical` | src/performance_optimizer.c:130-308 | with one producer and room in the table, a hit for a process not being stored is what table and buffer together hold |
| `CacheConcurrency.ReorderedStoresAreStale` | src/performance_optimizer.c:270-275 | two outstanding cache writes of one process, the last update first, leave a stale entry, from every state |
| `CacheConcurrency.TwoProducersCanLeaveStaleEntry` | src/performance_optimizer.c:270-275 | such a stale entry is reachable with two producers from every initial state |
| `TenantRegistry.TenantShm.CreateTenant` | src/shm/shared_memory_tenant.c:127-176 | a free id other than 0 gets a blank ACTIVE record with truncated name and given or default quota; every other call changes nothing |
| `TenantRegistry.TenantShm.DeleteTenant` | src/shm/shared_memory_tenant.c:179-218 | the record becomes INACTIVE, exactly its mappings are freed and the process total drops by their number |
| `TenantRegistry.TenantShm.SetTenantStatus` | src/shm/shared_memory_tenant.c:242-268 | only the status of an existing tenant changes |
| `TenantRegistry.TenantShm.SetTenantQuota` | src/shm/shared_memory_tenant.c:271-297 | only the quota of an existing tenant changes |
| `TenantRegistry.TenantShm.BindProcess` | src/shm/shared_memory_tenant.c:300-369 | rewrites the pid's slot or takes the first free one; counters and member list change only for a new pid; fails for an inactive tenant or a full array |
| `TenantRegistry.TenantShm.UnbindProcess` | src/shm/shared_memory_tenant.c:372-417 | frees the first slot of the pid, its list entry and one count each, guarded at zero |
| `TenantRegistry.TenantShm.GetProcessTenant` | src/shm/shared_memory_tenant.c:420-444 | returns the tenant of the first slot of the pid, -1 if there is none |
| `TenantRegistry.TenantShm.GetInfo` | src/shm/shared_memory_tenant.c:221-239 | copies the record; -1 for an out-of-range id or an INACTIVE tenant |
| `TenantRegistry.TenantShm.GetResourceUsage` | src/shm/shared_memory_tenant.c:475-499 | returns the usage record of an ACTIVE tenant only |
| `TenantRegistry.TenantShm.UpdateResourceUsage` | src/shm/shared_memory_tenant.c:447-472 | replaces the usage record of an ACTIVE tenant only |
| `RegistryRefinement.UsedSlotsIsSize` | src/shm/shared_memory_tenant.c:324-369 | with unique pids the number of used slots is the size of the abstract map |
| `RegistryRefinement.FreeSlotIff` | src/shm/shared_memory_tenant.c:313-335 | pigeonhole: the scan finds a free slot if and only if fewer slots are used than exist |
| `RegistryRefinement.BindRefines` | src/shm/shared_memory_tenant.c:300-369 | a successful binding is a map update |
| `RegistryRefinement.UnbindRefines` | src/shm/shared_memory_tenant.c:372-417 | a successful unbinding is removal of one key |
| `RegistryRefinement.DeleteRefines` | src/shm/shared_memory_tenant.c:179-218 | deleting a tenant removes exactly the keys bound to it |
| `RegistryRefinement.ProperCallRefines` | src/shm/shared_memory_tenant.c:127-499 | each regular call keeps the invariant, succeeds when the abstract call does and has its effect on the map and the statuses |
| `RegistryRefinement.CallKeepsRegistryIff` | src/shm/shared_memory_tenant.c:242-417 | a successful call keeps uniqueness, counters and liveness of mapped tenants if and only if it does not set INACTIVE, bind pid 0 or unbind pid 0 while the process total is positive |
| `RegistryRefinement.RunRefinesMap` | src/shm/shared_memory_tenant.c:127-499 | every run of regular calls is the run of a finite map from pids to tenants; the process total is the size of the map |
| `RegistryRefinement.LookupReadsMap` | src/shm/shared_memory_tenant.c:420-444 | the lookup loop reads the map; a mapped tenant exists and is never tenant 0 |
| `RegistryRefinement.InitialRegistryIsConsistent` | src/shm/shared_memory_tenant.c:33-80 | the zeroed segment satisfies the invariant and is the empty map |
| `MemberLists.InsertionFindsSlot` | src/shm/shared_memory_tenant.c:350-361 | the unchecked first-free-slot insertion always finds a slot |
| `MemberLists.BindKeepsMembersIff` | src/shm/shared_memory_tenant.c:324-361 | a binding keeps list and count of every tenant in agreement with the mapping if and only if it does not move a mapped pid to another tenant |
| `MemberLists.RunKeepsMembers` | src/shm/shared_memory_tenant.c:127-417 | over every run without such moves each tenant's list holds exactly its mapped pids once, and its count is their number |
| `MemberLists.RunKeepsIdleEmpty` | src/shm/shared_memory_tenant.c:127-218 | over every run of regular calls an INACTIVE tenant counts no process and has none |
| `TenantRecords.RecordsHaveOwnHistories` | src/shm/shared_memory_tenant.c:127-472 | over every run of API calls id, status, name, quota and usage of a tenant change only by calls on this tenant, each under the condition that its own status gives; a creation leaves default or given quota, at most 63 characters of the name and zero usage |
| `TenantRecords.SetUsageReadsBack` | src/shm/shared_memory_tenant.c:447-499 | a usage record is read back until the tenant is deleted, its status set, or its usage set again |
| `TenantRecords.ReadsAnswerFromRecord` | src/shm/shared_memory_tenant.c:221-499 | usage is answered while the tenant is ACTIVE only, the record always |
| `LockedRuns.EveryRunIsSerial` | src/shm/shared_memory_tenant.c:20-124 | for every family of critical sections and every interleaving at most one thread is inside, and shared data and results are those of the serial run in acquisition order |
| `LockedRuns.RegistryRunsAreSerial` | src/shm/shared_memory_tenant.c:111-499 | every finished API call, reading ones included, returned what it returns in the serial run in acquisition order, and whenever the lock is free the registry is the one that this serial run leaves |
| `SlotwiseRegistry.SlotwiseImplements` | src/shm/shared_memory_tenant.c:179-444 | deletion, binding, unbinding and lookup, run slot by slot, have the effect and the return value of the specified calls whatever number of steps they take |
| `SlotwiseRegistry.SlotwiseEnds` | src/shm/shared_memory_tenant.c:179-444 | every call returns after at most one small step more than there are mapping slots |
| `SlotwiseRegistry.ConcurrentRunsKeepRegistry` | src/shm/shared_memory_tenant.c:20-499 | concurrent slot-by-slot runs answer as the serial run does, keep the registry invariant and refine the map whenever the lock is free |
| `TenantHooks.TenantProcess.GetCurrentTenantId` | src/rdma_hooks_tenant.c:109-122 | the tenant of the process, 0 if it is not bound or tenants are off |
| `TenantHooks.TenantProcess.UpdateTenantResourceCount` | src/rdma_hooks_tenant.c:184-214 | changes one counter of one ACTIVE tenant's record and its lifetime totals; never the recorded memory |
| `TenantHooks.TenantProcess.CheckTenantQpLimit` | src/rdma_hooks_tenant.c:217-233 | admits below the QP quota of an existing tenant, SUSPENDED ones included |
| `TenantHooks.TenantProcess.CheckTenantMrLimit` | src/rdma_hooks_tenant.c:237-273 | admits below the MR quota if the recorded memory plus the length fits a non-zero memory quota |
| `TenantHooks.TenantProcess.CheckQpCreation` | src/rdma_hooks_tenant.c:276-351 | admits if type, tenant quota, recorded process count and global count all allow it |
| `TenantHooks.TenantProcess.CreateQueuePair` | src/rdma_hooks_tenant.c:354-392 | denied without any effect, or driver outcome; on success local count, table record and tenant record change |
| `TenantHooks.TenantProcess.DestroyQueuePair` | src/rdma_hooks_tenant.c:395-422 | after driver success the guarded local count and the tenant record go down |
| `TenantHooks.TenantProcess.RegisterMemory` | src/rdma_hooks_tenant.c:425-460 | denied without any effect, or driver outcome; on success the local counters and the tenant's MR count go up |
| `TenantHooks.TenantProcess.DeregisterMemory` | src/rdma_hooks_tenant.c:463-494 | after driver success the guarded local counters and the tenant's MR count go down |
| `TenantHooks.TenantProcess.AccountOnly` | src/rdma_hooks_tenant.c:497-587 | CQ and PD calls are never denied and account for one object after driver success |
| `TenantQuota.AdmittedCreateFitsQuota` | src/rdma_hooks_tenant.c:217-392 | an admitted creation ends at or below the quota in force at that moment and is counted once |
| `TenantQuota.LoweredQuotaOnlyBlocks` | src/shm/shared_memory_tenant.c:271-297 | with a quota at or below usage every creation is denied and nothing live is revoked |
| `TenantQuota.SerialQuotaSafety` | src/rdma_hooks_tenant.c:217-422 | over every serial run with hot quota updates, bindings, unbindings and other tenants that come and go, the recorded count equals the live QPs of the tenant's processes and stays at or below the largest quota so far in force, as long as no process with a live QP enters or leaves the tenant |
| `TenantQuota.CreationStartsQpInv` | src/shm/shared_memory_tenant.c:127-176 | a tenant just created satisfies the invariant that these runs keep, with its own quota as the bound |
| `TenantQuota.BindKeepsQpInvIff` | src/shm/shared_memory_tenant.c:300-369 | a binding keeps the recorded count equal to the live QPs if and only if the process has no live QP or does not enter or leave the tenant |
| `TenantQuota.UnbindKeepsQpInvIff` | src/shm/shared_memory_tenant.c:372-417 | an unbinding keeps it so if and only if the process has no live QP or does not belong to the tenant |
| `TenantQuota.IdleBindIsQuiet` | src/shm/shared_memory_tenant.c:300-369 | binding a process without live resources changes no other process's tenant, so the quota results allow it |
| `TenantQuota.IdleUnbindIsQuiet` | src/shm/shared_memory_tenant.c:372-417 | the same for unbinding |
| `TenantQuota.OtherDeletionIsQuiet` | src/shm/shared_memory_tenant.c:179-218 | deleting another tenant changes the ownership of no live resource of this one |
| `TenantQuota.CreateIsCountedIffActive` | src/rdma_hooks_tenant.c:184-233 | a creation that passed is counted if and only if the tenant is ACTIVE |
| `TenantQuota.SuspendedIsUnlimited` | src/rdma_hooks_tenant.c:184-351 | a SUSPENDED tenant below its quota can create any number of QPs without a change of its record |
| `TenantQuota.RaisedQuotaUnblocks` | src/rdma_hooks_tenant.c:217-233 | a SUSPENDED tenant at its quota is below it once the quota is raised |
| `TenantQuota.QuotaHoldsIffActive` | src/rdma_hooks_tenant.c:184-351 | the quota of an existing tenant at or below its quota holds on all runs, against the largest quota in force, if and only if the tenant is not SUSPENDED |
| `ProcessLimits.CreationDeniedIff` | src/rdma_hooks_tenant.c:217-351 | a QP creation is denied if and only if QP control is on and its type is forbidden, its tenant is gone or at its quota, its recorded count is at the limit, or the global count is at the maximum |
| `ProcessLimits.RegistrationDeniedIff` | src/rdma_hooks_tenant.c:237-273 | a registration is denied if and only if the tenant is gone, at its MR quota, or its non-zero memory quota has no room |
| `ProcessLimits.VerdictIs` | src/rdma_hooks_tenant.c:354-587 | a call that is not denied gets the driver's verdict, and only QP creation and registration are ever denied |
| `ProcessLimits.UndoneChangesNothing` | src/rdma_hooks_tenant.c:354-587 | a denied or failed call leaves registry, table and counters alone |
| `ProcessLimits.PassThrough` | src/rdma_hooks_tenant.c:354-587 | with interception off every call gets the driver's verdict and nothing is counted |
| `ProcessLimits.LocalsAreExactIff` | src/rdma_hooks_tenant.c:354-494 | over every legal run the local counters of a process are at all times its live QPs, live regions and their bytes if and only if these fit the machine words |
| `ProcessLimits.CountersStayWords` | src/rdma_hooks_tenant.c:395-494 | whatever calls succeed, a decrement of a local counter stops at zero |
| `ProcessLimits.ProcessLimitHolds` | src/rdma_hooks_tenant.c:325-422 | over every legal run the live QPs of a listed process are at most its recorded count, which is at most its limit |
| `ProcessLimits.FullProcessIsDenied` | src/rdma_hooks_tenant.c:325-351 | a process whose recorded count is at the limit is denied, with registry, table and live objects unchanged |
| `UsageTotals.CountersAreCalls` | src/rdma_hooks_tenant.c:184-587 | over every serial run each counter of an ACTIVE tenant, CQs, PDs and lifetime totals included, is its start plus the completed calls that raise it minus those that lower it; the recorded memory never changes |
| `TenantMemory.RegisteredBytesBound` | src/rdma_hooks_tenant.c:237-494 | over every serial run the live bytes of a tenant stay at or below MR quota times memory quota |
| `TenantMemory.FullRegionsAddUp` | src/rdma_hooks_tenant.c:200-270 | the bytes bound is reached from every state: some run leaves exactly as many regions of the full memory quota as the MR quota allows |
| `TenantMemory.CreationStartsMemInv` | src/shm/shared_memory_tenant.c:127-176 | a tenant just created satisfies the invariant of the bytes results |
| `TenantMemory.CumulativeQuotaHoldsIff` | src/rdma_hooks_tenant.c:200-270 | the cumulative memory quota holds on all runs if and only if the MR quota is at most one |
| `Noninterference.ForeignMoveIsInvisible` | src/rdma_hooks_tenant.c:184-587 | a step of another tenant, QP creation included, leaves everything this tenant can observe unchanged: its record, its processes' counters and their listed table records |
| `Noninterference.OwnMoveAgrees` | src/rdma_hooks_tenant.c:184-587 | a step of the tenant itself answers alike in any two states it cannot tell apart |
| `Noninterference.TenantsDoNotInterfere` | src/rdma_hooks_tenant.c:184-587 | deleting every step of other tenants from any serial run of all hooks changes neither the answers a tenant gets nor its final record, if its QP-creating processes are listed in the process table |
| `UsageProtocol.RecordsStayConsistent` | src/rdma_hooks_tenant.c:184-214 | under all interleavings of the two critical sections, live counts equal creations minus destructions in every record and every snapshot in flight |
| `UsageProtocol.ReadThenWriteIsAccount` | src/rdma_hooks_tenant.c:184-214 | the two critical sections in a row are the accounting step of the serial hooks |
| `UsageProtocol.StepCountsIff` | src/rdma_hooks_tenant.c:184-214 | the second critical section counts its change once if and only if the record is still the one that the first has read |
| `UsageProtocol.AlwaysExactIff` | src/rdma_hooks_tenant.c:184-214 | on every interleaving the record is at all times the starting one changed by each completed write if and only if every write finds what its thread has read |
| `UsageProtocol.UndisturbedRunsCountAll` | src/rdma_hooks_tenant.c:184-214 | no update is lost on any interleaving without a write to, or re-creation of, the tenant between a read of its record and the write that follows; hooks of different tenants may overlap |
| `UsageProtocol.ConcurrentCreationsCanCountOnce` | src/rdma_hooks_tenant.c:184-214 | two creations of one tenant whose reads precede both writes count once, from every state |
| `TenantOvershoot.StartIsInitial` | src/rdma_hooks_tenant.c:184-233 | threads at rest over any registry in which the tenant is ACTIVE and counts its QPs are a starting point of these results |
| `TenantOvershoot.CheckIsTenantCheck` | src/rdma_hooks_tenant.c:217-233 | the check of the concurrent model is the hooks' quota check |
| `TenantOvershoot.StepIsCounterStep` | src/rdma_hooks_tenant.c:184-422 | check, driver calls and writes that find what they read are steps of the threads on a single counter |
| `TenantOvershoot.TenantOvershootIsBounded` | src/rdma_hooks_tenant.c:184-422 | on every interleaving in which every write finds what its thread has read, live QPs exceed the largest quota in force by at most the number of threads minus one |
| `TenantOvershoot.LostUpdatesExceed` | src/rdma_hooks_tenant.c:184-422 | otherwise two threads reach any number of live QPs: two creations counted once and one destruction, repeated |
| `TenantOvershoot.BoundHoldsIff` | src/rdma_hooks_tenant.c:184-422 | a tenant with room for another QP is bounded on all interleavings if and only if it has one thread |
| `LocalHooks.OvershootIsBounded` | src/rdma_hooks.c:357-505 | with T threads live QPs never exceed the limit by more than T - 1 on any interleaving, and the guard never suppresses a decrement |
| `LocalHooks.OvershootIsReached` | src/rdma_hooks.c:357-438 | some interleaving reaches that bound, for every limit and number of threads |
| `LocalHooks.PassesIff` | src/rdma_hooks.c:361 | the 32-bit comparison passes below the limit and, by wrap-around, at the largest count |
| `LocalHooks.BoundHoldsIff` | src/rdma_hooks.c:357-505 | the bound holds on all interleavings if and only if limit plus threads is below 2^32 |
| `ProcessAdmission.Process.CheckQpCreation` | src/rdma_hooks.c:273-402 | the recorded count decides if the table can be read, else the eBPF count, else the local count; then global count and work-request limits |
| `ProcessAdmission.Process.CreateQp` | src/rdma_hooks.c:405-470 | denied without any effect, or driver outcome; success adds one locally and writes the local counters to the table |
| `ProcessAdmission.Process.DestroyQp` | src/rdma_hooks.c:479-537 | success lowers the guarded local count and leaves the table alone |
| `ProcessAdmission.SerialCreateIsThreadRun` | src/rdma_hooks.c:357-438 | on the fallback path a serial creation is one thread's check, driver call and increment in the concurrent model |
| `ProcessAdmission.TableAdmissionIsSound` | src/rdma_hooks.c:316-510 | over all runs of a process listed in the table, whatever other processes write, live QPs are at most the recorded count, which is at most the limit |
| `ProcessAdmission.UnlimitedCreations` | src/rdma_hooks.c:316-325 | a process the full table has no slot for, or one under the limit 2^32-1, can create any number of QPs |
| `ProcessAdmission.UnlistedExceeds` | src/rdma_hooks.c:316-450 | other processes can take every free slot, after which a process that is not listed can create any number of QPs |
| `ProcessAdmission.LimitHoldsIffListed` | src/rdma_hooks.c:316-450 | the per-process limit holds on all runs if and only if the process is already listed and the limit is below 2^32-1 |
| `ProcessAdmission.ExhaustionIsForever` | src/rdma_hooks.c:316-537 | once the recorded count is at the limit no creation is ever admitted again, even after all QPs are destroyed |
| `ProcessAdmission.EverAdmitsIff` | src/rdma_hooks.c:316-537 | some run admits a request that nothing else forbids if and only if the recorded count is below the limit now, or is 2^32-1 |
| `FallbackAdmission.DeniedIff` | src/rdma_hooks.c:273-402 | a creation is denied if and only if QP control is on and its type is forbidden, the deciding count is at the limit, the global count is at the maximum, or a work-request limit is exceeded; the table's record decides, else a non-zero eBPF reading, else the local count |
| `FallbackAdmission.HighReadingDenies` | src/rdma_hooks.c:328-340 | without the table a non-zero eBPF reading at or above the limit denies, whatever the local count is |
| `FallbackAdmission.AlwaysWithinIff` | src/rdma_hooks.c:326-505 | without the table live QPs stay within the limit at all times if and only if no creation that nothing else forbids comes with a low eBPF reading while the limit is reached |
| `FallbackAdmission.TrustworthyReadingsSuffice` | src/rdma_hooks.c:326-371 | live QPs never exceed the limit if each reading is missing, zero or covers the live count |
| `FallbackAdmission.CreateRecordsCounters` | src/rdma_hooks.c:435-450 | after a creation the table holds the local counters of the process |
| `FallbackAdmission.CountStaysWord` | src/rdma_hooks.c:429-505 | the local count stays a 32-bit word, and a decrement stops at zero |
| `CText.DecimalReadsBack` | src/dynamic_policy_manager.c:197-207 | the printed digits of any number denote that number |
| `CText.ScanReadsDecimal` | src/collector_client.c:57-75 | a 64-bit number printed inside any text is scanned back exactly |
| `CText.ScanReadsSigned` | src/config.c:330-338 | a plus sign is ignored and a minus sign negates within 64 bits, as in the parser of the memory limit |
| `CText.ScanSaturates` | src/config.c:330-338 | larger numbers are read as the largest 64-bit word |
| `CText.FgetsTakesLine` | src/dynamic_policy_manager.c:151-152 | a line shorter than the buffer is taken whole and leaves the rest |
| `PolicyFile.PolicyManager.LoadConfig` | src/dynamic_policy_manager.c:140-182 | the line loop applies each line in turn to the current policy; an absent file returns -1 and changes nothing |
| `PolicyFile.PolicyManager.SaveConfig` | src/dynamic_policy_manager.c:185-212 | the eight prints, one after the other, write the heading and the list of saved fields in file order, memory in whole MB; -1 and nothing written if the file does not open |
| `PolicyFile.LoadsItsLines` | src/dynamic_policy_manager.c:151-175 | loading any list of saved lines assigns exactly those fields, in order |
| `PolicyFile.SaveThenLoadRestoresIff` | src/dynamic_policy_manager.c:140-212 | loading a saved file into any policy restores the seven fields, memory rounded down to MB, and nothing else, if and only if memory is below 2^32 MB |
| `PolicyFile.SaveIsStable` | src/dynamic_policy_manager.c:140-212 | saving what was loaded prints the same text again |
| `PolicyLines.ReadsLineByLine` | src/dynamic_policy_manager.c:151-152 | a file is read line by line as long as lines fit the buffer of 256 bytes |
| `PolicyLines.LongLineIsSplit` | src/dynamic_policy_manager.c:151-152 | a longer line is read in pieces of 255 characters |
| `PolicyLines.QpKeys` | src/dynamic_policy_manager.c:158-162 | the two QP keys set the two QP limits |
| `PolicyLines.MrKeys` | src/dynamic_policy_manager.c:163-166 | the two MR keys set the two MR limits |
| `PolicyLines.OtherKeys` | src/dynamic_policy_manager.c:167-172 | memory is set in megabytes, auto_adjust by zero or not, adjust_interval as it is |
| `PolicyLines.OtherKeysAreIgnored` | src/dynamic_policy_manager.c:158-174 | a line with any other key changes nothing |
| `PolicyLines.CommentsAreSkipped` | src/dynamic_policy_manager.c:153-154 | comments and empty lines change nothing |
| `Collector.Server.Handle` | src/collector_server.c:356-558 | one request changes the counters and answers as its branch says, for every request text |
| `Collector.Server.Dispatch` | src/collector_server.c:397-558 | each branch, with 32-bit and 64-bit counters and the guarded decrements |
| `Collector.Client.ReceiveStats` | src/collector_client.c:57-75 | the two label searches and scans decide what the client stores |
| `Collector.HeadReadsBack` | src/collector_client.c:57-75 | the client reads both numbers back from the reply's head followed by any text |
| `Collector.StatsRoundTrip` | src/collector_server.c:397-417 | for all counters the client reads exactly the server's QP count and its maximum unless that is zero, although the reply is cut at 511 characters |
| `Collector.CreateReadsBack` | src/collector_server.c:458-461 | the server reads back the length of every printed MR_CREATE request |
| `Collector.DestroyReadsBack` | src/collector_server.c:524-528 | the server reads back the length of every printed MR_DESTROY request |
| `Collector.CheckReadsBack` | src/collector_server.c:492-495 | the server reads back the length of every printed CHECK_MEMORY request |
| `Collector.ClientSeesAdmission` | src/collector_client.c:271-298 | the client reports success if and only if the server had room for the region |
| `Collector.LimitsHold` | src/collector_server.c:421-550 | every sequence of request texts keeps memory used and QP count within their fixed limits |
| `Collector.RegistrationAdmittedIff` | src/collector_server.c:462-475 | a registration is admitted if and only if it fits or its 64-bit sum wraps around |
| `Collector.BytesAreConservedIff` | src/collector_server.c:458-550 | over every run, memory used is at all times the sum of the live lengths and the MR count their number if and only if no admitted registration wraps a counter around and no stray destruction comes while something is live |
| `Collector.StrayUndercounts` | src/collector_server.c:524-550 | a stray destruction makes the MR count one too small and takes its length off the memory used if that is large enough |
| `CollectorAdmission.QpsAreConservedIff` | src/collector_server.c:418-457 | over every run of request texts the QP count is at all times the number of QPs answered with success and not reported destroyed if and only if no stray destruction comes while one is live |
| `CollectorAdmission.GrantedQpsAreLimited` | src/collector_server.c:397-439 | then at most the maximum is live, another QP is refused exactly at the maximum, and the client reads the number from GET_STATS |
| `CollectorAdmission.StrayOvergrants` | src/collector_server.c:440-457 | a stray destruction at the maximum lets one QP too many be granted |
| `CollectorAdmission.CheckPredictsRegistration` | src/collector_server.c:458-523 | a memory check answers what a registration of that length would, and changes nothing |
| `CollectorAdmission.MalformedFails` | src/collector_server.c:484-558 | a malformed request is answered with a failure and changes nothing |
| `CollectorAdmission.StatsShowCounters` | src/collector_server.c:397-417 | the reply to GET_STATS shows MR count, memory used and memory maximum behind their own labels |
| `CollectorAdmission.UnlabelledReplyIsIgnored` | src/collector_client.c:57-75 | a reply without the labels leaves what the client knows alone |
| `ConfigFile.Interceptor.TrimWhitespace` | src/config.c:197-215 | the text between the first and the last character that is not white space |
| `ConfigFile.Interceptor.ParseConfigLine` | src/config.c:218-252 | a valid line assigns one field, any other line none, with -1 for an invalid one |
| `ConfigFile.Interceptor.LoadConfig` | src/config.c:348-414 | the whole load is the environment assignments followed by the file's lines |
| `ConfigFile.EnvAssigns` | src/config.c:255-345 | each variable that is set and parses gives its field its value and changes no other |
| `ConfigFile.LastValidAssignmentWins` | src/config.c:348-414 | after any load each field holds the value of its last valid line, else of its variable, else its old value |
| `ConfigFile.LimitsStayPositive` | src/config.c:55-345 | numeric limits that start in 1..2^32-1 stay there for every file and environment |
| `ConfigFile.WhitespaceIsIgnored` | src/config.c:197-252 | white space around the parts of a line does not change its meaning |
| `ConfigFile.KeyCaseIsIgnored` | src/config.c:240-249 | a key in any letter case selects its own field's parser |
| `ConfigValues.LineAssigns` | src/config.c:25-252 | a line whose key names a field in any letter case, with any white space around its parts, gives exactly this field what its value means: true/yes/on/1, false/no/off/0, the level names, a decimal number in range, or the bare path inside quotes |
| `ConfigValues.SaysIff` | src/config.c:125-170 | a text says a word if and only if it is that word up to capitals |
| `ConfigValues.SpacesAre` | src/config.c:173-215 | white space is six characters, and a path also sheds both quotation marks |
| `ConfigValues.MeaninglessLineIsIgnored` | src/config.c:25-252 | a line whose value means nothing to its field is invalid and changes nothing |
| `ConfigValues.CommentsAreSkipped` | src/config.c:222-228 | comments behind any white space, and empty lines, change nothing |
| `ConfigValues.UnknownKeyIsIgnored` | src/config.c:240-252 | a line with an unknown key is invalid and changes nothing |
| `ConfigValues.VariableAssigns` | src/config.c:255-345 | a variable gives its field what it means |
| `ConfigValues.MeaninglessVariableIsIgnored` | src/config.c:255-345 | a variable that means nothing, or is not set, leaves its field alone |
| `ConfigValues.FileIsItsLines` | src/config.c:390-395 | a file of lines that fit the buffer of 1024 bytes is seen as exactly these lines, with either kind of line end and with or without a last one |
| `ConfigValues.LongLineIsSplit` | src/config.c:390-395 | a longer line is seen as pieces of 1023 characters |

## Left out

- TenantQuota.SerialQuotaSafety: covers serial runs in which interception stays on, the tenant stays ACTIVE, nobody overwrites its usage record through the API, and no process with a live QP enters or leaves it; `QuotaHoldsIffActive`, `BindKeepsQpInvIff` and `AlwaysExactIff` show why.
- TenantMemory.RegisteredBytesBound: assumes a non-zero memory quota that does not change; a quota of 0 means no memory check in the code. Processes with a live region do not enter or leave the tenant.
- Noninterference.TenantsDoNotInterfere: does not cover runs that rebind processes or delete tenants; the global QP count is an input; processes of the tenant that create QPs and read the process table are listed in it, since others could otherwise take the last slot (`LimitHoldsIffListed`).
- CacheCoherence.CacheHitIsLatest: covers runs that keep cache and batching on, write through the batch entry point, prefetch no process with pending data and do not overflow the table; `PrefetchIsCoherentIff`, `DirectWriteSurvivesIff` and `UpdateReachesTableIff` say what happens otherwise.
- TenantQuota.QuotaHoldsIffActive: for a tenant with a process that its own per-process limit never stops; such a limit may stop a suspended tenant first. A recorded count of 2^32-1 is excluded.
- MemberLists.RunKeepsMembers: covers runs without a move of a mapped pid to another tenant, which break agreement (`BindKeepsMembersIff`).
- LockedRuns.RegistryRunsAreSerial: leaves out the version bump after the release and the status that `tenant_get_info` re-reads after the unlock.
- SlotwiseRegistry.SlotwiseImplements: deletion, binding, unbinding and lookup scan slot by slot, the other calls are one small step each; the final writes of a binding or unbinding are one step.
- CacheConcurrency.SingleProducerHitIsLatest: covers runs that keep cache and batching on and do not prefetch.
- TenantOvershoot.TenantOvershootIsBounded: for one ACTIVE tenant whose quota may change; quotas leave room for the threads in the 32-bit word; the other admission checks can only deny more.
- LocalHooks.OvershootIsBounded: for the path on which shared memory and eBPF are both unavailable and interception stays on; below 2^32 for limit plus threads, exactly by `LocalHooks.BoundHoldsIff`.
- ProcessAdmission.TableAdmissionIsSound: one thread per process; other processes write their own records at any time.
- Collector.LimitsHold: like the results of `CollectorAdmission`, without the synchronisation from eBPF that GET_STATS triggers first, which overwrites the counters.
- FallbackAdmission.AlwaysWithinIff: one thread; for limits below 2^32-1, since the 32-bit comparison never exceeds that one.
- UsageTotals.CountersAreCalls: serial runs in which the tenant stays ACTIVE and nobody overwrites its usage record.
- HashSpread.CollideIff: for bucket counts that divide 2^32, as the program's 256 does.
- ConfigValues.LineAssigns: number texts are plain decimals; the parser also takes a sign, leading white space and trailing text.
- TenantHooks.TenantProcess.CreateQueuePair: `total_qp_creates` and the other usage counters are unbounded integers; comparisons of counts are cast to their machine width as in the code.
- TenantRegistry.TenantShm.CreateTenant: member list and mapping array have the same symbolic length; time stamps are not kept.
- PolicyFile.PolicyManager.SaveConfig: once the file is open, every write to it succeeds.
- ConfigFile.Interceptor.LoadConfig: the file is the content of the first of the two paths that opens; a NUL byte inside a file is not modelled.
- PerfOptimizer.Optimizer.GetCached: the methods are sequential; `CacheConcurrency` takes each access under the entry's spin lock as one step. The unlocked fast check, which can only turn a hit into a miss, and the hit and miss counters are not modelled.
- NULL arguments and unmapped segments, which return an error before anything else, except where they are inputs above (name, quota, mapped table).
- Logging, `version` and `last_update_time` fields, `shm_init` and its re-zeroing of a used table.
- Latency statistics and adaptive TTL adjustment: floating-point reporting and a case split on the hit rate.
- `tenant_check_resource_limit`, the active list, printing and statistics getters: read-only case splits.
- The auto-adjust thread of the policy manager: it locks a mutex that its callee locks again, so no progress is claimed.
- Sockets, JSON, eBPF maps, dynamic symbol loading and the collector's per-process reply, which is an input.
- Address handle, shared receive queue and other hooks of `src/rdma_hooks.c` that only forward.
