# thread-scope in Dafny

A verified model of the core of thread-scope, a Java library that watches a
JVM's threads through the management beans, finds deadlocks, classifies
asynchronous threads (thread pools, `CompletableFuture`, reactive streams,
web servers, schedulers) and writes thread-dump snapshots as HTML and JSON.
The repository holds two generations of the same machinery, and both are
modelled:

- the new core (`com.threadscope.core.*`): the immutable `ThreadInfo` record,
  the `ThreadDetector` base with its `DetectionMetadata`, the deadlock and
  async detectors, `ThreadMonitorService` with its detectors and listeners,
  the snapshot generator with its HTML and JSON strategies, and the immutable
  `ThreadScopeConfig` with its `ConfigurationBuilder`;
- the legacy classes (`com.threadscope.*`): the mutable `ThreadInfo`, the
  legacy deadlock detector (`detectors.DeadlockDetector`), the legacy
  `AsyncThreadDetector` with its statistics, `ThreadMonitor`, the legacy
  `SnapshotGenerator`, the mutable `ThreadScopeConfig` and the
  `ThreadScopeConfigLoader` that fills it from YAML, a properties file,
  system properties and the environment.

## Layout

| file | module | models |
|---|---|---|
| `common.dfy` | `Common` | `Option`, `Fetch` (a call that returns or throws), durations, and sequence and string helpers with their lemmas |
| `management.dfy` | `Management` | the JVM's `ThreadMXBean` and `java.lang.management.ThreadInfo` as values; a call that can throw is a `Fetch` |
| `hash_order.dfy` | `JavaHash` | the iteration order of a default `HashSet<Long>` / `HashMap<Long, _>` (bucket index from `Long.hashCode` and the spread function, then insertion order within a bucket) |
| `owner_chain.dfy`, `deadlock_scan.dfy`, `cycle_closure.dfy` | `OwnerChain`, `DeadlockScan`, `CycleClosure` | the owner-chain walk both deadlock detectors share, the scan over a batch with its `processed` set, and what the scan's groups are |
| `detection.dfy` | `Detection` | `ThreadDetector`, `AbstractThreadDetector`, `DetectionMetadata`, `BaseThreadDetector.createMetadata` |
| `core_thread_info.dfy`, `legacy_thread_info.dfy` | `CoreThreadInfo`, `LegacyThreadInfo` | the two thread records and the conversions from the JVM's records |
| `core_deadlock.dfy`, `legacy_deadlock.dfy` | `CoreDeadlock`, `LegacyDeadlock` | the two deadlock detectors |
| `async_names.dfy`, `core_async.dfy`, `legacy_async.dfy` | `AsyncNames`, `CoreAsync`, `LegacyAsync` | the name and class-name tests, the two async classifiers, the legacy statistics |
| `system_threads.dfy` | `SystemThreads` | the system-thread name test |
| `monitor_service.dfy`, `legacy_monitor.dfy` | `MonitorService`, `LegacyMonitor` | the two monitors |
| `snapshot_text.dfy`, `core_snapshot.dfy`, `legacy_snapshot.dfy` | `SnapshotText`, `CoreSnapshot`, `LegacySnapshot` | HTML escaping and timestamps, and the two snapshot generators |
| `core_config.dfy`, `config_builder.dfy` | `CoreConfig`, `ConfigBuilder` | the immutable configuration and its builder |
| `legacy_config.dfy`, `config_loader.dfy` | `LegacyConfig`, `ConfigLoader` | the mutable configuration and its loader |

## Modelling choices

- Confidences and thresholds are integers in tenths (0.8 is 8). The scores
  of both detectors are sums of tenths. Two double sums of the core async
  score (0.7 + 0.1 and 0.7 + 0.2) fall just below their tenth in binary
  floating point. `CoreAsync.Reaches` is the comparison as the JVM computes
  it, and the model proves that only the thresholds 0.8 and 0.9 are affected.
- Objects whose fields the source changes are classes with `modifies`
  clauses: the monitor service, the legacy monitor, the legacy statistics,
  the legacy configuration sections and the core builders. The core
  configuration sections are classes with `const` fields. They have no
  `equals` of their own, so two sections are equal only when they are one
  object, and the top-level configuration, a datatype holding them,
  compares them the way `Objects.equals` does.
- Java `null` is `None` of an `Option`, or a nullable class type `C?`. This
  holds for every object-valued setting of the legacy configuration and for the format and
  directory of the core snapshot section, the core configuration's only
  object-valued settings its modelled operations read.
  A call into the JVM that can throw yields a `Fetch` (`Ok(value)` or
  `Threw`), and the `catch` blocks of the source are modelled on it.
- Each `getThreadInfo` call of a deadlock detector reads the thread table of
  its own moment (`Jvm.live` for the `findDeadlockedThreads` batch,
  `Jvm.monitorLive` for the monitor batch), so the second call can throw, or
  miss a thread that died, independently of the first.
- Iteration over a `HashSet` or a `HashMap` keyed by thread id follows the
  JDK's bucket order, with the table doubling both when it is three quarters
  full and when a key joins a bucket of eight in a table under 64 buckets.
  The order of the reported deadlocks and of the ids in each is the order
  Java produces as long as no bucket of a table of 64 or more buckets
  receives a ninth key (see "Left out").
- The clock, the logger, the file system and `Duration.parse` are
  parameters or are recorded as values (a log line, a file written).

## Where the code and its design notes differ

The model follows the code:

- In the core async detector, an executor thread named like "pool-3-thread-7" with no async frames scores 0.4 and is not async at the default threshold. The pattern token `pool` matches case-insensitively, but no known name occurs in the name case-sensitively (`CoreAsync.PlainPoolThreadNotAsync`, shown for "pool-1").
- The owner-chain walk of both deadlock detectors reports every thread it visited from the group's first member, the tail leading into the cycle included, not only the threads of the cycle. Which threads form a group therefore depends on the order of the records: a waiter met after its cycle was processed is dropped, one met before it heads a group holding the whole chain (`DeadlockScan.GroupingDependsOnOrder`).
- The legacy loader's class comment ranks the YAML file above the properties file, but `load()` applies the properties file after the YAML, so a key in both takes the properties file's value (`ConfigLoader.Loaded`, `ConfigLoader.Load`).

## Model

| member | source | states |
|---|---|---|
| Management.StateNameRoundTrip | threadscope-core/src/main/java/com/threadscope/core/ThreadInfo.java:209 | Every `Thread.State` has its own name and `valueOf` of that name gives the state back, so `from`'s state conversion never fails |
| Management.StateOfOnlyNames | threadscope-core/src/main/java/com/threadscope/core/ThreadInfo.java:209 | `valueOf` refuses every text that names no state |
| Management.ThreadInfos | threadscope-core/src/main/java/com/threadscope/core/monitoring/DeadlockDetector.java:91 | `getThreadInfo(ids)` against one thread table: one entry per requested id, in request order, holding that thread's record, null for a thread no longer alive; a throwing call throws |
| JavaHash.Capacity | threadscope-core/src/main/java/com/threadscope/core/monitoring/DeadlockDetector.java:92-104 | The table capacity of a default `HashMap`/`HashSet` after the distinct keys were added in order is at least 16 and keeps the load at most 0.75 |
| JavaHash.SmallTable | threadscope-core/src/main/java/com/threadscope/core/monitoring/DeadlockDetector.java:100-101 | At most eight keys leave a default table at its first 16 buckets |
| JavaHash.NinthKeyInBucketDoubles | threadscope-core/src/main/java/com/threadscope/core/monitoring/DeadlockDetector.java:100-101 | Nine keys of one bucket of 16 leave 32 buckets, not the 16 that nine keys alone would, and the set is iterated in bucket order under 32 buckets |
| JavaHash.FullBucket | threadscope-core/src/main/java/com/threadscope/core/monitoring/DeadlockDetector.java:100-101 | When every key falls into one bucket, that bucket holds all of them |
| JavaHash.OwnBucket | threadscope-core/src/main/java/com/threadscope/core/monitoring/DeadlockDetector.java:108-110 | Ids below the capacity fall into their own bucket |
| JavaHash.WrappedBucket | threadscope-core/src/main/java/com/threadscope/core/monitoring/DeadlockDetector.java:108-110 | Ids from the capacity to twice the capacity fall into bucket `id - capacity` |
| JavaHash.Bucket | threadscope-core/src/main/java/com/threadscope/core/monitoring/DeadlockDetector.java:108-110 | The bucket of a `long` key is its spread hash modulo the capacity, a value below the capacity |
| JavaHash.SetOrder | threadscope-core/src/main/java/com/threadscope/detectors/DeadlockDetector.java:92 | Iterating a default `HashSet<Long>` yields as many elements as were added |
| JavaHash.MapOrder | threadscope-core/src/main/java/com/threadscope/core/monitoring/DeadlockDetector.java:108-110 | Iterating a default `HashMap<Long, V>` yields as many entries as were put |
| JavaHash.SetOrderMembers | threadscope-core/src/main/java/com/threadscope/detectors/DeadlockDetector.java:92 | Iterating a set visits every element added exactly once; `iterator().next()` is one of them |
| JavaHash.MapOrderMembers | threadscope-core/src/main/java/com/threadscope/core/monitoring/DeadlockDetector.java:108-110 | `entrySet()` visits exactly the entries that were put |
| JavaHash.SortByKeySpec | threadscope-core/src/main/java/com/threadscope/core/monitoring/DeadlockDetector.java:108-110 | Ordering by bucket is a stable sort: a permutation, sorted by bucket |
| JavaHash.SmallLongHash | threadscope-core/src/main/java/com/threadscope/core/monitoring/DeadlockDetector.java:108-110 | `Long.hashCode` of an id in [0, 65536) is the id itself |
| JavaHash.SmallSpread | threadscope-core/src/main/java/com/threadscope/core/monitoring/DeadlockDetector.java:108-110 | `HashMap.hash` leaves a hash below 65536 unchanged |
| JavaHash.SmallIdBucket | threadscope-core/src/main/java/com/threadscope/core/monitoring/DeadlockDetector.java:108-110 | Ids in [0, 65536) fall in bucket `id % capacity` |
| JavaHash.LargeIdsWrap | threadscope-core/src/main/java/com/threadscope/core/monitoring/DeadlockDetector.java:108-110 | Bucket order is not id order: with 16 buckets an id from 16 to 31 is visited before a smaller id of a higher bucket, as 17 before 15 |
| JavaHash.SmallIdsAscending | threadscope-core/src/main/java/com/threadscope/core/monitoring/DeadlockDetector.java:108-110 | Ids below 16 are visited in ascending order, not insertion order: two ids added larger first are visited smaller first |
| OwnerChain.FindFrom | threadscope-core/src/main/java/com/threadscope/core/monitoring/DeadlockDetector.java:133-138 | The search for the owner's record returns the first non-null record with that id, from a given index on |
| OwnerChain.FindFromNone | threadscope-core/src/main/java/com/threadscope/core/monitoring/DeadlockDetector.java:133-138 | The search finds nothing exactly when no record from that index on has the id |
| OwnerChain.Owner | threadscope-core/src/main/java/com/threadscope/core/monitoring/DeadlockDetector.java:129-140 | The walk follows a thread only when it waits on a lock with an owner (`lockOwnerId != -1`) whose record is present |
| OwnerChain.OwnerFound | threadscope-core/src/main/java/com/threadscope/core/monitoring/DeadlockDetector.java:129-140 | The walk can follow a thread exactly when its lock has an owner that is among the records (both directions) |
| OwnerChain.Walk | threadscope-core/src/main/java/com/threadscope/core/monitoring/DeadlockDetector.java:116-146 | The records `findCycle` adds, in order: none for a processed thread, else the thread followed by the walk from its owner with the thread marked processed; the properties are the Walk lemmas below |
| OwnerChain.WalkStep | threadscope-core/src/main/java/com/threadscope/core/monitoring/DeadlockDetector.java:116-146 | One step of `findCycle`: an unprocessed thread is added, then the walk continues from its owner, if any |
| OwnerChain.WalkFresh | threadscope-core/src/main/java/com/threadscope/core/monitoring/DeadlockDetector.java:118-127 | Every thread the walk adds comes from the records and was not processed before |
| OwnerChain.WalkDistinct | threadscope-core/src/main/java/com/threadscope/core/monitoring/DeadlockDetector.java:122-127 | `findCycle` never adds an id twice |
| OwnerChain.WalkFollows | threadscope-core/src/main/java/com/threadscope/core/monitoring/DeadlockDetector.java:129-140 | Each thread the walk adds after the first owns the lock the one before it waits on |
| OwnerChain.WalkStops | threadscope-core/src/main/java/com/threadscope/core/monitoring/DeadlockDetector.java:118-140 | The walk ends only at a thread with no owner to follow, or whose owner was already seen |
| OwnerChain.FindCycle | threadscope-core/src/main/java/com/threadscope/core/monitoring/DeadlockDetector.java:116-146 | `findCycle` as a recursive method: `cycle` and `processed` grow by exactly the ids of the walk, in the order added |
| OwnerChain.LockOwner | threadscope-core/src/main/java/com/threadscope/core/monitoring/DeadlockDetector.java:133-145 | The owner `findCycle` recurses into: none unless the thread waits on a lock whose owner id is not -1, then the first matching record |
| OwnerChain.FindOwner | threadscope-core/src/main/java/com/threadscope/core/monitoring/DeadlockDetector.java:138-143 | The loop over the records stops at the first non-null record whose id is the owner's, and finds nothing when there is none |
| DeadlockScan.PutNew | threadscope-core/src/main/java/com/threadscope/core/monitoring/DeadlockDetector.java:103-105 | `put` of a key not yet present appends its entry |
| DeadlockScan.PutReplaces | threadscope-core/src/main/java/com/threadscope/core/monitoring/DeadlockDetector.java:103-105 | `put` of a present key replaces its value in place and keeps the order |
| DeadlockScan.KeyInGroup | threadscope-core/src/main/java/com/threadscope/core/monitoring/DeadlockDetector.java:104 | The key a group is put under, `cycle.iterator().next()`, is one of its ids |
| DeadlockScan.Keyed | threadscope-core/src/main/java/com/threadscope/core/monitoring/DeadlockDetector.java:103-105 | The map's entries: one per group, each under its key |
| DeadlockScan.ScanUpTo | threadscope-core/src/main/java/com/threadscope/core/monitoring/DeadlockDetector.java:90-106 | The map and processed set after the loop of `analyzeDeadlockCycles` has looked at `n` records: a null or processed record leaves them, another is visited |
| DeadlockScan.Visit | threadscope-core/src/main/java/com/threadscope/core/monitoring/DeadlockDetector.java:95-106 | One visit: `findCycle` from the record, its ids marked processed, and the group kept only when it has more than one id |
| DeadlockScan.ScanUnfold | threadscope-core/src/main/java/com/threadscope/core/monitoring/DeadlockDetector.java:93-106 | The state after `n` records is the state after `n - 1` records, or that state with record `n - 1` visited |
| DeadlockScan.WalkIds | threadscope-core/src/main/java/com/threadscope/core/monitoring/DeadlockDetector.java:100-101 | The walk from an unprocessed record yields fresh, distinct ids of records |
| DeadlockScan.GroupedAdd | threadscope-core/src/main/java/com/threadscope/core/monitoring/DeadlockDetector.java:103-105 | Adding a fresh group of two or more ids keeps the groups well formed and pairwise disjoint |
| DeadlockScan.VisitGrouped | threadscope-core/src/main/java/com/threadscope/core/monitoring/DeadlockDetector.java:95-106 | One visit keeps the groups well formed and disjoint, and marks the record processed |
| DeadlockScan.VisitPut | threadscope-core/src/main/java/com/threadscope/core/monitoring/DeadlockDetector.java:103-105 | The key of a new group is never already in the map, so `put` appends rather than replaces |
| DeadlockScan.VisitProcessedOwner | threadscope-core/src/main/java/com/threadscope/core/monitoring/DeadlockDetector.java:95-106 | A thread whose owner is already processed adds no group and marks only its own id processed |
| DeadlockScan.GroupingDependsOnOrder | threadscope-core/src/main/java/com/threadscope/core/monitoring/DeadlockDetector.java:95-123 | The groups depend on the records' order: with 1 and 2 waiting on each other and 3 on 1, the order 1, 2, 3 gives [1, 2] and drops 3, the order 3, 1, 2 gives [3, 1, 2] |
| DeadlockScan.ScanGrouped | threadscope-core/src/main/java/com/threadscope/core/monitoring/DeadlockDetector.java:90-111 | After any prefix of the records the groups are well formed and disjoint, and every non-null record passed over is processed |
| DeadlockScan.AnalyzeDeadlockCycles | threadscope-core/src/main/java/com/threadscope/core/monitoring/DeadlockDetector.java:90-111 | `analyzeDeadlockCycles`: null records and processed threads are skipped; the result is the map's cycles in iteration order |
| DeadlockScan.AnalyzeOne | threadscope-core/src/main/java/com/threadscope/core/monitoring/DeadlockDetector.java:94-106 | One loop pass over record `i` advances the map and the processed set by exactly the scan's step for that record |
| DeadlockScan.CyclesOf | threadscope-core/src/main/java/com/threadscope/core/monitoring/DeadlockDetector.java:90-111 | The cycles returned: one `DeadlockCycle` per map entry in iteration order, key as id and the set's ids in iteration order; properties in the lemmas below |
| DeadlockScan.CycleFromGroup | threadscope-core/src/main/java/com/threadscope/core/monitoring/DeadlockDetector.java:108-110 | Every reported cycle is the cycle of one group of the final scan |
| DeadlockScan.CyclesWellFormed | threadscope-core/src/main/java/com/threadscope/core/monitoring/DeadlockDetector.java:90-111 | Every cycle lists at least two distinct ids of the records, and its id is the first of them |
| DeadlockScan.CyclesDisjoint | threadscope-core/src/main/java/com/threadscope/core/monitoring/DeadlockDetector.java:90-111 | Two cycles with different ids share no thread |
| DeadlockScan.CycleOfGroup | threadscope-core/src/main/java/com/threadscope/core/monitoring/DeadlockDetector.java:108-110 | The cycle of a group has the group's key as id and the group's ids as members |
| CycleClosure.IndexOf | threadscope-core/src/main/java/com/threadscope/core/monitoring/DeadlockDetector.java:133-138 | A record found by the search sits at some index of the input |
| CycleClosure.SameId | threadscope-core/src/main/java/com/threadscope/core/monitoring/DeadlockDetector.java:44-47 | When the records form ownership cycles, a record is determined by its id |
| CycleClosure.SameOwner | threadscope-core/src/main/java/com/threadscope/core/monitoring/DeadlockDetector.java:44-47 | When the records form ownership cycles, a record is determined by the owner it waits on |
| CycleClosure.WaitsOnRecord | threadscope-core/src/main/java/com/threadscope/core/monitoring/DeadlockDetector.java:129-140 | When the records form ownership cycles, every record waits on an owned lock whose owner is a record |
| CycleClosure.OwnerIsNext | threadscope-core/src/main/java/com/threadscope/core/monitoring/DeadlockDetector.java:129-140 | When the records form ownership cycles, the walk can always follow a thread to its owner |
| CycleClosure.LastWaitsOnFirst | threadscope-core/src/main/java/com/threadscope/core/monitoring/DeadlockDetector.java:116-146 | In an owner chain without repeated ids, the last thread can wait only on the first |
| CycleClosure.WalkCloses | threadscope-core/src/main/java/com/threadscope/core/monitoring/DeadlockDetector.java:116-146 | The walk from an unprocessed thread ends at the thread waiting on the start: it goes round the whole cycle |
| CycleClosure.WalkOwnersInside | threadscope-core/src/main/java/com/threadscope/core/monitoring/DeadlockDetector.java:116-146 | Every thread of the walk waits on a thread of the walk |
| CycleClosure.WalkWaitersInside | threadscope-core/src/main/java/com/threadscope/core/monitoring/DeadlockDetector.java:116-146 | Every thread waiting on a thread of the walk is in the walk |
| CycleClosure.WalkKeepsClosed | threadscope-core/src/main/java/com/threadscope/core/monitoring/DeadlockDetector.java:100-101 | Adding the walk of an unprocessed thread keeps the processed set closed under ownership |
| CycleClosure.CoveredMember | threadscope-core/src/main/java/com/threadscope/core/monitoring/DeadlockDetector.java:103-105 | An id is covered exactly when some group holds it |
| CycleClosure.SingleWalkOwnsItself | threadscope-core/src/main/java/com/threadscope/core/monitoring/DeadlockDetector.java:102 | A walk of a single thread happens only for a thread owning the lock it waits on |
| CycleClosure.ClosedStep | threadscope-core/src/main/java/com/threadscope/core/monitoring/DeadlockDetector.java:93-106 | One step of the scan keeps the processed ids closed under ownership |
| CycleClosure.GroupsClosedStep | threadscope-core/src/main/java/com/threadscope/core/monitoring/DeadlockDetector.java:93-106 | One step of the scan keeps every group closed under ownership |
| CycleClosure.CoveredStep | threadscope-core/src/main/java/com/threadscope/core/monitoring/DeadlockDetector.java:93-106 | One step of the scan keeps every processed waiting thread inside some group |
| CycleClosure.GroupReported | threadscope-core/src/main/java/com/threadscope/core/monitoring/DeadlockDetector.java:108-110 | Every group of the final scan is reported as a cycle |
| CycleClosure.ReportedCyclesClosed | threadscope-core/src/main/java/com/threadscope/core/monitoring/DeadlockDetector.java:90-111 | When the records form ownership cycles, no thread of a reported cycle waits on a thread outside it |
| CycleClosure.EveryWaitingThreadReported | threadscope-core/src/main/java/com/threadscope/core/monitoring/DeadlockDetector.java:90-111 | When the records form ownership cycles, every thread that does not own its own lock is in some reported cycle |
| Detection.IsValidConfidence | threadscope-core/src/main/java/com/threadscope/core/monitoring/ThreadDetector.java:120-122 | `isValidConfidence`: the confidence reaches the detector's threshold; upward closed by the next row |
| Detection.ValidConfidenceUpward | threadscope-core/src/main/java/com/threadscope/core/monitoring/ThreadDetector.java:120-122 | `isValidConfidence` is upward closed: a confidence above a valid one is valid |
| Detection.FilterThreads | threadscope-core/src/main/java/com/threadscope/core/monitoring/ThreadDetector.java:111-115 | `filterThreads` keeps exactly the threads satisfying the predicate, in their original order |
| Detection.CreateMetadata | threadscope-core/src/main/java/com/threadscope/core/monitoring/BaseThreadDetector.java:16-23 | `createMetadata`: the detector's name, the clock reading, version "1.0.0" and the description |
| Detection.MetadataOnlyTimeVaries | threadscope-core/src/main/java/com/threadscope/core/monitoring/BaseThreadDetector.java:16-23 | Two metadata records of one detector with one description differ at most in their timestamp |
| CoreThreadInfo.OrEmpty | threadscope-core/src/main/java/com/threadscope/core/ThreadInfo.java:53-55 | A null list argument is kept as the empty list; any other list is kept as given |
| CoreThreadInfo.Create | threadscope-core/src/main/java/com/threadscope/core/ThreadInfo.java:35-59 | The constructor keeps every argument, except that a null stack, monitor or synchronizer list becomes empty |
| CoreThreadInfo.WithAsyncInfo | threadscope-core/src/main/java/com/threadscope/core/ThreadInfo.java:84-91 | `withAsyncInfo` gives a copy that has the given async values and agrees with the original on every other field |
| CoreThreadInfo.WithOwnAsyncInfo | threadscope-core/src/main/java/com/threadscope/core/ThreadInfo.java:84-91 | Copying with the record's own async values gives the record back |
| CoreThreadInfo.WithAsyncInfoTwice | threadscope-core/src/main/java/com/threadscope/core/ThreadInfo.java:84-91 | Of two successive `withAsyncInfo` copies the second decides the async fields |
| CoreThreadInfo.SameExceptAsyncTransitive | threadscope-core/src/main/java/com/threadscope/core/ThreadInfo.java:84-91 | Differing only in the async fields is reflexive, symmetric and transitive |
| CoreThreadInfo.Int32 | threadscope-core/src/main/java/com/threadscope/core/ThreadInfo.java:102-104 | A Java `int` read from its 32-bit pattern lies in [-2^31, 2^31) |
| CoreThreadInfo.ObjectsHash | threadscope-core/src/main/java/com/threadscope/core/ThreadInfo.java:102-104 | `Objects.hash(x)`, computed as `31 + h` with `int` wrap-around, is a value in the `int` range |
| CoreThreadInfo.ObjectsHashSmall | threadscope-core/src/main/java/com/threadscope/core/ThreadInfo.java:102-104 | Below the wrap-around, `Objects.hash` adds 31 |
| CoreThreadInfo.HashCode | threadscope-core/src/main/java/com/threadscope/core/ThreadInfo.java:102-104 | `hashCode` lies in the `int` range |
| CoreThreadInfo.Equals | threadscope-core/src/main/java/com/threadscope/core/ThreadInfo.java:93-99 | `equals`: two records are equal exactly when their ids are; an equivalence by EqualsIsEquivalence |
| CoreThreadInfo.HashCodeConsistent | threadscope-core/src/main/java/com/threadscope/core/ThreadInfo.java:93-104 | Records that are `equals` have the same `hashCode` |
| CoreThreadInfo.EqualsIsEquivalence | threadscope-core/src/main/java/com/threadscope/core/ThreadInfo.java:93-99 | `equals` by id is reflexive, symmetric and transitive |
| CoreThreadInfo.WithAsyncInfoEquals | threadscope-core/src/main/java/com/threadscope/core/ThreadInfo.java:84-99 | A `withAsyncInfo` copy equals its original and hashes alike |
| CoreThreadInfo.SmallIdHashCode | threadscope-core/src/main/java/com/threadscope/core/ThreadInfo.java:102-104 | A thread id in [0, 65536) hashes to `31 + id` |
| CoreThreadInfo.MonitorOf | threadscope-core/src/main/java/com/threadscope/core/ThreadInfo.java:185-192 | One locked monitor copied field for field: class, identity hash, stack depth, frame |
| CoreThreadInfo.LockOf | threadscope-core/src/main/java/com/threadscope/core/ThreadInfo.java:198-203 | One locked synchronizer copied field for field: class and identity hash |
| CoreThreadInfo.FromRecord | threadscope-core/src/main/java/com/threadscope/core/ThreadInfo.java:178-226 | What `from` builds from a JVM record stamped with the clock; its fields are stated by the next row, its copy loops by `From` |
| CoreThreadInfo.FromRecordFields | threadscope-core/src/main/java/com/threadscope/core/ThreadInfo.java:178-226 | `from` copies id, name, state, daemon, priority, lock fields, native and suspended flags and stack; CPU and user time are 0, not async, type UNKNOWN; one monitor and lock per JVM entry, in order |
| CoreThreadInfo.From | threadscope-core/src/main/java/com/threadscope/core/ThreadInfo.java:178-226 | `ThreadInfo.from`, with its two copy loops, builds exactly the record `FromRecord` describes |
| LegacyThreadInfo.Convert | threadscope-core/src/main/java/com/threadscope/detectors/DeadlockDetector.java:138-191 | `convertToThreadInfo` copies the JVM record, fills the given CPU and user times, and leaves the async fields off |
| LegacyThreadInfo.ConvertStateReadsBack | threadscope-core/src/main/java/com/threadscope/ThreadMonitor.java:187 | The state text of a converted record names the JVM state it came from |
| LegacyThreadInfo.MarkAsync | threadscope-core/src/main/java/com/threadscope/ThreadMonitor.java:152-155 | Marking a record async sets the flag and the type name and changes nothing else |
| CoreDeadlock.Configured | threadscope-core/src/main/java/com/threadscope/core/monitoring/DeadlockDetector.java:22-25 | The two-argument constructor keeps the name "DeadlockDetector", the flag and the threshold |
| CoreDeadlock.Detect | threadscope-core/src/main/java/com/threadscope/core/monitoring/DeadlockDetector.java:28-32 | `detect` of one thread never reports a deadlock: not deadlocked, no threads, confidence 0, the detector's metadata |
| CoreDeadlock.CycleConfidence | threadscope-core/src/main/java/com/threadscope/core/monitoring/DeadlockDetector.java:151-160 | `calculateCycleConfidence` scores every cycle between 0.5 and 1.0 |
| CoreDeadlock.CycleConfidenceMonotone | threadscope-core/src/main/java/com/threadscope/core/monitoring/DeadlockDetector.java:151-160 | A larger cycle never scores lower, and every cycle of two or more threads scores at least 0.8 |
| CoreDeadlock.Results | threadscope-core/src/main/java/com/threadscope/core/monitoring/DeadlockDetector.java:68-85 | The results the loop of `processDeadlockCycles` collects over the cycles, one per cycle that passes `isValidConfidence`; stated by ResultsSpec |
| CoreDeadlock.ResultsSpec | threadscope-core/src/main/java/com/threadscope/core/monitoring/DeadlockDetector.java:68-85 | The results are exactly the cycles whose confidence reaches the threshold, in order, each a deadlock with its own ids and confidence |
| CoreDeadlock.ResultsFiltered | threadscope-core/src/main/java/com/threadscope/core/monitoring/DeadlockDetector.java:68-85 | The results are the cycles passing the threshold, in the cycles' order, each reported by its own `DeadlockDetectionResult` |
| CoreDeadlock.ResultsKeepAll | threadscope-core/src/main/java/com/threadscope/core/monitoring/DeadlockDetector.java:68-85 | With a threshold of at most 0.8 every cycle of two or more threads is kept, in order |
| CoreDeadlock.ProcessDeadlockCycles | threadscope-core/src/main/java/com/threadscope/core/monitoring/DeadlockDetector.java:68-85 | `processDeadlockCycles` with its loop returns exactly the results of the cycles of the grouped records |
| CoreDeadlock.ResultsOfCyclesWellFormed | threadscope-core/src/main/java/com/threadscope/core/monitoring/DeadlockDetector.java:68-85 | Every result of one batch is a deadlock of at least two distinct ids that reached the threshold |
| CoreDeadlock.Batch | threadscope-core/src/main/java/com/threadscope/core/monitoring/DeadlockDetector.java:44-55 | One guarded batch against the thread table of its own `getThreadInfo` call: a throwing call throws, null or empty ids give nothing, else the results of the cycles |
| CoreDeadlock.DetectAllOf | threadscope-core/src/main/java/com/threadscope/core/monitoring/DeadlockDetector.java:35-63 | What `detectAll` returns: nothing when disabled or when a call throws, the first batch, then the monitor batch only when supported |
| CoreDeadlock.DetectAll | threadscope-core/src/main/java/com/threadscope/core/monitoring/DeadlockDetector.java:35-63 | `detectAll`: nothing when disabled or when a JVM call throws; otherwise the batch of `findDeadlockedThreads`, then the monitor batch when supported, each read from its own `getThreadInfo` call |
| CoreDeadlock.BatchOf | threadscope-core/src/main/java/com/threadscope/core/monitoring/DeadlockDetector.java:44-55 | One guarded batch: a null or empty id list gives no results, otherwise the results of `processDeadlockCycles`; a throwing call is passed on |
| CoreDeadlock.DetectAllEmpty | threadscope-core/src/main/java/com/threadscope/core/monitoring/DeadlockDetector.java:36-38 | A disabled detector, or a failing first call, gives no results at all |
| CoreDeadlock.MonitorLookupThrows | threadscope-core/src/main/java/com/threadscope/core/monitoring/DeadlockDetector.java:44-63 | When the monitor batch's `getThreadInfo` throws, the catch returns the empty list, dropping the first batch's results too |
| CoreDeadlock.BatchWellFormed | threadscope-core/src/main/java/com/threadscope/core/monitoring/DeadlockDetector.java:44-55 | Every result of one guarded batch is well formed |
| CoreDeadlock.DetectAllWellFormed | threadscope-core/src/main/java/com/threadscope/core/monitoring/DeadlockDetector.java:35-63 | Every result of `detectAll` is a deadlock of at least two distinct threads whose confidence reached the threshold |
| CoreDeadlock.DeadlockedFirst | threadscope-core/src/main/java/com/threadscope/core/monitoring/DeadlockDetector.java:44-55 | The results for `findDeadlockedThreads` come before those for monitor deadlocks |
| CoreDeadlock.EveryDeadlockedThreadReported | threadscope-core/src/main/java/com/threadscope/core/monitoring/DeadlockDetector.java:35-111 | With a threshold of at most 0.8, when the deadlocked threads form closed ownership cycles, every one of them that does not own its own lock is reported |
| LegacyDeadlock.Converted | threadscope-core/src/main/java/com/threadscope/detectors/DeadlockDetector.java:138-191 | The legacy detector's conversion never reads CPU times: both stay 0 |
| LegacyDeadlock.AnalyzeDeadlockCycles | threadscope-core/src/main/java/com/threadscope/detectors/DeadlockDetector.java:79-97 | `analyzeDeadlockCycles`: the groups in the order they were put, or an exception at the first null record |
| LegacyDeadlock.AnalyzePresent | threadscope-core/src/main/java/com/threadscope/detectors/DeadlockDetector.java:83-94 | One loop pass: a null record throws; otherwise the scan advances by that record |
| LegacyDeadlock.DetectDeadlocks | threadscope-core/src/main/java/com/threadscope/detectors/DeadlockDetector.java:28-74 | `detectDeadlocks`: one `DeadlockInfo` per map entry in iteration order, with its key, ids, clock value and converted records; nothing when the first batch's calls throw |
| LegacyDeadlock.ReportCycles | threadscope-core/src/main/java/com/threadscope/detectors/DeadlockDetector.java:43-56 | The loop over the map's entries builds one `DeadlockInfo` per cycle, in map iteration order |
| LegacyDeadlock.InfosStep | threadscope-core/src/main/java/com/threadscope/detectors/DeadlockDetector.java:43-57 | The list of infos grows by the info of the next map entry, in iteration order |
| LegacyDeadlock.DeadlocksEmpty | threadscope-core/src/main/java/com/threadscope/detectors/DeadlockDetector.java:28-74 | No deadlocked ids, a failing call, or a thread that died in between: nothing is reported |
| LegacyDeadlock.MonitorBranchAddsNothing | threadscope-core/src/main/java/com/threadscope/detectors/DeadlockDetector.java:60-67 | The monitor-deadlock calls never change the result |
| LegacyDeadlock.InfoThreads | threadscope-core/src/main/java/com/threadscope/detectors/DeadlockDetector.java:50-53 | A deadlock's records are exactly the converted records whose id is in its cycle, in input order |
| LegacyDeadlock.DeadlocksWellFormed | threadscope-core/src/main/java/com/threadscope/detectors/DeadlockDetector.java:28-133 | Every reported deadlock has at least two distinct ids, its `cycleId` is the first of them, its timestamp is the clock value, and each record it carries is of one of its threads |
| LegacyDeadlock.DeadlocksDisjoint | threadscope-core/src/main/java/com/threadscope/detectors/DeadlockDetector.java:79-97 | Two reported deadlocks with different `cycleId`s share no thread |
| AsyncNames.ContainsAny | threadscope-core/src/main/java/com/threadscope/core/monitoring/AsyncThreadDetector.java:70 | `anyMatch(name::contains)` over a list, tried from the left; both directions of its meaning in ContainsAnyIff |
| AsyncNames.PatternMatch | threadscope-core/src/main/java/com/threadscope/core/monitoring/AsyncThreadDetector.java:15-17 | The case-insensitive async name pattern: one of its alternatives occurs in the name with ASCII letters folded |
| AsyncNames.KnownName | threadscope-core/src/main/java/com/threadscope/core/monitoring/AsyncThreadDetector.java:19-22 | The name contains one of the known async thread names |
| AsyncNames.IsAsyncClass | threadscope-core/src/main/java/com/threadscope/AsyncThreadDetector.java:91-106 | Legacy `isAsyncClass`: the class name contains one of the fifteen fragments |
| AsyncNames.ContainsAnyIff | threadscope-core/src/main/java/com/threadscope/core/monitoring/AsyncThreadDetector.java:70 | `anyMatch(name::contains)` holds exactly when one of the known names occurs in the thread name (both directions) |
| AsyncNames.PatternMatchIgnoresCase | threadscope-core/src/main/java/com/threadscope/core/monitoring/AsyncThreadDetector.java:15-17 | The `(?i)` pattern matches two names that differ only in ASCII letter case alike |
| AsyncNames.CountContainedBounds | threadscope-core/src/main/java/com/threadscope/core/monitoring/AsyncThreadDetector.java:77-79 | The per-frame count of async class fragments is at most 15 and is positive exactly when one fragment occurs |
| AsyncNames.TraceCount | threadscope-core/src/main/java/com/threadscope/core/monitoring/AsyncThreadDetector.java:76-82 | The stream sum over the frames of how many fragments each class name contains; positive exactly when some frame contains one, by the next row |
| AsyncNames.TraceCountPositive | threadscope-core/src/main/java/com/threadscope/core/monitoring/AsyncThreadDetector.java:76-82 | The stack sum is positive exactly when some frame's class name contains a fragment |
| AsyncNames.TraceMatchesPositive | threadscope-core/src/main/java/com/threadscope/core/monitoring/AsyncThreadDetector.java:76-82 | The new detector's stack sum is positive exactly when some frame is of an async class |
| AsyncNames.TraceCountAppend | threadscope-core/src/main/java/com/threadscope/core/monitoring/AsyncThreadDetector.java:76-80 | The stack sum of two stacks one after the other is the sum of the two |
| AsyncNames.CompletableFutureCountsTwice | threadscope-core/src/main/java/com/threadscope/core/monitoring/AsyncThreadDetector.java:24-28 | A class name containing "CompletableFuture" counts at least twice, since it also contains "Future" |
| AsyncNames.FirstMatchFirst | threadscope-core/src/main/java/com/threadscope/core/monitoring/AsyncThreadDetector.java:93-133 | In a chain of `if (...) return` tests, the first test that holds decides the category whatever later tests say |
| AsyncNames.FirstMatchNone | threadscope-core/src/main/java/com/threadscope/core/monitoring/AsyncThreadDetector.java:132 | When no test holds, the fallback category is returned |
| CoreAsync.Configured | threadscope-core/src/main/java/com/threadscope/core/monitoring/AsyncThreadDetector.java:34-36 | The two-argument constructor keeps the name "AsyncThreadDetector", the flag and the threshold |
| CoreAsync.StackScore | threadscope-core/src/main/java/com/threadscope/core/monitoring/AsyncThreadDetector.java:75-85 | The stack's share is between 0 and 0.3, is 0 exactly when no frame is of an async class, and is 0.3 once three fragments occur |
| CoreAsync.Confidence | threadscope-core/src/main/java/com/threadscope/core/monitoring/AsyncThreadDetector.java:61-88 | `calculateConfidence` lies in [0, 1]; it is 0 exactly when neither name test nor any frame signals; without a name signal it is at most 0.3; a pattern match gives at least 0.4 |
| CoreAsync.ReachesExceptAtEightAndNine | threadscope-core/src/main/java/com/threadscope/core/monitoring/AsyncThreadDetector.java:45 | The `double` comparison `confidence >= threshold` agrees with the exact sum for every threshold except 0.8 and 0.9 |
| CoreAsync.StackAloneNotAsyncByDefault | threadscope-core/src/main/java/com/threadscope/core/monitoring/AsyncThreadDetector.java:30-32 | At the default threshold 0.5 the stack alone never makes a thread async |
| CoreAsync.PatternAndFrameAsyncByDefault | threadscope-core/src/main/java/com/threadscope/core/monitoring/AsyncThreadDetector.java:30-32 | At the default threshold a pattern match plus one async frame makes a thread async |
| CoreAsync.Categorize | threadscope-core/src/main/java/com/threadscope/core/monitoring/AsyncThreadDetector.java:93-133 | `categorizeAsyncThread` never returns UNKNOWN |
| CoreAsync.RulesMatchTests | threadscope-core/src/main/java/com/threadscope/core/monitoring/AsyncThreadDetector.java:96-130 | Each line of the category table holds exactly when the matching `if` test of the source does |
| CoreAsync.CategorizeByRules | threadscope-core/src/main/java/com/threadscope/core/monitoring/AsyncThreadDetector.java:93-133 | The categoriser returns the category of the first table line that holds, else OTHER_ASYNC |
| CoreAsync.CompletableFutureFirst | threadscope-core/src/main/java/com/threadscope/core/monitoring/AsyncThreadDetector.java:97-100 | A thread whose name contains "CompletableFuture" is COMPLETABLE_FUTURE whatever else it shows |
| CoreAsync.Metadata | threadscope-core/src/main/java/com/threadscope/core/monitoring/AsyncThreadDetector.java:147-149 | The metadata carries the detector's name, the clock value, version "1.0.0" and the fixed description |
| CoreAsync.Detect | threadscope-core/src/main/java/com/threadscope/core/monitoring/AsyncThreadDetector.java:39-49 | `detect`: disabled gives not async, UNKNOWN, 0; enabled gives the confidence and `isAsync` exactly at the threshold; the type is UNKNOWN exactly when not async, else the category |
| CoreAsync.DetectAll | threadscope-core/src/main/java/com/threadscope/core/monitoring/AsyncThreadDetector.java:52-56 | `detectAll`: one result per thread, result `i` being `detect` of thread `i` |
| CoreAsync.DetectThresholdMonotone | threadscope-core/src/main/java/com/threadscope/core/monitoring/AsyncThreadDetector.java:45 | Raising the threshold can only turn async results into non-async ones |
| CoreAsync.DetectNameAndStackOnly | threadscope-core/src/main/java/com/threadscope/core/monitoring/AsyncThreadDetector.java:39-49 | Detection reads nothing of a thread but its name and stack |
| CoreAsync.DetectIgnoresAsyncFields | threadscope-core/src/main/java/com/threadscope/core/monitoring/AsyncThreadDetector.java:39-49 | A `withAsyncInfo` copy of a thread is detected exactly like the thread |
| CoreAsync.KnownNamesStartUpperCase | threadscope-core/src/main/java/com/threadscope/core/monitoring/AsyncThreadDetector.java:19-22 | Every known async thread name is non-empty and starts with an upper-case letter |
| CoreAsync.PlainPoolThreadNotAsync | threadscope-core/src/main/java/com/threadscope/core/monitoring/AsyncThreadDetector.java:61-88 | A thread named "pool-1" with an empty stack scores 0.4 and is not async at the default threshold |
| CoreAsync.MonoCountsOnce | threadscope-core/src/main/java/com/threadscope/core/monitoring/AsyncThreadDetector.java:24-28 | Of the async fragments only "Mono" occurs in the class name "Mono" |
| CoreAsync.ForkJoinPoolMatchesPattern | threadscope-core/src/main/java/com/threadscope/core/monitoring/AsyncThreadDetector.java:15-17 | "ForkJoinPool" matches the case-insensitive pattern through "pool" |
| CoreAsync.ForkJoinPoolNameSignals | threadscope-core/src/main/java/com/threadscope/core/monitoring/AsyncThreadDetector.java:65-72 | "ForkJoinPool" matches the pattern and is a known name |
| CoreAsync.EightTenthsBelowThresholdEight | threadscope-core/src/main/java/com/threadscope/core/monitoring/AsyncThreadDetector.java:61-88 | "ForkJoinPool" with one `Mono` frame scores 0.8 in tenths, but the `double` sum 0.4 + 0.3 + 0.1 is below 0.8, so a threshold of 0.8 rejects it |
| LegacyAsync.TypeNameInjective | threadscope-core/src/main/java/com/threadscope/ThreadMonitor.java:154 | Distinct categories have distinct `name()` texts, so the stored text identifies the category |
| LegacyAsync.ToCore | threadscope-core/src/main/java/com/threadscope/AsyncThreadDetector.java:201-211 | Every legacy category corresponds to a core category other than UNKNOWN |
| LegacyAsync.IsAsyncThread | threadscope-core/src/main/java/com/threadscope/AsyncThreadDetector.java:27-86 | Both `isAsyncThread` overloads with their loops decide exactly the async signs: name pattern, a known name, or (with a stack) an async class frame |
| LegacyAsync.AnyContained | threadscope-core/src/main/java/com/threadscope/AsyncThreadDetector.java:36-40 | The loop over the known names returns true exactly when the name contains one of them |
| LegacyAsync.AnyFrameContainsAny | threadscope-core/src/main/java/com/threadscope/AsyncThreadDetector.java:44-51 | The loop over the frames returns true exactly when some frame's class name contains one of the fragments |
| LegacyAsync.OverloadsAgree | threadscope-core/src/main/java/com/threadscope/AsyncThreadDetector.java:27-86 | The record overload on a converted JVM record agrees with the JVM-record overload |
| LegacyAsync.AsyncExactlyWhenScored | threadscope-core/src/main/java/com/threadscope/AsyncThreadDetector.java:27-54 | The legacy test holds exactly when the new core's confidence is positive: any single signal makes a thread async |
| LegacyAsync.CoreAsyncIsLegacyAsync | threadscope-core/src/main/java/com/threadscope/AsyncThreadDetector.java:27-54 | For any positive threshold, a thread the new detector finds async is async for the legacy test |
| LegacyAsync.ContainsClass | threadscope-core/src/main/java/com/threadscope/AsyncThreadDetector.java:159-166 | `containsClass` returns true exactly when some frame's class name contains the text |
| LegacyAsync.Category | threadscope-core/src/main/java/com/threadscope/AsyncThreadDetector.java:112-154 | `categorizeAsyncThread`: the tests in source order, the first that holds giving the category, OTHER_ASYNC otherwise |
| LegacyAsync.Categorize | threadscope-core/src/main/java/com/threadscope/AsyncThreadDetector.java:112-154 | `categorizeAsyncThread` with its loops returns the category of the first test that holds, in source order |
| LegacyAsync.CategoryMatchesCore | threadscope-core/src/main/java/com/threadscope/AsyncThreadDetector.java:112-154 | On every name not containing "ForkJoinPool" the legacy categoriser agrees with the new one |
| LegacyAsync.ForkJoinPoolCategories | threadscope-core/src/main/java/com/threadscope/AsyncThreadDetector.java:132-136 | A "ForkJoinPool" thread with no future or reactive signs is THREAD_POOL here, but in the new core only when its name holds "pool" or "worker" |
| LegacyAsync.AsyncThreadStats.constructor | threadscope-core/src/main/java/com/threadscope/AsyncThreadDetector.java:213-218 | A new statistics object has all five counters at zero |
| LegacyAsync.AsyncCount | threadscope-core/src/main/java/com/threadscope/AsyncThreadDetector.java:174-177 | The number of async records is at most the number of records |
| LegacyAsync.AsyncStateCount | threadscope-core/src/main/java/com/threadscope/AsyncThreadDetector.java:178-191 | The number of async records in one state is at most the number of async records |
| LegacyAsync.GetAsyncThreadStats | threadscope-core/src/main/java/com/threadscope/AsyncThreadDetector.java:171-196 | `getAsyncThreadStats`: the total is the number of async records and each state counter the number of async records in that state |
| LegacyAsync.StateNamesDistinct | threadscope-core/src/main/java/com/threadscope/AsyncThreadDetector.java:178-191 | The four `case` labels are pairwise different, so a record is counted under at most one |
| LegacyAsync.CountStep | threadscope-core/src/main/java/com/threadscope/AsyncThreadDetector.java:174-177 | One more record adds one to the total exactly when it is async |
| LegacyAsync.StateCountStep | threadscope-core/src/main/java/com/threadscope/AsyncThreadDetector.java:178-191 | One more record adds one to a state's counter exactly when it is async and in that state |
| LegacyAsync.StateCountsWithinTotal | threadscope-core/src/main/java/com/threadscope/AsyncThreadDetector.java:171-196 | The four state counters together never exceed the total |
| LegacyAsync.StateCountsCoverLiveThreads | threadscope-core/src/main/java/com/threadscope/AsyncThreadDetector.java:171-196 | When every record is RUNNABLE, BLOCKED, WAITING or TIMED_WAITING, the four counters add up to the total |
| SystemThreads.IsSystemThread | threadscope-core/src/main/java/com/threadscope/core/monitoring/ThreadMonitorService.java:176-189 | `isSystemThread`: the name starts with one of the eleven prefixes, tested in order |
| SystemThreads.SystemThreadByPrefix | threadscope-core/src/main/java/com/threadscope/core/monitoring/ThreadMonitorService.java:176-189 | `isSystemThread` holds exactly when the name starts with one of the eleven listed prefixes |
| SystemThreads.SystemThreadExtended | threadscope-core/src/main/java/com/threadscope/ThreadMonitor.java:251-264 | A name extending a system thread's name is a system thread's too |
| SystemThreads.ShortNamesNotSystem | threadscope-core/src/main/java/com/threadscope/ThreadMonitor.java:251-264 | No name shorter than three characters is a system thread's |
| SystemThreads.MainNotSystem | threadscope-core/src/main/java/com/threadscope/core/monitoring/ThreadMonitorService.java:176-189 | The thread named "main" is not a system thread |
| MonitorService.Detector.constructor | threadscope-core/src/main/java/com/threadscope/core/monitoring/ThreadMonitorService.java:130-132 | A detector entry of the service's list keeps its kind and settings |
| MonitorService.Listener.constructor | threadscope-core/src/main/java/com/threadscope/core/monitoring/ThreadMonitorService.java:144-146 | A listener keeps the events on which it throws |
| MonitorService.Notified | threadscope-core/src/main/java/com/threadscope/core/monitoring/ThreadMonitorService.java:215-224 | `notifyEventListeners` makes one call per listener, in list order, each with the event, whether or not an earlier one threw |
| MonitorService.Verdicts | threadscope-core/src/main/java/com/threadscope/core/monitoring/ThreadMonitorService.java:197-207 | One report per entry of the detector list, in order |
| MonitorService.AnnotateResult | threadscope-core/src/main/java/com/threadscope/core/monitoring/ThreadMonitorService.java:194-210 | When all positive reports name one category, the loop leaves the thread unchanged if none is positive and marks it async with that category otherwise |
| MonitorService.Annotated | threadscope-core/src/main/java/com/threadscope/core/monitoring/ThreadMonitorService.java:194-210 | `applyDetections`: every detector entry reports on the original thread and the reports are folded in order; characterised by the next rows |
| MonitorService.AnnotatedResult | threadscope-core/src/main/java/com/threadscope/core/monitoring/ThreadMonitorService.java:194-210 | `applyDetections` returns the thread unchanged when no enabled async detector fires, and otherwise the thread marked async with its category |
| MonitorService.AnnotatedSameExceptAsync | threadscope-core/src/main/java/com/threadscope/core/monitoring/ThreadMonitorService.java:194-210 | `applyDetections` can change only the two async fields |
| MonitorService.ShouldInclude | threadscope-core/src/main/java/com/threadscope/core/monitoring/ThreadMonitorService.java:165-171 | `shouldIncludeThread`: a system thread is excluded unless the configuration includes system threads |
| MonitorService.KeptRecords | threadscope-core/src/main/java/com/threadscope/core/monitoring/ThreadMonitorService.java:93-95 | The records kept are exactly the non-null ones that are not excluded system threads, in provider order, at most one per entry |
| MonitorService.CollectedThreads | threadscope-core/src/main/java/com/threadscope/core/monitoring/ThreadMonitorService.java:93-98 | One thread per kept record, in order: the record as `from` builds it, except that its async fields may have been set |
| MonitorService.Kinds | threadscope-core/src/main/java/com/threadscope/core/monitoring/ThreadMonitorService.java:42-50 | The kinds of a detector list, entry for entry |
| MonitorService.InitialDetectorsMark | threadscope-core/src/main/java/com/threadscope/core/monitoring/ThreadMonitorService.java:42-50 | With the detectors `initializeDetectors` creates, a thread is marked async exactly when async detection is configured and its score reaches 0.5 |
| MonitorService.ApplyDetector | threadscope-core/src/main/java/com/threadscope/core/monitoring/ThreadMonitorService.java:198-205 | One loop pass: an enabled async detector detects on the original thread and, when positive, sets the async fields of the running result with its type |
| MonitorService.ThreadMonitorService.constructor | threadscope-core/src/main/java/com/threadscope/core/monitoring/ThreadMonitorService.java:29-50 | A new service is stopped, has no listeners, and holds a deadlock detector when deadlock detection is configured, then an async detector when async detection is |
| MonitorService.ThreadMonitorService.Notify | threadscope-core/src/main/java/com/threadscope/core/monitoring/ThreadMonitorService.java:215-224 | `notifyEventListeners` appends exactly one call per listener to the call log and changes nothing else |
| MonitorService.ThreadMonitorService.Start | threadscope-core/src/main/java/com/threadscope/core/monitoring/ThreadMonitorService.java:55-64 | `start` leaves the service running; the listeners hear ServiceStarted exactly when it was stopped before |
| MonitorService.ThreadMonitorService.Stop | threadscope-core/src/main/java/com/threadscope/core/monitoring/ThreadMonitorService.java:69-78 | `stop` leaves the service stopped; the listeners hear ServiceStopped exactly when it was running before |
| MonitorService.ThreadMonitorService.ApplyDetections | threadscope-core/src/main/java/com/threadscope/core/monitoring/ThreadMonitorService.java:194-210 | `applyDetections` with its loop returns exactly the annotated thread |
| MonitorService.ThreadMonitorService.GetAllThreads | threadscope-core/src/main/java/com/threadscope/core/monitoring/ThreadMonitorService.java:83-103 | `getAllThreads`: the empty list and no event while stopped; a failed future and no event when running with a negative stack depth, which `getThreadInfo` refuses; otherwise the collected threads at the configured stack depth, announced to every listener |
| MonitorService.ThreadMonitorService.ConvertAll | threadscope-core/src/main/java/com/threadscope/core/monitoring/ThreadMonitorService.java:93-97 | The stream's `map` stages: one converted and annotated thread per kept record, in the records' order |
| MonitorService.ThreadMonitorService.ConvertOne | threadscope-core/src/main/java/com/threadscope/core/monitoring/ThreadMonitorService.java:96-97 | `ThreadInfo::from` followed by `applyDetections` on one record |
| MonitorService.ThreadMonitorService.GetThreadsByState | threadscope-core/src/main/java/com/threadscope/core/monitoring/ThreadMonitorService.java:108-114 | `getThreadsByState`: failed exactly when `getAllThreads` fails; otherwise exactly the collected threads in that state, in their order, after the same notifications |
| MonitorService.ThreadMonitorService.GetAsyncThreads | threadscope-core/src/main/java/com/threadscope/core/monitoring/ThreadMonitorService.java:119-125 | `getAsyncThreads`: failed exactly when `getAllThreads` fails; otherwise exactly the collected threads marked async, in their order, after the same notifications |
| MonitorService.ThreadMonitorService.AddDetector | threadscope-core/src/main/java/com/threadscope/core/monitoring/ThreadMonitorService.java:130-132 | `addDetector` appends the detector and changes nothing else |
| MonitorService.ThreadMonitorService.RemoveDetector | threadscope-core/src/main/java/com/threadscope/core/monitoring/ThreadMonitorService.java:137-139 | `removeDetector` takes out the first occurrence of the detector, if any, and changes nothing else |
| MonitorService.ThreadMonitorService.AddEventListener | threadscope-core/src/main/java/com/threadscope/core/monitoring/ThreadMonitorService.java:144-146 | `addEventListener` appends the listener and changes nothing else |
| MonitorService.ThreadMonitorService.RemoveEventListener | threadscope-core/src/main/java/com/threadscope/core/monitoring/ThreadMonitorService.java:151-153 | `removeEventListener` takes out the first occurrence of the listener, if any, and changes nothing else |
| MonitorService.AddThenRemove | threadscope-core/src/main/java/com/threadscope/core/monitoring/ThreadMonitorService.java:144-153 | Removing a listener just added gives the old list back when it was not there before |
| MonitorService.StartTwice | threadscope-core/src/main/java/com/threadscope/core/monitoring/ThreadMonitorService.java:55-64 | Starting twice notifies the listeners once; the second start changes nothing |
| LegacyMonitor.CpuTimes | threadscope-core/src/main/java/com/threadscope/ThreadMonitor.java:201-209 | Both times stay 0 unless CPU time is supported; a failing CPU-time call leaves both 0; a failing user-time call after a successful CPU-time call keeps the CPU time |
| LegacyMonitor.ConvertToThreadInfo | threadscope-core/src/main/java/com/threadscope/ThreadMonitor.java:183-246 | The monitor's `convertToThreadInfo` is the legacy conversion with the CPU and user times its clock calls give |
| LegacyMonitor.Reports | threadscope-core/src/main/java/com/threadscope/ThreadMonitor.java:149-157 | One report per record, each the converted record, marked async when it shows a sign |
| LegacyMonitor.GatheredStep | threadscope-core/src/main/java/com/threadscope/ThreadMonitor.java:139-158 | One more JVM record adds its report at the end when it is kept, and nothing otherwise |
| LegacyMonitor.KeptRecords | threadscope-core/src/main/java/com/threadscope/ThreadMonitor.java:139-147 | The records reported are exactly the non-null ones that are not hidden system threads, in the JVM's order, at most one per entry |
| LegacyMonitor.ReportedRecord | threadscope-core/src/main/java/com/threadscope/ThreadMonitor.java:149-155 | A reported record is the converted JVM record, marked async with its category's name exactly when the legacy test finds an async sign |
| LegacyMonitor.ReportedRunnable | threadscope-core/src/main/java/com/threadscope/ThreadMonitor.java:187 | A reported record's state text is "RUNNABLE" exactly when the JVM's thread is runnable |
| LegacyMonitor.UnsupportedClockReportsZero | threadscope-core/src/main/java/com/threadscope/ThreadMonitor.java:202 | Without CPU time support every record reports zero CPU and user time |
| LegacyMonitor.SnapshotOf | threadscope-core/src/main/java/com/threadscope/ThreadMonitor.java:113-118 | The snapshot holds the threads and deadlocks; its total is the list's size and its active count the number of RUNNABLE records, between 0 and the total |
| LegacyMonitor.RunnableReports | threadscope-core/src/main/java/com/threadscope/ThreadMonitor.java:118 | Counting RUNNABLE reports counts the JVM records whose thread is runnable |
| LegacyMonitor.Handed | threadscope-core/src/main/java/com/threadscope/ThreadMonitor.java:121-127 | Handing the snapshot to the generator: a throwing generator writes nothing and is logged by `captureSnapshot`; otherwise its files and its own error log are the result |
| LegacyMonitor.CycleAlerts | threadscope-core/src/main/java/com/threadscope/ThreadMonitor.java:171-173 | One alert line per cycle |
| LegacyMonitor.DeadlockAlertLines | threadscope-core/src/main/java/com/threadscope/ThreadMonitor.java:166-178 | No deadlock logs nothing; otherwise a line with the number of cycles, then one line per cycle in the detector's order |
| LegacyMonitor.ThreadMonitor.constructor | threadscope-core/src/main/java/com/threadscope/ThreadMonitor.java:37-47 | A new monitor is stopped and has a generator over the same configuration |
| LegacyMonitor.ThreadMonitor.Start | threadscope-core/src/main/java/com/threadscope/ThreadMonitor.java:52-64 | `start`: afterwards the monitor runs exactly when it ran before or the configuration is enabled |
| LegacyMonitor.ThreadMonitor.Stop | threadscope-core/src/main/java/com/threadscope/ThreadMonitor.java:84-90 | `stop`: the monitor is stopped afterwards, whether or not it was running |
| LegacyMonitor.ThreadMonitor.GetAllThreads | threadscope-core/src/main/java/com/threadscope/ThreadMonitor.java:133-161 | `getAllThreads` with its loop: it throws exactly when the advanced section is missing or its stack depth is negative, which `getThreadInfo` refuses; otherwise the gathered records at that depth |
| LegacyMonitor.ThreadMonitor.CaptureSnapshot | threadscope-core/src/main/java/com/threadscope/ThreadMonitor.java:108-128 | `captureSnapshot`: a failure to gather (a missing advanced section or a negative stack depth) is logged and writes nothing; otherwise the snapshot of the gathered threads and detected deadlocks is handed to the generator |
| LegacyMonitor.ThreadMonitor.CheckForDeadlocks | threadscope-core/src/main/java/com/threadscope/ThreadMonitor.java:166-178 | `checkForDeadlocks` logs exactly the alert lines for the detector's deadlocks |
| LegacyMonitor.CaptureCounts | threadscope-core/src/main/java/com/threadscope/ThreadMonitor.java:117-118 | A capture's total counts every kept record once, and its active count exactly the kept records whose thread is runnable |
| SnapshotText.EscapeHtml | threadscope-core/src/main/java/com/threadscope/SnapshotGenerator.java:237-244 | `escapeHtml` of null is the empty text; otherwise each character is replaced by its entity |
| SnapshotText.Escaped | threadscope-core/src/main/java/com/threadscope/core/snapshot/SnapshotGenerator.java:279-286 | Each character written as its entity, left to right: the reference the five `replace` calls are proved equal to |
| SnapshotText.EscapeCharwise | threadscope-core/src/main/java/com/threadscope/core/snapshot/SnapshotGenerator.java:279-286 | The five `replace` calls, `&` first, are the character-by-character rewrite: no entity written by a later step is escaped again |
| SnapshotText.EntityClean | threadscope-core/src/main/java/com/threadscope/SnapshotGenerator.java:237-244 | No entity holds a raw `<`, `>`, `"` or `'`, and every other character stands for itself |
| SnapshotText.EscapedClean | threadscope-core/src/main/java/com/threadscope/SnapshotGenerator.java:237-244 | An escaped text holds no raw `<`, `>`, `"` or `'` |
| SnapshotText.EscapedPlain | threadscope-core/src/main/java/com/threadscope/core/snapshot/SnapshotGenerator.java:279-286 | A text with none of the five special characters comes back unchanged |
| SnapshotText.EscapedLength | threadscope-core/src/main/java/com/threadscope/core/snapshot/SnapshotGenerator.java:279-286 | Escaping never shortens a text |
| SnapshotText.EscapeRoundTrip | threadscope-core/src/main/java/com/threadscope/SnapshotGenerator.java:237-244 | Escaping loses nothing: reading the entities back gives the original text |
| SnapshotText.FormatInstant | threadscope-core/src/main/java/com/threadscope/core/snapshot/SnapshotGenerator.java:26 | Formatting an instant with the `yyyyMMdd-HHmmss` pattern succeeds exactly when the formatter has a zone, and then gives the local date-time text |
| SnapshotText.BaseFileName | threadscope-core/src/main/java/com/threadscope/core/snapshot/SnapshotGenerator.java:57 | The base file name is "threadscope-" followed by the timestamp text |
| CoreSnapshot.ShouldGenerateFormat | threadscope-core/src/main/java/com/threadscope/core/snapshot/SnapshotGenerator.java:74-84 | `shouldGenerateFormat`: HTML and JSON select only their own strategy, BOTH selects every strategy, and a null format reaches `return false` and selects none |
| CoreSnapshot.SelectedFormats | threadscope-core/src/main/java/com/threadscope/core/snapshot/SnapshotGenerator.java:74-84 | `shouldGenerateFormat` over the two strategies: BOTH runs HTML then JSON, HTML and JSON only their own strategy, a null format none |
| CoreSnapshot.DeadlockBlocks | threadscope-core/src/main/java/com/threadscope/core/snapshot/SnapshotGenerator.java:206-212 | One block per deadlock, in list order |
| CoreSnapshot.DeadlocksSection | threadscope-core/src/main/java/com/threadscope/core/snapshot/SnapshotGenerator.java:197-216 | The deadlocks section is empty exactly when there is no deadlock, and otherwise starts with the section's opening |
| CoreSnapshot.GenerateDeadlocksSection | threadscope-core/src/main/java/com/threadscope/core/snapshot/SnapshotGenerator.java:197-216 | `generateDeadlocksSection` with its `StringBuilder` loop builds exactly the section |
| CoreSnapshot.DeadlockBlocksInOrder | threadscope-core/src/main/java/com/threadscope/core/snapshot/SnapshotGenerator.java:206-212 | Deadlock `i`'s block sits in the section right after the blocks before it, and a later deadlock's block starts after it ends |
| CoreSnapshot.LockInfo | threadscope-core/src/main/java/com/threadscope/core/snapshot/SnapshotGenerator.java:225-231 | The lock lines are empty exactly when the thread has neither a lock name nor a lock owner name |
| CoreSnapshot.CpuInfo | threadscope-core/src/main/java/com/threadscope/core/snapshot/SnapshotGenerator.java:232-235 | The CPU line is present exactly for a positive CPU time, and then gives it in whole milliseconds |
| CoreSnapshot.StackTraceHtml | threadscope-core/src/main/java/com/threadscope/core/snapshot/SnapshotGenerator.java:251-265 | The stack block is empty exactly when the stack is |
| CoreSnapshot.FrameLines | threadscope-core/src/main/java/com/threadscope/core/snapshot/SnapshotGenerator.java:256-259 | One escaped line per frame, in stack order |
| CoreSnapshot.ThreadBlocks | threadscope-core/src/main/java/com/threadscope/core/snapshot/SnapshotGenerator.java:218-222 | One block per thread, in list order |
| CoreSnapshot.ThreadBlocksInOrder | threadscope-core/src/main/java/com/threadscope/core/snapshot/SnapshotGenerator.java:218-222 | Thread `i`'s block sits in the threads section right after the blocks before it, and a later thread's block starts after it ends |
| CoreSnapshot.GenerateHtmlContent | threadscope-core/src/main/java/com/threadscope/core/snapshot/SnapshotGenerator.java:175-195 | `generateHtmlContent`, with the deadlocks section built by its loop, gives exactly the page |
| CoreSnapshot.JsonListFraming | threadscope-core/src/main/java/com/threadscope/core/snapshot/SnapshotGenerator.java:321-343 | `joining(", ", "[", "]")` frames the list in brackets: none gives "[]", one stands alone, more are separated by ", " |
| CoreSnapshot.EmptyJsonArrays | threadscope-core/src/main/java/com/threadscope/core/snapshot/SnapshotGenerator.java:321-343 | With no thread or no deadlock the array is written as "[]" |
| CoreSnapshot.JsonContent | threadscope-core/src/main/java/com/threadscope/core/snapshot/SnapshotGenerator.java:311-319 | `generateJsonContent`: the timestamp, the two counts and the deadlock and thread arrays as one JSON object |
| CoreSnapshot.PageOf | threadscope-core/src/main/java/com/threadscope/core/snapshot/SnapshotGenerator.java:167-173 | The HTML strategy writes an HTML page of the data, the JSON strategy a JSON page |
| CoreSnapshot.FileFor | threadscope-core/src/main/java/com/threadscope/core/snapshot/SnapshotGenerator.java:167-173 | A strategy writes into the configured directory a file named base name plus its extension |
| CoreSnapshot.FilesFor | threadscope-core/src/main/java/com/threadscope/core/snapshot/SnapshotGenerator.java:59-63 | One file per selected strategy, in order |
| CoreSnapshot.Generated | threadscope-core/src/main/java/com/threadscope/core/snapshot/SnapshotGenerator.java:51-94 | `generateSnapshot` fails exactly when the directory is null (`Paths.get(null)` in `createOutputDirectory`) or formatting the timestamp fails, before any strategy runs |
| CoreSnapshot.SnapshotGenerator.constructor | threadscope-core/src/main/java/com/threadscope/core/snapshot/SnapshotGenerator.java:32-36 | The generator keeps the configuration and formats timestamps in a zone |
| CoreSnapshot.SnapshotGenerator.GenerateSnapshot | threadscope-core/src/main/java/com/threadscope/core/snapshot/SnapshotGenerator.java:51-94 | `generateSnapshot`: a null directory fails it, then the timestamp is formatted, then each strategy in order that the configured format selects writes its file |
| CoreSnapshot.Render | threadscope-core/src/main/java/com/threadscope/core/snapshot/SnapshotGenerator.java:167-173 | Each strategy writes its page's text, the HTML page as `generateHtmlContent` builds it |
| CoreSnapshot.UnzonedStampWritesNothing | threadscope-core/src/main/java/com/threadscope/core/snapshot/SnapshotGenerator.java:26 | With the formatter as declared (no zone), `generateSnapshot` always fails and writes no file, whatever the configuration |
| CoreSnapshot.NullDirectoryFails | threadscope-core/src/main/java/com/threadscope/core/snapshot/SnapshotGenerator.java:89-94 | A null directory fails the generation whatever the format and the timestamp: the `Paths.get(null)` exception is wrapped by the catch |
| CoreSnapshot.NullFormatWritesNothing | threadscope-core/src/main/java/com/threadscope/core/snapshot/SnapshotGenerator.java:74-84 | A null format selects no strategy: with a directory and a zoned timestamp the generation completes and writes no file |
| CoreSnapshot.ZonedStampWritesSelected | threadscope-core/src/main/java/com/threadscope/core/snapshot/SnapshotGenerator.java:51-69 | With a zone, every selected strategy writes `threadscope-<timestamp>` plus its extension into the directory; BOTH writes the HTML file, then the JSON file |
| LegacySnapshot.SelectedFormats | threadscope-core/src/main/java/com/threadscope/SnapshotGenerator.java:37-45 | "both" in any case writes JSON then HTML, "json" and "html" only their own file, and any other or missing format writes nothing (both directions) |
| LegacySnapshot.PageOf | threadscope-core/src/main/java/com/threadscope/SnapshotGenerator.java:55-73 | The JSON file holds Jackson's rendering of the snapshot, the HTML file the HTML page |
| LegacySnapshot.FileFor | threadscope-core/src/main/java/com/threadscope/SnapshotGenerator.java:55-73 | Each file goes into the output directory, named base name plus its extension |
| LegacySnapshot.FilesFor | threadscope-core/src/main/java/com/threadscope/SnapshotGenerator.java:37-45 | One file per selected format, in order |
| LegacySnapshot.OutputOf | threadscope-core/src/main/java/com/threadscope/SnapshotGenerator.java:37 | The output settings can be read exactly when the snapshot section and its output are present |
| LegacySnapshot.Generated | threadscope-core/src/main/java/com/threadscope/SnapshotGenerator.java:32-50 | `generateSnapshot`: a formatting failure escapes; a missing section is logged; a null directory is logged once a file is selected; otherwise one file per selected format, into the directory, named after the timestamp |
| LegacySnapshot.SnapshotGenerator.constructor | threadscope-core/src/main/java/com/threadscope/SnapshotGenerator.java:25-27 | The generator keeps the configuration and formats timestamps in a zone |
| LegacySnapshot.SnapshotGenerator.GenerateSnapshot | threadscope-core/src/main/java/com/threadscope/SnapshotGenerator.java:32-50 | `generateSnapshot` builds exactly the generation described for its configuration's output and the formatted timestamp |
| LegacySnapshot.UnzonedStampThrows | threadscope-core/src/main/java/com/threadscope/SnapshotGenerator.java:33 | With the formatter as declared (no zone), formatting throws before the `try`, and `generateSnapshot` never writes a file |
| LegacySnapshot.ZonedStampWritesBoth | threadscope-core/src/main/java/com/threadscope/SnapshotGenerator.java:32-50 | With a zone and a directory, "both" writes `threadscope-<timestamp>.json`, then `threadscope-<timestamp>.html`, and logs no error |
| LegacySnapshot.DeadlockBlocks | threadscope-core/src/main/java/com/threadscope/SnapshotGenerator.java:103-108 | One block per cycle, in list order |
| LegacySnapshot.DeadlocksSection | threadscope-core/src/main/java/com/threadscope/SnapshotGenerator.java:100-110 | The deadlocks section is empty exactly when there is no deadlock, and otherwise starts with its opening |
| LegacySnapshot.AppendDeadlocks | threadscope-core/src/main/java/com/threadscope/SnapshotGenerator.java:100-110 | The deadlocks part of the `StringBuilder` with its loop appends exactly the section |
| LegacySnapshot.DeadlockBlocksInOrder | threadscope-core/src/main/java/com/threadscope/SnapshotGenerator.java:103-108 | Cycle `i`'s block sits in the section right after the blocks before it, and a later cycle's block starts after it ends |
| LegacySnapshot.LockLine | threadscope-core/src/main/java/com/threadscope/SnapshotGenerator.java:125-127 | The lock line is present exactly when the thread waits on a lock |
| LegacySnapshot.OwnerLine | threadscope-core/src/main/java/com/threadscope/SnapshotGenerator.java:129-131 | The lock-owner line is present exactly when the lock has an owner name |
| LegacySnapshot.CpuLine | threadscope-core/src/main/java/com/threadscope/SnapshotGenerator.java:133-135 | The CPU line is present exactly for a positive CPU time, and then gives it in whole milliseconds |
| LegacySnapshot.FrameLines | threadscope-core/src/main/java/com/threadscope/SnapshotGenerator.java:142-144 | One escaped line per frame, in stack order |
| LegacySnapshot.StackBlock | threadscope-core/src/main/java/com/threadscope/SnapshotGenerator.java:138-147 | The stack block is empty exactly when the stack is null or empty |
| LegacySnapshot.AppendStackTrace | threadscope-core/src/main/java/com/threadscope/SnapshotGenerator.java:138-147 | The loop over the frames appends exactly the stack block |
| LegacySnapshot.FrameLinesInOrder | threadscope-core/src/main/java/com/threadscope/SnapshotGenerator.java:142-144 | Frame `i`'s escaped line sits in the stack block after the lines of the frames above it, reads back as the frame text, and holds no raw markup character |
| LegacySnapshot.AppendThread | threadscope-core/src/main/java/com/threadscope/SnapshotGenerator.java:117-150 | The body of the threads loop, with its conditional lines, appends exactly the thread's block |
| LegacySnapshot.ThreadBlocks | threadscope-core/src/main/java/com/threadscope/SnapshotGenerator.java:116-151 | One block per thread, in list order |
| LegacySnapshot.AppendThreads | threadscope-core/src/main/java/com/threadscope/SnapshotGenerator.java:116-151 | The loop over the threads appends exactly the blocks, one after another |
| LegacySnapshot.ThreadBlocksInOrder | threadscope-core/src/main/java/com/threadscope/SnapshotGenerator.java:116-151 | Thread `i`'s block sits in the threads section right after the blocks before it, and a later thread's block starts after it ends |
| LegacySnapshot.ThreadHeadingEscaped | threadscope-core/src/main/java/com/threadscope/SnapshotGenerator.java:118 | A thread's name appears in its heading escaped: no raw markup character, and it reads back as the name |
| LegacySnapshot.GenerateHtmlContent | threadscope-core/src/main/java/com/threadscope/SnapshotGenerator.java:78-158 | `generateHtmlContent`, one `StringBuilder` filled section by section, gives exactly the page |
| LegacySnapshot.RenderHtml | threadscope-core/src/main/java/com/threadscope/SnapshotGenerator.java:66-73 | `generateHtmlSnapshot` writes exactly the HTML page's text |
| CoreConfig.SnapshotConfig.constructor | threadscope-core/src/main/java/com/threadscope/core/configuration/ThreadScopeConfig.java:111-116 | The section holds exactly the values it is given |
| CoreConfig.SnapshotConfig.Defaults | threadscope-core/src/main/java/com/threadscope/core/configuration/ThreadScopeConfig.java:124-131 | `defaults()` is a new section holding every 10 s, HTML, into "./thread-dumps", enabled |
| CoreConfig.SnapshotConfig.WithInterval | threadscope-core/src/main/java/com/threadscope/core/configuration/ThreadScopeConfig.java:133-135 | A new section that differs from this one only in its interval |
| CoreConfig.SnapshotConfig.WithFormat | threadscope-core/src/main/java/com/threadscope/core/configuration/ThreadScopeConfig.java:137-139 | A new section that differs from this one only in its format |
| CoreConfig.SnapshotConfig.WithDirectory | threadscope-core/src/main/java/com/threadscope/core/configuration/ThreadScopeConfig.java:141-143 | A new section that differs from this one only in its directory |
| CoreConfig.SnapshotConfig.WithEnabled | threadscope-core/src/main/java/com/threadscope/core/configuration/ThreadScopeConfig.java:145-147 | A new section that differs from this one only in its enabled flag |
| CoreConfig.DashboardConfig.constructor | threadscope-core/src/main/java/com/threadscope/core/configuration/ThreadScopeConfig.java:159-164 | The section holds exactly the values it is given |
| CoreConfig.DashboardConfig.Defaults | threadscope-core/src/main/java/com/threadscope/core/configuration/ThreadScopeConfig.java:172-174 | `defaults()` is a new section holding enabled on localhost:9090, no browser |
| CoreConfig.DashboardConfig.WithEnabled | threadscope-core/src/main/java/com/threadscope/core/configuration/ThreadScopeConfig.java:176-178 | A new section that differs from this one only in its enabled flag |
| CoreConfig.DashboardConfig.WithPort | threadscope-core/src/main/java/com/threadscope/core/configuration/ThreadScopeConfig.java:180-182 | A new section that differs from this one only in its port |
| CoreConfig.DashboardConfig.WithAutoOpenBrowser | threadscope-core/src/main/java/com/threadscope/core/configuration/ThreadScopeConfig.java:184-186 | A new section that differs from this one only in its auto-open flag |
| CoreConfig.DashboardConfig.WithHost | threadscope-core/src/main/java/com/threadscope/core/configuration/ThreadScopeConfig.java:188-190 | A new section that differs from this one only in its host |
| CoreConfig.AlertsConfig.constructor | threadscope-core/src/main/java/com/threadscope/core/configuration/ThreadScopeConfig.java:202-208 | The section holds exactly the values it is given |
| CoreConfig.AlertsConfig.Defaults | threadscope-core/src/main/java/com/threadscope/core/configuration/ThreadScopeConfig.java:216-223 | `defaults()` is a new section holding deadlock detection on, 15 s hung-thread threshold, no e-mail |
| CoreConfig.AlertsConfig.WithDeadlockDetection | threadscope-core/src/main/java/com/threadscope/core/configuration/ThreadScopeConfig.java:225-227 | A new section that differs from this one only in its deadlock-detection flag |
| CoreConfig.AlertsConfig.WithHungThreadThreshold | threadscope-core/src/main/java/com/threadscope/core/configuration/ThreadScopeConfig.java:229-231 | A new section that differs from this one only in its hung-thread threshold |
| CoreConfig.LoggingConfig.constructor | threadscope-core/src/main/java/com/threadscope/core/configuration/ThreadScopeConfig.java:242-246 | The section holds exactly the values it is given |
| CoreConfig.LoggingConfig.Defaults | threadscope-core/src/main/java/com/threadscope/core/configuration/ThreadScopeConfig.java:253-255 | `defaults()` is a new section holding INFO to the console, no log file |
| CoreConfig.LoggingConfig.WithLevel | threadscope-core/src/main/java/com/threadscope/core/configuration/ThreadScopeConfig.java:257-259 | A new section that differs from this one only in its level |
| CoreConfig.LoggingConfig.WithOutput | threadscope-core/src/main/java/com/threadscope/core/configuration/ThreadScopeConfig.java:261-263 | A new section that differs from this one only in its output |
| CoreConfig.LoggingConfig.WithLogFile | threadscope-core/src/main/java/com/threadscope/core/configuration/ThreadScopeConfig.java:265-267 | A new section that differs from this one only in its log file |
| CoreConfig.AdvancedConfig.constructor | threadscope-core/src/main/java/com/threadscope/core/configuration/ThreadScopeConfig.java:279-285 | The section holds exactly the values it is given |
| CoreConfig.AdvancedConfig.Defaults | threadscope-core/src/main/java/com/threadscope/core/configuration/ThreadScopeConfig.java:293-295 | `defaults()` is a new section holding no system threads, 20 frames, 1000 threads, async detection on |
| CoreConfig.AdvancedConfig.WithIncludeSystemThreads | threadscope-core/src/main/java/com/threadscope/core/configuration/ThreadScopeConfig.java:297-299 | A new section that differs from this one only in its system-thread flag |
| CoreConfig.AdvancedConfig.WithMaxStackTraceDepth | threadscope-core/src/main/java/com/threadscope/core/configuration/ThreadScopeConfig.java:301-303 | A new section that differs from this one only in its stack depth |
| CoreConfig.AdvancedConfig.WithMaxThreadsToMonitor | threadscope-core/src/main/java/com/threadscope/core/configuration/ThreadScopeConfig.java:305-307 | A new section that differs from this one only in its thread limit |
| CoreConfig.AdvancedConfig.WithEnableAsyncDetection | threadscope-core/src/main/java/com/threadscope/core/configuration/ThreadScopeConfig.java:309-311 | A new section that differs from this one only in its async-detection flag |
| CoreConfig.ThreadScopeConfig.WithEnabled | threadscope-core/src/main/java/com/threadscope/core/configuration/ThreadScopeConfig.java:54-56 | A configuration that differs only in its enabled flag, sharing every section |
| CoreConfig.ThreadScopeConfig.WithSnapshot | threadscope-core/src/main/java/com/threadscope/core/configuration/ThreadScopeConfig.java:61-63 | A configuration that differs only in its snapshot section |
| CoreConfig.ThreadScopeConfig.WithDashboard | threadscope-core/src/main/java/com/threadscope/core/configuration/ThreadScopeConfig.java:68-70 | A configuration that differs only in its dashboard section |
| CoreConfig.Defaults | threadscope-core/src/main/java/com/threadscope/core/configuration/ThreadScopeConfig.java:40-49 | `defaults()` is enabled, with five new sections each holding its defaults |
| CoreConfig.DefaultsTwice | threadscope-core/src/main/java/com/threadscope/core/configuration/ThreadScopeConfig.java:40-84 | Two calls of `defaults()` hold the same values yet are not `equals`, since the sections compare by reference |
| CoreConfig.WithEnabledOwn | threadscope-core/src/main/java/com/threadscope/core/configuration/ThreadScopeConfig.java:54-84 | Setting a configuration's own flag gives an equal configuration, and of two flags set in a row the last wins |
| ConfigBuilder.ConfigureAppend | threadscope-core/src/main/java/com/threadscope/core/configuration/ConfigurationBuilder.java:46-50 | Two configurers applied one after the other do what their setter calls do in sequence |
| ConfigBuilder.ConfigureStep | threadscope-core/src/main/java/com/threadscope/core/configuration/ConfigurationBuilder.java:111-129 | Each further setter call acts on the values the calls before it left |
| ConfigBuilder.ConfigureNothing | threadscope-core/src/main/java/com/threadscope/core/configuration/ConfigurationBuilder.java:46-50 | A configurer that calls no setter leaves the values as they were |
| ConfigBuilder.SnapshotSetOnlyItsField | threadscope-core/src/main/java/com/threadscope/core/configuration/ConfigurationBuilder.java:111-129 | Of several calls of one setter the last wins, and a setter of another field does not disturb it |
| ConfigBuilder.SnapshotConfigBuilder.constructor | threadscope-core/src/main/java/com/threadscope/core/configuration/ConfigurationBuilder.java:104-109 | The builder starts from the values of the snapshot section it is given |
| ConfigBuilder.SnapshotConfigBuilder.Interval | threadscope-core/src/main/java/com/threadscope/core/configuration/ConfigurationBuilder.java:111-114 | Sets the interval and nothing else, returning the same builder |
| ConfigBuilder.SnapshotConfigBuilder.Format | threadscope-core/src/main/java/com/threadscope/core/configuration/ConfigurationBuilder.java:116-119 | Sets the format and nothing else, returning the same builder |
| ConfigBuilder.SnapshotConfigBuilder.Directory | threadscope-core/src/main/java/com/threadscope/core/configuration/ConfigurationBuilder.java:121-124 | Sets the directory and nothing else, returning the same builder |
| ConfigBuilder.SnapshotConfigBuilder.Enabled | threadscope-core/src/main/java/com/threadscope/core/configuration/ConfigurationBuilder.java:126-129 | Sets the enabled flag and nothing else, returning the same builder |
| ConfigBuilder.SnapshotConfigBuilder.Apply | threadscope-core/src/main/java/com/threadscope/core/configuration/ConfigurationBuilder.java:46-86 | Running a configurer on the builder leaves exactly the values its setter calls, in order, leave |
| ConfigBuilder.SnapshotConfigBuilder.Build | threadscope-core/src/main/java/com/threadscope/core/configuration/ConfigurationBuilder.java:131-133 | `build()` is a new snapshot section holding the builder's values |
| ConfigBuilder.DashboardConfigBuilder.constructor | threadscope-core/src/main/java/com/threadscope/core/configuration/ConfigurationBuilder.java:145-150 | The builder starts from the values of the dashboard section it is given |
| ConfigBuilder.DashboardConfigBuilder.Enabled | threadscope-core/src/main/java/com/threadscope/core/configuration/ConfigurationBuilder.java:152-155 | Sets the enabled flag and nothing else, returning the same builder |
| ConfigBuilder.DashboardConfigBuilder.Port | threadscope-core/src/main/java/com/threadscope/core/configuration/ConfigurationBuilder.java:157-160 | Sets the port and nothing else, returning the same builder |
| ConfigBuilder.DashboardConfigBuilder.AutoOpenBrowser | threadscope-core/src/main/java/com/threadscope/core/configuration/ConfigurationBuilder.java:162-165 | Sets the auto-open flag and nothing else, returning the same builder |
| ConfigBuilder.DashboardConfigBuilder.Host | threadscope-core/src/main/java/com/threadscope/core/configuration/ConfigurationBuilder.java:167-170 | Sets the host and nothing else, returning the same builder |
| ConfigBuilder.DashboardConfigBuilder.Apply | threadscope-core/src/main/java/com/threadscope/core/configuration/ConfigurationBuilder.java:46-86 | Running a configurer on the builder leaves exactly the values its setter calls, in order, leave |
| ConfigBuilder.DashboardConfigBuilder.Build | threadscope-core/src/main/java/com/threadscope/core/configuration/ConfigurationBuilder.java:172-174 | `build()` is a new dashboard section holding the builder's values |
| ConfigBuilder.AlertsConfigBuilder.constructor | threadscope-core/src/main/java/com/threadscope/core/configuration/ConfigurationBuilder.java:186-191 | The builder starts from the values of the alerts section it is given |
| ConfigBuilder.AlertsConfigBuilder.DeadlockDetection | threadscope-core/src/main/java/com/threadscope/core/configuration/ConfigurationBuilder.java:193-196 | Sets the deadlock-detection flag and nothing else, returning the same builder |
| ConfigBuilder.AlertsConfigBuilder.HungThreadThreshold | threadscope-core/src/main/java/com/threadscope/core/configuration/ConfigurationBuilder.java:198-201 | Sets the hung-thread threshold and nothing else, returning the same builder |
| ConfigBuilder.AlertsConfigBuilder.EmailNotifications | threadscope-core/src/main/java/com/threadscope/core/configuration/ConfigurationBuilder.java:203-206 | Sets the e-mail flag and nothing else, returning the same builder |
| ConfigBuilder.AlertsConfigBuilder.EmailRecipients | threadscope-core/src/main/java/com/threadscope/core/configuration/ConfigurationBuilder.java:208-211 | Sets the e-mail recipients and nothing else, returning the same builder |
| ConfigBuilder.AlertsConfigBuilder.Apply | threadscope-core/src/main/java/com/threadscope/core/configuration/ConfigurationBuilder.java:46-86 | Running a configurer on the builder leaves exactly the values its setter calls, in order, leave |
| ConfigBuilder.AlertsConfigBuilder.Build | threadscope-core/src/main/java/com/threadscope/core/configuration/ConfigurationBuilder.java:213-215 | `build()` is a new alerts section holding the builder's values |
| ConfigBuilder.LoggingConfigBuilder.constructor | threadscope-core/src/main/java/com/threadscope/core/configuration/ConfigurationBuilder.java:226-230 | The builder starts from the values of the logging section it is given |
| ConfigBuilder.LoggingConfigBuilder.Level | threadscope-core/src/main/java/com/threadscope/core/configuration/ConfigurationBuilder.java:232-235 | Sets the level and nothing else, returning the same builder |
| ConfigBuilder.LoggingConfigBuilder.Output | threadscope-core/src/main/java/com/threadscope/core/configuration/ConfigurationBuilder.java:237-240 | Sets the output and nothing else, returning the same builder |
| ConfigBuilder.LoggingConfigBuilder.LogFile | threadscope-core/src/main/java/com/threadscope/core/configuration/ConfigurationBuilder.java:242-245 | Sets the log file and nothing else, returning the same builder |
| ConfigBuilder.LoggingConfigBuilder.Apply | threadscope-core/src/main/java/com/threadscope/core/configuration/ConfigurationBuilder.java:46-86 | Running a configurer on the builder leaves exactly the values its setter calls, in order, leave |
| ConfigBuilder.LoggingConfigBuilder.Build | threadscope-core/src/main/java/com/threadscope/core/configuration/ConfigurationBuilder.java:247-249 | `build()` is a new logging section holding the builder's values |
| ConfigBuilder.AdvancedConfigBuilder.constructor | threadscope-core/src/main/java/com/threadscope/core/configuration/ConfigurationBuilder.java:261-266 | The builder starts from the values of the advanced section it is given |
| ConfigBuilder.AdvancedConfigBuilder.IncludeSystemThreads | threadscope-core/src/main/java/com/threadscope/core/configuration/ConfigurationBuilder.java:268-271 | Sets the system-thread flag and nothing else, returning the same builder |
| ConfigBuilder.AdvancedConfigBuilder.MaxStackTraceDepth | threadscope-core/src/main/java/com/threadscope/core/configuration/ConfigurationBuilder.java:273-276 | Sets the stack depth and nothing else, returning the same builder |
| ConfigBuilder.AdvancedConfigBuilder.MaxThreadsToMonitor | threadscope-core/src/main/java/com/threadscope/core/configuration/ConfigurationBuilder.java:278-281 | Sets the thread limit and nothing else, returning the same builder |
| ConfigBuilder.AdvancedConfigBuilder.EnableAsyncDetection | threadscope-core/src/main/java/com/threadscope/core/configuration/ConfigurationBuilder.java:283-286 | Sets the async-detection flag and nothing else, returning the same builder |
| ConfigBuilder.AdvancedConfigBuilder.Apply | threadscope-core/src/main/java/com/threadscope/core/configuration/ConfigurationBuilder.java:46-86 | Running a configurer on the builder leaves exactly the values its setter calls, in order, leave |
| ConfigBuilder.AdvancedConfigBuilder.Build | threadscope-core/src/main/java/com/threadscope/core/configuration/ConfigurationBuilder.java:288-290 | `build()` is a new advanced section holding the builder's values |
| ConfigBuilder.ConfigurationBuilder.constructor | threadscope-core/src/main/java/com/threadscope/core/configuration/ConfigurationBuilder.java:13-19 | A new builder is enabled and holds five default sections |
| ConfigBuilder.ConfigurationBuilder.Enabled | threadscope-core/src/main/java/com/threadscope/core/configuration/ConfigurationBuilder.java:38-41 | `enabled(b)` sets the flag and changes no section |
| ConfigBuilder.ConfigurationBuilder.Snapshot | threadscope-core/src/main/java/com/threadscope/core/configuration/ConfigurationBuilder.java:46-50 | `snapshot(configurer)` replaces the snapshot section by a new one built from the current one through the configurer; nothing else changes |
| ConfigBuilder.ConfigurationBuilder.Dashboard | threadscope-core/src/main/java/com/threadscope/core/configuration/ConfigurationBuilder.java:55-59 | `dashboard(configurer)` replaces the dashboard section by a new one built from the current one through the configurer; nothing else changes |
| ConfigBuilder.ConfigurationBuilder.Alerts | threadscope-core/src/main/java/com/threadscope/core/configuration/ConfigurationBuilder.java:64-68 | `alerts(configurer)` replaces the alerts section by a new one built from the current one through the configurer; nothing else changes |
| ConfigBuilder.ConfigurationBuilder.Logging | threadscope-core/src/main/java/com/threadscope/core/configuration/ConfigurationBuilder.java:73-77 | `logging(configurer)` replaces the logging section by a new one built from the current one through the configurer; nothing else changes |
| ConfigBuilder.ConfigurationBuilder.Advanced | threadscope-core/src/main/java/com/threadscope/core/configuration/ConfigurationBuilder.java:82-86 | `advanced(configurer)` replaces the advanced section by a new one built from the current one through the configurer; nothing else changes |
| ConfigBuilder.ConfigurationBuilder.Build | threadscope-core/src/main/java/com/threadscope/core/configuration/ConfigurationBuilder.java:91-93 | `build()` is a configuration of the builder's flag and its current section objects |
| ConfigBuilder.Builder | threadscope-core/src/main/java/com/threadscope/core/configuration/ConfigurationBuilder.java:24-26 | `builder()` is a new builder, enabled, with default sections |
| ConfigBuilder.DefaultsBuilder | threadscope-core/src/main/java/com/threadscope/core/configuration/ConfigurationBuilder.java:31-33 | `defaults()` starts from the same state as `builder()` |
| ConfigBuilder.BuildUntouched | threadscope-core/src/main/java/com/threadscope/core/configuration/ConfigurationBuilder.java:24-93 | A builder built untouched gives exactly the values of `ThreadScopeConfig.defaults()` |
| ConfigBuilder.SnapshotTwice | threadscope-core/src/main/java/com/threadscope/core/configuration/ConfigurationBuilder.java:46-50 | Two configurers on the snapshot section accumulate: the second starts where the first stopped |
| LegacyConfig.OutputConfig.constructor | threadscope-core/src/main/java/com/threadscope/ThreadScopeConfig.java:87-88 | A new section holds the field initialisers' values: format "html" into "./thread-dumps" |
| LegacyConfig.OutputConfig.SetFormat | threadscope-core/src/main/java/com/threadscope/ThreadScopeConfig.java:94-96 | The setter changes that one field of this object and nothing else |
| LegacyConfig.OutputConfig.SetDirectory | threadscope-core/src/main/java/com/threadscope/ThreadScopeConfig.java:102-104 | The setter changes that one field of this object and nothing else |
| LegacyConfig.SnapshotConfig.constructor | threadscope-core/src/main/java/com/threadscope/ThreadScopeConfig.java:67-68 | A new section holds the field initialisers' values: a 10 s interval and a new output section |
| LegacyConfig.SnapshotConfig.SetInterval | threadscope-core/src/main/java/com/threadscope/ThreadScopeConfig.java:74-76 | The setter changes that one field of this object and nothing else |
| LegacyConfig.SnapshotConfig.SetOutput | threadscope-core/src/main/java/com/threadscope/ThreadScopeConfig.java:82-84 | The setter changes that one field of this object and nothing else |
| LegacyConfig.DashboardConfig.constructor | threadscope-core/src/main/java/com/threadscope/ThreadScopeConfig.java:109-111 | A new section holds the field initialisers' values: enabled on port 9090, no browser |
| LegacyConfig.DashboardConfig.SetEnabled | threadscope-core/src/main/java/com/threadscope/ThreadScopeConfig.java:117-119 | The setter changes that one field of this object and nothing else |
| LegacyConfig.DashboardConfig.SetPort | threadscope-core/src/main/java/com/threadscope/ThreadScopeConfig.java:125-127 | The setter changes that one field of this object and nothing else |
| LegacyConfig.DashboardConfig.SetAutoOpenBrowser | threadscope-core/src/main/java/com/threadscope/ThreadScopeConfig.java:133-135 | The setter changes that one field of this object and nothing else |
| LegacyConfig.AlertsConfig.constructor | threadscope-core/src/main/java/com/threadscope/ThreadScopeConfig.java:139-140 | A new section holds the field initialisers' values: deadlock detection on, 15000 ms threshold |
| LegacyConfig.AlertsConfig.SetDeadlockDetection | threadscope-core/src/main/java/com/threadscope/ThreadScopeConfig.java:146-148 | The setter changes that one field of this object and nothing else |
| LegacyConfig.AlertsConfig.SetHungThreadThresholdMs | threadscope-core/src/main/java/com/threadscope/ThreadScopeConfig.java:154-156 | The setter changes that one field of this object and nothing else |
| LegacyConfig.LoggingConfig.constructor | threadscope-core/src/main/java/com/threadscope/ThreadScopeConfig.java:160-161 | A new section holds the field initialisers' values: level "INFO" to "console" |
| LegacyConfig.LoggingConfig.SetLevel | threadscope-core/src/main/java/com/threadscope/ThreadScopeConfig.java:167-169 | The setter changes that one field of this object and nothing else |
| LegacyConfig.LoggingConfig.SetOutput | threadscope-core/src/main/java/com/threadscope/ThreadScopeConfig.java:175-177 | The setter changes that one field of this object and nothing else |
| LegacyConfig.AdvancedConfig.constructor | threadscope-core/src/main/java/com/threadscope/ThreadScopeConfig.java:181-182 | A new section holds the field initialisers' values: no system threads, 20 frames |
| LegacyConfig.AdvancedConfig.SetIncludeSystemThreads | threadscope-core/src/main/java/com/threadscope/ThreadScopeConfig.java:188-190 | The setter changes that one field of this object and nothing else |
| LegacyConfig.AdvancedConfig.SetMaxStackTraceDepth | threadscope-core/src/main/java/com/threadscope/ThreadScopeConfig.java:196-198 | The setter changes that one field of this object and nothing else |
| LegacyConfig.ThreadScopeConfig.constructor | threadscope-core/src/main/java/com/threadscope/ThreadScopeConfig.java:11-16 | A new configuration is enabled and holds a new default object for every section |
| LegacyConfig.ThreadScopeConfig.SetEnabled | threadscope-core/src/main/java/com/threadscope/ThreadScopeConfig.java:22-24 | Replaces the enabled flag and nothing else |
| LegacyConfig.ThreadScopeConfig.SetSnapshot | threadscope-core/src/main/java/com/threadscope/ThreadScopeConfig.java:30-32 | Replaces the snapshot section and nothing else |
| LegacyConfig.ThreadScopeConfig.SetDashboard | threadscope-core/src/main/java/com/threadscope/ThreadScopeConfig.java:38-40 | Replaces the dashboard section and nothing else |
| LegacyConfig.ThreadScopeConfig.SetAlerts | threadscope-core/src/main/java/com/threadscope/ThreadScopeConfig.java:46-48 | Replaces the alerts section and nothing else |
| LegacyConfig.ThreadScopeConfig.SetLogging | threadscope-core/src/main/java/com/threadscope/ThreadScopeConfig.java:54-56 | Replaces the logging section and nothing else |
| LegacyConfig.ThreadScopeConfig.SetAdvanced | threadscope-core/src/main/java/com/threadscope/ThreadScopeConfig.java:62-64 | Replaces the advanced section and nothing else |
| LegacyConfig.ShareDashboard | threadscope-core/src/main/java/com/threadscope/ThreadScopeConfig.java:34-40 | A section handed from one configuration to another is shared: a change made through either is seen by both |
| ConfigLoader.ParseInt | threadscope-core/src/main/java/com/threadscope/ThreadScopeConfigLoader.java:145-154 | `Integer.parseInt` on ASCII digits: a value for a signed decimal that fits in 32 bits, and that value is the number it denotes; elsewhere it throws |
| ConfigLoader.ParseLong | threadscope-core/src/main/java/com/threadscope/ThreadScopeConfigLoader.java:156-165 | `Long.parseLong` on ASCII digits: a value for a signed decimal that fits in 64 bits, and that value is the number it denotes; elsewhere it throws |
| ConfigLoader.NatToStringValue | threadscope-core/src/main/java/com/threadscope/ThreadScopeConfigLoader.java:145-154 | The decimal text of a natural number is all digits and denotes that number |
| ConfigLoader.DecimalRoundTrip | threadscope-core/src/main/java/com/threadscope/ThreadScopeConfigLoader.java:145-154 | The decimal text of any integer parses back to it |
| ConfigLoader.NegativeDecimal | threadscope-core/src/main/java/com/threadscope/ThreadScopeConfigLoader.java:145-154 | A minus sign before digits negates their value |
| ConfigLoader.ParseIntRoundTrip | threadscope-core/src/main/java/com/threadscope/ThreadScopeConfigLoader.java:145-154 | `Integer.parseInt(Integer.toString(n)) == n` for every 32-bit `n` |
| ConfigLoader.ParseLongRoundTrip | threadscope-core/src/main/java/com/threadscope/ThreadScopeConfigLoader.java:156-165 | `Long.parseLong(Long.toString(n)) == n` for every 64-bit `n` |
| ConfigLoader.ParseBoolean | threadscope-core/src/main/java/com/threadscope/ThreadScopeConfigLoader.java:138-143 | `Boolean.parseBoolean`: "true" in any ASCII letter case is true, any other text false |
| ConfigLoader.BooleanProperty | threadscope-core/src/main/java/com/threadscope/ThreadScopeConfigLoader.java:138-143 | `setBooleanProperty` calls the setter, with `Boolean.parseBoolean` of the value, exactly when the key is present |
| ConfigLoader.IntProperty | threadscope-core/src/main/java/com/threadscope/ThreadScopeConfigLoader.java:145-154 | `setIntProperty` calls the setter exactly when the key is present and its value parses, and passes the parsed value |
| ConfigLoader.LongProperty | threadscope-core/src/main/java/com/threadscope/ThreadScopeConfigLoader.java:156-165 | `setLongProperty` calls the setter exactly when the key is present and its value parses, and passes the parsed value |
| ConfigLoader.IntervalProperty | threadscope-core/src/main/java/com/threadscope/ThreadScopeConfigLoader.java:115-123 | The snapshot interval is set, to `Duration.parse("PT" + value)`, only when the key is present and that parses; otherwise the interval is unchanged |
| ConfigLoader.StringProperty | threadscope-core/src/main/java/com/threadscope/ThreadScopeConfigLoader.java:167-172 | `setStringProperty` calls the setter, with the value itself, exactly when the key is present |
| ConfigLoader.PropertiesWithoutKeys | threadscope-core/src/main/java/com/threadscope/ThreadScopeConfigLoader.java:105-136 | A source holding none of the thirteen keys under the prefix leaves every value as it was |
| ConfigLoader.MalformedNumbersIgnored | threadscope-core/src/main/java/com/threadscope/ThreadScopeConfigLoader.java:115-165 | A number or interval that does not parse leaves its field as it was |
| ConfigLoader.PropertiesIdempotent | threadscope-core/src/main/java/com/threadscope/ThreadScopeConfigLoader.java:105-136 | Loading the same properties twice is loading them once |
| ConfigLoader.EnabledPrecedence | threadscope-core/src/main/java/com/threadscope/ThreadScopeConfigLoader.java:21-37 | The enabled flag comes from the last stage holding it: environment, else system properties, else the file, else the YAML, else the default |
| ConfigLoader.PortPrecedence | threadscope-core/src/main/java/com/threadscope/ThreadScopeConfigLoader.java:21-93 | The dashboard port comes from the last stage holding a parsable value for it; an unparsable value is passed over |
| ConfigLoader.EnvironmentOnlyItsValues | threadscope-core/src/main/java/com/threadscope/ThreadScopeConfigLoader.java:73-103 | The environment touches four values only, and an invalid port or interval leaves its field as it was |
| ConfigLoader.MergeOwnValues | threadscope-core/src/main/java/com/threadscope/ThreadScopeConfigLoader.java:174-236 | Merging a configuration's own values into it changes nothing |
| ConfigLoader.MergeIdempotent | threadscope-core/src/main/java/com/threadscope/ThreadScopeConfigLoader.java:174-236 | Merging the same source a second time changes nothing more |
| ConfigLoader.MergeFullSourceDecides | threadscope-core/src/main/java/com/threadscope/ThreadScopeConfigLoader.java:174-236 | A source with every section and every text present decides the whole result, whatever the target held |
| ConfigLoader.MergedDashboardValues | threadscope-core/src/main/java/com/threadscope/ThreadScopeConfigLoader.java:195-205 | Without a dashboard section the target's dashboard values stay; with one, all three are the source's |
| ConfigLoader.MergeSnapshot | threadscope-core/src/main/java/com/threadscope/ThreadScopeConfigLoader.java:180-192 | The snapshot part of `mergeConfig` copies the interval, and the output's format and directory when they are not null |
| ConfigLoader.MergeDashboard | threadscope-core/src/main/java/com/threadscope/ThreadScopeConfigLoader.java:195-205 | The dashboard part of `mergeConfig` copies the flag, port and browser flag |
| ConfigLoader.MergeAlerts | threadscope-core/src/main/java/com/threadscope/ThreadScopeConfigLoader.java:208-215 | The alerts part of `mergeConfig` copies the flag and the threshold |
| ConfigLoader.MergeLogging | threadscope-core/src/main/java/com/threadscope/ThreadScopeConfigLoader.java:218-225 | The logging part of `mergeConfig` copies the level and output when they are not null |
| ConfigLoader.MergeAdvanced | threadscope-core/src/main/java/com/threadscope/ThreadScopeConfigLoader.java:228-235 | The advanced part of `mergeConfig` copies the system-thread flag and the stack depth |
| ConfigLoader.Merged | threadscope-core/src/main/java/com/threadscope/ThreadScopeConfigLoader.java:174-236 | The values `mergeConfig` leaves: the source's flag, and each section's values taken from the source when that section, or its non-null field, is there |
| ConfigLoader.MergeConfig | threadscope-core/src/main/java/com/threadscope/ThreadScopeConfigLoader.java:174-236 | `mergeConfig` leaves the target's sections holding the merge of the source's values into theirs, and changes nothing but those sections |
| ConfigLoader.LoadDashboardProperties | threadscope-core/src/main/java/com/threadscope/ThreadScopeConfigLoader.java:110-112 | The dashboard keys set their fields as the property helpers say |
| ConfigLoader.LoadSnapshotProperties | threadscope-core/src/main/java/com/threadscope/ThreadScopeConfigLoader.java:115-123 | The snapshot keys set the interval and the output's format and directory as the property helpers say |
| ConfigLoader.LoadAlertsProperties | threadscope-core/src/main/java/com/threadscope/ThreadScopeConfigLoader.java:126-127 | The alerts keys set their fields as the property helpers say |
| ConfigLoader.LoadLoggingProperties | threadscope-core/src/main/java/com/threadscope/ThreadScopeConfigLoader.java:130-131 | The logging keys set their fields as the property helpers say |
| ConfigLoader.LoadAdvancedProperties | threadscope-core/src/main/java/com/threadscope/ThreadScopeConfigLoader.java:134-135 | The advanced keys set their fields as the property helpers say |
| ConfigLoader.PropertiesApplied | threadscope-core/src/main/java/com/threadscope/ThreadScopeConfigLoader.java:105-136 | The thirteen keys under the prefix, each replacing its field exactly when its helper calls the setter |
| ConfigLoader.LoadFromProperties | threadscope-core/src/main/java/com/threadscope/ThreadScopeConfigLoader.java:105-136 | `loadFromProperties` writes every key present under the prefix whose value its helper accepts, and leaves every other value |
| ConfigLoader.LoadSectionProperties | threadscope-core/src/main/java/com/threadscope/ThreadScopeConfigLoader.java:110-135 | The section keys, section by section, as the property helpers say |
| ConfigLoader.LoadDashboardEnvironment | threadscope-core/src/main/java/com/threadscope/ThreadScopeConfigLoader.java:81-93 | `THREADSCOPE_DASHBOARD_ENABLED` and a parsable `THREADSCOPE_DASHBOARD_PORT` set their fields; a bad port leaves the port unchanged |
| ConfigLoader.EnvironmentApplied | threadscope-core/src/main/java/com/threadscope/ThreadScopeConfigLoader.java:73-103 | The four environment variables, each replacing its own field when present and valid |
| ConfigLoader.LoadFromEnvironment | threadscope-core/src/main/java/com/threadscope/ThreadScopeConfigLoader.java:73-103 | `loadFromEnvironment` applies the four environment variables, each over its own field |
| ConfigLoader.Loaded | threadscope-core/src/main/java/com/threadscope/ThreadScopeConfigLoader.java:21-37 | The stages of `load()` on values: defaults, YAML, properties file, system properties, environment, each over the previous |
| ConfigLoader.Load | threadscope-core/src/main/java/com/threadscope/ThreadScopeConfigLoader.java:21-37 | `load()` is a new default configuration with the YAML merged in, then the properties file, the system properties and the environment applied in that order |

## Left out

- Scheduling: both monitors' periodic tasks (`ScheduledExecutorService`, the snapshot and deadlock timers) and the futures they return are not modelled. The model is synchronous: a periodic run is one call, and `start` and `stop` are modelled by their effect on the monitor's state.
- `LegacyMonitor.ThreadMonitor.Start`: the exception paths after `running` is set (creating the output directory, scheduling with the configured interval) are not modelled, since they are file-system and executor calls.
- The core generator's `createOutputDirectory` and every real file write are left out: a written file is a value (`Written`), and an `IOException` from the file system is not modelled.
- The JSON text Jackson writes for the legacy snapshot is not modelled: the legacy JSON file holds the snapshot value itself. The model takes it that the write succeeds, which needs Jackson to serialise the snapshot's `java.time` timestamp. The writer registers no JSR-310 module. Where Jackson refuses the value, the generator catches and logs the exception, and for the format `both` it also skips the HTML file.
- `ConfigBuilder`: a configurer lambda passed to a section method is modelled as a sequence of setter calls on the section builder. A real lambda may also read the builder, throw, call nothing, or return another builder or null. Only the sequence of setter calls is modelled.
- Time: `System.currentTimeMillis()`, `Instant.now()` and the local date-time text of an instant are parameters.
- `%.2f` in the core HTML page is assumed to use a locale with a decimal point. Confidences are exact tenths, so the two decimals are the tenth and a zero.
- Case-insensitive tests (`(?i)` patterns, `toLowerCase`, `equalsIgnoreCase`) fold ASCII letters only.
- `CoreConfig.ThreadScopeConfig`: its five section references (snapshot, dashboard, alerts, logging, advanced) are taken non-null. Its constructor and its `with…` methods accept null ones; the builder never stores null, since a configurer's result is built before it is stored.
- `CoreConfig`: the core configuration's other object-valued settings (the snapshot interval, the alert threshold and recipients, the dashboard host, the log level, output and file) are taken non-null. None of the modelled operations reads them.
- `ConfigLoader.ParseInt`: only the ASCII digits '0' to '9' are modelled. `Integer.parseInt` reads digits through `Character.digit`, which also accepts the other Unicode decimal digits (full-width "８０８０" gives 8080), where the model returns no value and the loader keeps the previous setting.
- `ConfigLoader.ParseLong`: only the ASCII digits are modelled, as for `ParseInt`; `Long.parseLong` also accepts the other Unicode decimal digits.
- `Duration.parse` is a parameter of the loader. Only its success or failure and its value are used.
- YAML: the loader reads the file with a plain `ObjectMapper`. The file is modelled as an already-parsed optional configuration, which is absent when the file is missing or unreadable.
- `System.identityHashCode` and the default `hashCode` of objects are not modelled. Only the thread record's own `hashCode` is.
- The JVM's stack-depth truncation is the management-bean function's own business: the model takes the frames it returns.
- Logging is modelled only where a result records it: the error the legacy generator logs (`LegacySnapshot.Generated`), the error `captureSnapshot` logs (`LegacyMonitor.Handed`, `LegacyMonitor.ThreadMonitor.CaptureSnapshot`), and the deadlock alert lines of the legacy monitor (`LegacyMonitor.DeadlockAlertLines`, `LegacyMonitor.ThreadMonitor.CheckForDeadlocks`). The loader's warnings, the debug and info lines, and the logger itself are not modelled.
- The core JSON writes thread names without escaping, as the code does. No property about well-formed JSON is claimed.
- `Objects.requireNonNull` on a null configuration (the constructors of the monitors and generators) is not modelled: the configuration parameters are non-null references.
- `JavaHash.SetOrder`, `JavaHash.MapOrder`: these orders are Java's for list bins only. When a key joins a bucket of eight keys in a table of 64 or more buckets, Java turns that bucket into a tree bin, whose iteration order is no longer insertion order, and the model's order then differs. The contracts of the two functions state only their length; the lemmas about them state their elements, which is true in every case.
- `LegacyAsync.GetAsyncThreadStats`: records have a non-null name and state, as every record the legacy converter builds. The `NullPointerException` of the switch on a null state is not modelled.
- The core CSS targets `.state-RUNNABLE` while the page's classes are lower case. The style sheet is constant text, and nothing is claimed about it.

## Findings

| source | as written | input that shows it | evidently intended | confidence | as-written member | corrected member |
|---|---|---|---|---|---|---|
| threadscope-core/src/main/java/com/threadscope/core/snapshot/SnapshotGenerator.java:26,56 | `DateTimeFormatter.ofPattern("yyyyMMdd-HHmmss")` has no zone, and `format(Instant)` then throws `UnsupportedTemporalTypeException`, so `generateSnapshot` writes no file | any instant, e.g. `Instant.now()` | the formatter carries a zone (`.withZone(ZoneId.systemDefault())`), and every selected format is written | high, not executed | `CoreSnapshot.UnzonedStampWritesNothing` | `CoreSnapshot.ZonedStampWritesSelected` |
| threadscope-core/src/main/java/com/threadscope/SnapshotGenerator.java:20,33 | the same unzoned formatter. The format call sits before the `try`, so the exception escapes `generateSnapshot` instead of being logged | any instant, e.g. `Instant.now()` | a zoned formatter: the JSON and HTML files are written and no exception escapes | high, not executed | `LegacySnapshot.UnzonedStampThrows` | `LegacySnapshot.ZonedStampWritesBoth` |

The generators of the model are built with the zoned formatter, as intended. The lemmas in the as-written column state what the code as written does.
