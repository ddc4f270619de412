# Clustered ehcache components: a Dafny model

This project models four pieces of ehcache and its Terracotta clustering layer
and proves properties of the models.

- **Asynchronous coordinator** (`async_coordinator.dfy`, module
  `AsyncCoordinator`). Work items are spread over per-node processing buckets.
  Each bucket is a durable cluster list drained by one worker. A shared
  registry maps each node's key to the bucket names that node owns. When a
  node dies, a surviving node adopts its buckets. The toolkit (`Toolkit`)
  holds that registry, the bucket lists, and the set of bucket names whose
  worker is running; the "already running" marker is what adoption races on.
  `Coordinator` is the coordinator object, with start, add, stop,
  setOperationsFilter, getQueueSize, the dead-node scan and the node-left
  handler. The registry effect of one adoption is the pure function `Adopt`,
  which the methods are proved against.
- **Local transaction context** (`transaction_context.dfy`, module
  `LocalTransaction`). This is the per-transaction table of soft locks and
  stores for non-XA transactions: registration and update of soft locks, the
  new, updated and removed key queries, and commit and rollback. The context
  calls stores and transaction listeners, which are foreign code; each call is
  recorded in order in a `calls` trace.
- **Query statistics** (`query_stats.dfy`, module `QueryStatistics`). This is
  the Hibernate per-query statistics entry, built from described bean
  properties or from a JMX composite record (a map from item names to values).
  Entries can be added together and rendered as a composite record or as text.
- **Configuration change bridge** (`config_bridge.dfy`, module
  `ConfigBridge`). Local changes to a cache's dynamic settings are written to
  the toolkit config fields and broadcast. A peer's change message is applied
  through the configuration's internal setters. `MaxBytesLocalDiskChanged`,
  `LoggingChanged`, `Registered` and `Deregistered` are modelled as methods
  that change nothing. `ShouldProcessNotification` is the acceptance test that
  `OnNotification` uses.
- `java.dfy` (module `Java`) holds the Java building blocks:
  - null as `Option`, and thrown exceptions as `Result`/`Outcome` values;
  - `int` and `long` with two's complement wrap-around;
  - decimal printing and `Integer.parseInt`.

Where the system's design description and the code disagree, the model
follows the code:

- STOPPED is not terminal. `stop` clears the scatter policy and sets
  STOPPED, and `start` refuses only while STARTED, so a stopped coordinator
  can be started again.
- An adoption aborts at the first bucket already running; the description
  says to skip that bucket and go on. The already-running exception is caught
  outside the loop over the dead node's buckets. The buckets started before
  it keep running. The registry is not updated for any of them.
- Starting with no registry entry for the node's key dereferences null. The
  model gives NullPointer.
- `getQueueSize` on a coordinator that was never started dereferences the
  null status. The model gives NullPointer, not an invalid-state error.
- The registry map is obtained without the coordinator's name. It is one map
  for all coordinator names, so the dead-node scan reports the keys of other
  coordinator names too.
- Adopted buckets never join the coordinator's local buckets: an adoption
  starts their workers and appends their names to the adopter's registry
  entry only. The description has `setOperationsFilter` reach local and
  newly adopted buckets; in the code, and in the model, it reaches only the
  local ones. `getQueueSize` does not count adopted buckets either. `stop`
  stops only the local workers, so adopted workers keep running (their names
  stay in the toolkit's running set). `stop` then empties the node's registry
  entry, the only record of the adopted names, so no later dead-node scan
  finds them. This is not listed under Findings: whether a running
  ProcessingBucket ends its own worker once it is orphaned depends on
  ProcessingBucket, which is not part of this model, so no input is known to
  lose work.

Two deliberate departures from the code, both listed under Findings:

- The null check at line 93 of `AsyncCoordinatorImpl.java` tests the
  coordinator's `processor` field, not the `itemProcessor` argument. As
  written, no coordinator could ever start. `AsyncCoordinator.Coordinator.Start`
  models the evidently intended check on the argument
  (`AsyncCoordinator.ArgumentCheck`). The check as written is kept beside it as
  `AsyncCoordinator.ArgumentCheckAsWritten`.
- Line 28 of `TransactionContext.java` multiplies the timeout in seconds by
  1000 in `int` arithmetic, which overflows for timeouts of 2147484 seconds
  or more. `LocalTransaction.TransactionContext.constructor` uses the
  product computed in `long` (`LocalTransaction.Expiration`). The computation
  as written is kept beside it as `LocalTransaction.ExpirationAsWritten`.

## Model

| member | source | states |
|---|---|---|
| Java.ParseInt | trunk/core/src/main/java/net/sf/ehcache/hibernate/management/impl/QueryStats.java:162-168 | Integer.parseInt succeeds exactly on an optional sign followed by at least one decimal digit whose value fits in an `int`, and yields that value; null and everything else give NumberFormatException |
| Java.ParseIntToDecimal | trunk/core/src/main/java/net/sf/ehcache/hibernate/management/impl/QueryStats.java:136-143 | parsing the decimal text of any integer gives the integer back (the round trip BeanUtils rendering and parseInt rely on) |
| Java.IntToDecimalInjective | trunk/core/src/main/java/net/sf/ehcache/hibernate/management/impl/QueryStats.java:187-193 | distinct numbers print as distinct decimal strings |
| AsyncCoordinator.CheckRunning | branches/ehcache_toolkit2/terracotta/bootstrap/src/main/java/org/terracotta/modules/ehcache/async/AsyncCoordinatorImpl.java:274-286 | only STARTED passes the running check; UNINITIALIZED and STOPPED throw |
| AsyncCoordinator.NameListKeyInjective | branches/ehcache_toolkit2/terracotta/bootstrap/src/main/java/org/terracotta/modules/ehcache/async/AsyncCoordinatorImpl.java:223-226 | for one coordinator name, two nodes share a registry key iff they are the same node |
| AsyncCoordinator.BucketNames | branches/ehcache_toolkit2/terracotta/bootstrap/src/main/java/org/terracotta/modules/ehcache/async/AsyncCoordinatorImpl.java:119-127 | a start with concurrency N names exactly N buckets |
| AsyncCoordinator.BucketNamesDistinct | branches/ehcache_toolkit2/terracotta/bootstrap/src/main/java/org/terracotta/modules/ehcache/async/AsyncCoordinatorImpl.java:119-121 | the N bucket names of one start are pairwise distinct |
| AsyncCoordinator.ChosenPolicy | branches/ehcache_toolkit2/terracotta/bootstrap/src/main/java/org/terracotta/modules/ehcache/async/AsyncCoordinatorImpl.java:96-102 | with no policy given, the single-bucket policy is chosen iff concurrency is 1 and the hash-code policy otherwise; a given policy is kept |
| AsyncCoordinator.SelectBucket | branches/ehcache_toolkit2/terracotta/bootstrap/src/main/java/org/terracotta/modules/ehcache/async/AsyncCoordinatorImpl.java:159-160 | the single-bucket policy always selects bucket 0 and the built-in policies select an index within the local bucket count |
| AsyncCoordinator.FreshCoordinatorRejectedAsWritten | branches/ehcache_toolkit2/terracotta/bootstrap/src/main/java/org/terracotta/modules/ehcache/async/AsyncCoordinatorImpl.java:93 | the argument check as written rejects every call on a fresh coordinator (processor field still null), while the corrected check accepts a non-null processor with concurrency 1 |
| AsyncCoordinator.ArgumentCheck | branches/ehcache_toolkit2/terracotta/bootstrap/src/main/java/org/terracotta/modules/ehcache/async/AsyncCoordinatorImpl.java:93-94 | arguments pass iff the given processor is non-null and concurrency is at least 1; every rejection is invalid-argument |
| AsyncCoordinator.FreshBuckets | branches/ehcache_toolkit2/terracotta/bootstrap/src/main/java/org/terracotta/modules/ehcache/async/AsyncCoordinatorImpl.java:119-127 | the buckets created by a start carry exactly the deterministic bucket names, in ordinal order |
| AsyncCoordinator.WaitingAfterAppend | branches/ehcache_toolkit2/terracotta/bootstrap/src/main/java/org/terracotta/modules/ehcache/async/AsyncCoordinatorImpl.java:153-161 | appending one item to a bucket list raises the total number of waiting items of distinct local buckets by one iff the list belongs to a local bucket |
| AsyncCoordinator.StartedPrefixSpec | branches/ehcache_toolkit2/terracotta/bootstrap/src/main/java/org/terracotta/modules/ehcache/async/AsyncCoordinatorImpl.java:132-139 | workers start in list order: every started name was not running and no name starts twice, and the first name that fails is already running or was started earlier in the same list |
| AsyncCoordinator.AllStartIff | branches/ehcache_toolkit2/terracotta/bootstrap/src/main/java/org/terracotta/modules/ehcache/async/AsyncCoordinatorImpl.java:132-139 | every worker of a bucket list starts iff the names are distinct and none is already running |
| AsyncCoordinator.AdoptOutcome | branches/ehcache_toolkit2/terracotta/bootstrap/src/main/java/org/terracotta/modules/ehcache/async/AsyncCoordinatorImpl.java:235-260 | with both registry entries present adoption never throws; if every adopted bucket starts, the dead key is removed, its names are appended to the adopter's entry, every other entry is untouched and the adopted names are running; if one is already running the registry is left unchanged |
| AsyncCoordinator.AdoptKeepsRecordedNames | branches/ehcache_toolkit2/terracotta/bootstrap/src/main/java/org/terracotta/modules/ehcache/async/AsyncCoordinatorImpl.java:240-253 | adoption never loses or invents a bucket name: the set of names recorded across the whole registry is the same before and after |
| AsyncCoordinator.AdoptKeepsOwnEntry | branches/ehcache_toolkit2/terracotta/bootstrap/src/main/java/org/terracotta/modules/ehcache/async/AsyncCoordinatorImpl.java:240-253 | once the adopter's own buckets are running, adoption keeps its entry and only extends it |
| AsyncCoordinator.AdoptStepBounds | branches/ehcache_toolkit2/terracotta/bootstrap/src/main/java/org/terracotta/modules/ehcache/async/AsyncCoordinatorImpl.java:235-260 | adoption only adds running workers and removes no registry key other than the dead node's |
| AsyncCoordinator.AdoptEachKeepsOwnEntry | branches/ehcache_toolkit2/terracotta/bootstrap/src/main/java/org/terracotta/modules/ehcache/async/AsyncCoordinatorImpl.java:144-148 | while the adopter's entry holds a running bucket, no adoption in the dead-node scan throws, the adopter's entry only grows, the running set only grows, and only scanned keys leave the registry |
| AsyncCoordinator.AdoptEachKeepsRecordedNames | branches/ehcache_toolkit2/terracotta/bootstrap/src/main/java/org/terracotta/modules/ehcache/async/AsyncCoordinatorImpl.java:144-148 | a whole dead-node scan neither loses nor invents a recorded bucket name |
| AsyncCoordinator.DeadKeysOfNode | branches/ehcache_toolkit2/terracotta/bootstrap/src/main/java/org/terracotta/modules/ehcache/async/AsyncCoordinatorImpl.java:262-272 | a node's registry key is reported dead iff it is recorded in the registry and the node is missing from the current topology |
| AsyncCoordinator.Coordinator.constructor | branches/ehcache_toolkit2/terracotta/bootstrap/src/main/java/org/terracotta/modules/ehcache/async/AsyncCoordinatorImpl.java:73-89 | a new coordinator is UNINITIALIZED with no buckets, policy, filter or processor |
| AsyncCoordinator.Coordinator.Start | branches/ehcache_toolkit2/terracotta/bootstrap/src/main/java/org/terracotta/modules/ehcache/async/AsyncCoordinatorImpl.java:91-150 | start's outcome for every case: invalid arguments, already started (no-op), a leftover policy, a missing or non-empty registry entry, a bucket already running (undone by stop, invalid-state) and success (N named buckets recorded under the node's key, their workers running, STARTED, normal completion, and the dead-node scan: the registry and running set are those of adopting every key no live node owns, one after another in some iteration order of that set) |
| AsyncCoordinator.Coordinator.Launch | branches/ehcache_toolkit2/terracotta/bootstrap/src/main/java/org/terracotta/modules/ehcache/async/AsyncCoordinatorImpl.java:118-148 | after the policy is installed: bucket creation, worker start, and either the stop-and-throw path, or STARTED and normal completion with the registry and running set being those of adopting every dead key in turn, in some iteration order of the dead-key set |
| AsyncCoordinator.Coordinator.CreateBuckets | branches/ehcache_toolkit2/terracotta/bootstrap/src/main/java/org/terracotta/modules/ehcache/async/AsyncCoordinatorImpl.java:119-128 | creates the named buckets with the current filter and records their names under the node's key |
| AsyncCoordinator.Coordinator.StartWorkers | branches/ehcache_toolkit2/terracotta/bootstrap/src/main/java/org/terracotta/modules/ehcache/async/AsyncCoordinatorImpl.java:132-139 | starts workers in order until one is already running; the started names are exactly a prefix, none of which was running, and all start iff none was running |
| AsyncCoordinator.Coordinator.Shutdown | branches/ehcache_toolkit2/terracotta/bootstrap/src/main/java/org/terracotta/modules/ehcache/async/AsyncCoordinatorImpl.java:172-194 | stop's effect while STARTED: only the workers this coordinator started stop, buckets and policy are cleared, the node's registry entry is emptied and status becomes STOPPED (null pointer when the entry is missing) |
| AsyncCoordinator.Coordinator.Stop | branches/ehcache_toolkit2/terracotta/bootstrap/src/main/java/org/terracotta/modules/ehcache/async/AsyncCoordinatorImpl.java:171-194 | a no-op unless STARTED; otherwise every local worker stops, local state is cleared and the node's registry entry becomes empty |
| AsyncCoordinator.Coordinator.Add | branches/ehcache_toolkit2/terracotta/bootstrap/src/main/java/org/terracotta/modules/ehcache/async/AsyncCoordinatorImpl.java:152-165 | null is ignored; a non-running coordinator throws invalid-state; otherwise the item is appended to exactly the selected bucket's list (an out-of-range index from a custom policy throws) and the total waiting count grows by one |
| AsyncCoordinator.Coordinator.SetOperationsFilter | branches/ehcache_toolkit2/terracotta/bootstrap/src/main/java/org/terracotta/modules/ehcache/async/AsyncCoordinatorImpl.java:205-218 | the filter is recorded and installed on every local bucket, the bucket list otherwise unchanged |
| AsyncCoordinator.Coordinator.GetQueueSize | branches/ehcache_toolkit2/terracotta/bootstrap/src/main/java/org/terracotta/modules/ehcache/async/AsyncCoordinatorImpl.java:288-302 | the total number of items waiting in the local buckets while STARTED; invalid-state when STOPPED and a null pointer when never started |
| AsyncCoordinator.Coordinator.ProcessOtherNode | branches/ehcache_toolkit2/terracotta/bootstrap/src/main/java/org/terracotta/modules/ehcache/async/AsyncCoordinatorImpl.java:235-260 | does nothing unless STARTED; otherwise its effect on the registry and the running workers is exactly one adoption step |
| AsyncCoordinator.Coordinator.DetermineDeadNodes | branches/ehcache_toolkit2/terracotta/bootstrap/src/main/java/org/terracotta/modules/ehcache/async/AsyncCoordinatorImpl.java:262-272 | returns exactly the registry keys not derived from a node in the current topology |
| AsyncCoordinator.Coordinator.AdoptAll | branches/ehcache_toolkit2/terracotta/bootstrap/src/main/java/org/terracotta/modules/ehcache/async/AsyncCoordinatorImpl.java:144-148 | completes normally, and the new registry and running set are those of adopting every dead key one after another in some iteration order of the set; hence only dead keys disappear, the own entry and the running set only grow, and the recorded bucket names are kept |
| AsyncCoordinator.Coordinator.OnClusterEvent | branches/ehcache_toolkit2/terracotta/bootstrap/src/main/java/org/terracotta/modules/ehcache/async/AsyncCoordinatorImpl.java:220-237 | a node-left event on a started coordinator runs one adoption step for the departed node's key; a node-left event on a coordinator that is not started, and any other event, change nothing |
| LocalTransaction.KeysOfMembership | branches/nonxatx/core/src/main/java/net/sf/ehcache/transaction/local/TransactionContext.java:58-107 | a key is reported as new, updated or removed iff some soft lock of that kind guards it |
| LocalTransaction.ClassificationPartitions | branches/nonxatx/core/src/main/java/net/sf/ehcache/transaction/local/TransactionContext.java:58-107 | every soft lock is counted by exactly one of the new, updated and removed key lists |
| LocalTransaction.IndexOf | branches/nonxatx/core/src/main/java/net/sf/ehcache/transaction/local/TransactionContext.java:53 | `List.remove` finds the first entry that is the same soft lock object, or reports that there is none |
| LocalTransaction.MoveToEndReplaces | branches/nonxatx/core/src/main/java/net/sf/ehcache/transaction/local/TransactionContext.java:50-56 | moving a soft lock to the end replaces its first entry with the lock's current state, keeping the list's length and every other entry, when the lock object was registered; otherwise it adds the lock once |
| LocalTransaction.MoveToEndKeepsLocksDistinct | branches/nonxatx/core/src/main/java/net/sf/ehcache/transaction/local/TransactionContext.java:50-56 | moving a soft lock to the end never lists one lock object twice |
| LocalTransaction.ExpirationOverflowsAsWritten | branches/nonxatx/core/src/main/java/net/sf/ehcache/transaction/local/TransactionContext.java:27-28 | a timeout of 2147484 seconds yields an expiration in the past as written and 2147484000 ms later as intended |
| LocalTransaction.Expiration | branches/nonxatx/core/src/main/java/net/sf/ehcache/transaction/local/TransactionContext.java:28 | the expiration is the clock plus the timeout in milliseconds, and never earlier than the clock for a non-negative timeout |
| LocalTransaction.TransactionContext.constructor | branches/nonxatx/core/src/main/java/net/sf/ehcache/transaction/local/TransactionContext.java:27-30 | a new context has the corrected expiration, the given id, no locks, stores or listeners, and is not rollback-only |
| LocalTransaction.TransactionContext.SetRollbackOnly | branches/nonxatx/core/src/main/java/net/sf/ehcache/transaction/local/TransactionContext.java:36-38 | sets the rollback-only flag |
| LocalTransaction.TransactionContext.AddListener | branches/nonxatx/core/src/main/java/net/sf/ehcache/transaction/local/TransactionContext.java:150-152 | appends a listener after the existing ones |
| LocalTransaction.TransactionContext.RegisterSoftLock | branches/nonxatx/core/src/main/java/net/sf/ehcache/transaction/local/TransactionContext.java:40-48 | appends the lock to the cache's list; the store is recorded on the first registration only, keeping the two tables on the same caches |
| LocalTransaction.TransactionContext.UpdateSoftLock | branches/nonxatx/core/src/main/java/net/sf/ehcache/transaction/local/TransactionContext.java:50-56 | for a known cache the lock moves to the end of its list; an unknown cache is left alone |
| LocalTransaction.TransactionContext.GetNewKeys | branches/nonxatx/core/src/main/java/net/sf/ehcache/transaction/local/TransactionContext.java:58-73 | the keys of the cache's locks that wrote an element where none was, in lock order |
| LocalTransaction.TransactionContext.GetUpdatedKeys | branches/nonxatx/core/src/main/java/net/sf/ehcache/transaction/local/TransactionContext.java:75-90 | the keys of the cache's locks that replaced an element, in lock order |
| LocalTransaction.TransactionContext.GetRemovedKeys | branches/nonxatx/core/src/main/java/net/sf/ehcache/transaction/local/TransactionContext.java:92-107 | the keys of the cache's locks that removed an element, in lock order |
| LocalTransaction.TransactionContext.FireEvent | branches/nonxatx/core/src/main/java/net/sf/ehcache/transaction/local/TransactionContext.java:154-170 | every listener hears the event once, in registration order |
| LocalTransaction.TransactionContext.CallStores | branches/nonxatx/core/src/main/java/net/sf/ehcache/transaction/local/TransactionContext.java:118-124 | each participating cache's store is called exactly once with that cache's locks, in some enumeration order of the caches |
| LocalTransaction.TransactionContext.Commit | branches/nonxatx/core/src/main/java/net/sf/ehcache/transaction/local/TransactionContext.java:109-129 | a rollback-only transaction is rolled back and the commit throws; otherwise beforeCommit, one commit per store, afterCommit, and both tables end empty |
| LocalTransaction.TransactionContext.Rollback | branches/nonxatx/core/src/main/java/net/sf/ehcache/transaction/local/TransactionContext.java:131-144 | one rollback per store with its locks, then afterRollback, and both tables end empty |
| LocalTransaction.EqualsIsConsistent | branches/nonxatx/core/src/main/java/net/sf/ehcache/transaction/local/TransactionContext.java:172-184 | equals is reflexive, symmetric and transitive, false for null, and equal contexts have equal hash codes |
| QueryStatistics.ReadString | trunk/core/src/main/java/net/sf/ehcache/hibernate/management/impl/QueryStats.java:151 | the query item is read when present and a string or null, giving that string or null; a missing item throws InvalidKeyException and any other type ClassCastException |
| QueryStatistics.ReadLong | trunk/core/src/main/java/net/sf/ehcache/hibernate/management/impl/QueryStats.java:152-159 | a counter item is read iff present and a long; missing throws invalid-key and null throws a null pointer |
| QueryStatistics.ReadLongsSpec | trunk/core/src/main/java/net/sf/ehcache/hibernate/management/impl/QueryStats.java:152-159 | the counters are read iff every item is a long, and then the values are exactly the items' longs in item order |
| QueryStatistics.ReadLongsFailsEarly | trunk/core/src/main/java/net/sf/ehcache/hibernate/management/impl/QueryStats.java:152-159 | the first failing counter item decides the exception |
| QueryStatistics.DecodeSpec | trunk/core/src/main/java/net/sf/ehcache/hibernate/management/impl/QueryStats.java:149-160 | a composite record decodes iff every item is present with its declared type, and every counter keeps its item's value |
| QueryStatistics.SafeParseInt | trunk/core/src/main/java/net/sf/ehcache/hibernate/management/impl/QueryStats.java:162-168 | the parsed `int` when parseInt accepts the text, -1 otherwise |
| QueryStatistics.DescribedCounter | trunk/core/src/main/java/net/sf/ehcache/hibernate/management/impl/QueryStats.java:126-144 | a described long counter comes back whole when it fits in an `int` and as -1 otherwise |
| QueryStatistics.Sum | trunk/core/src/main/java/net/sf/ehcache/hibernate/management/impl/QueryStats.java:173-182 | counter-wise addition that is exact whenever the sum fits in a `long` |
| QueryStatistics.QueryStats.constructor | trunk/core/src/main/java/net/sf/ehcache/hibernate/management/impl/QueryStats.java:118-120 | a named entry with every counter zero |
| QueryStatistics.QueryStats.Described | trunk/core/src/main/java/net/sf/ehcache/hibernate/management/impl/QueryStats.java:126-144 | each counter is the safely parsed described property of the same name |
| QueryStatistics.QueryStats.Add | trunk/core/src/main/java/net/sf/ehcache/hibernate/management/impl/QueryStats.java:173-182 | each counter becomes the `long` sum of its old value and the other entry's old value, also when the other entry is this one |
| QueryStatistics.ReadCounters | trunk/core/src/main/java/net/sf/ehcache/hibernate/management/impl/QueryStats.java:152-159 | reads the counter items in order and stops at the first failure, agreeing with the counter decoding |
| QueryStatistics.FromCompositeData | trunk/core/src/main/java/net/sf/ehcache/hibernate/management/impl/QueryStats.java:149-160 | a new entry holding exactly the decoded record, or the exception decoding throws |
| QueryStatistics.FromTabularData | trunk/core/src/main/java/net/sf/ehcache/hibernate/management/impl/QueryStats.java:280-286 | one new entry per row in row order, each holding its row's decoded state; fails iff some row does not decode, with the exception of the first row that does not |
| QueryStatistics.CompositeRoundTrip | trunk/core/src/main/java/net/sf/ehcache/hibernate/management/impl/QueryStats.java:261-268 | decoding an entry's composite record gives back the entry's query and counters |
| QueryStatistics.ToStringListsItems | trunk/core/src/main/java/net/sf/ehcache/hibernate/management/impl/QueryStats.java:187-193 | toString lists all nine items as name=value pairs in item order, separated by commas |
| ConfigBridge.ToolkitConfigNameInjective | branches/ehcache_toolkit2/terracotta/bootstrap/src/main/java/org/terracotta/modules/ehcache/store/CacheConfigChangeBridge.java:146-161 | each dynamic config type has its own toolkit field name |
| ConfigBridge.FirstNamed | branches/ehcache_toolkit2/terracotta/bootstrap/src/main/java/org/terracotta/modules/ehcache/store/CacheConfigChangeBridge.java:163-168 | the search finds a type with the given name, or none exists among the searched types |
| ConfigBridge.TypeNamedSpec | branches/ehcache_toolkit2/terracotta/bootstrap/src/main/java/org/terracotta/modules/ehcache/store/CacheConfigChangeBridge.java:163-168 | a name maps to a type iff it is that type's field name, so looking up a type's own name gives the type back |
| ConfigBridge.TypeFromToolkitConfigName | branches/ehcache_toolkit2/terracotta/bootstrap/src/main/java/org/terracotta/modules/ehcache/store/CacheConfigChangeBridge.java:163-168 | returns the type whose field name is the argument; an unknown name throws invalid-argument with the name in the message |
| ConfigBridge.GetLong | branches/ehcache_toolkit2/terracotta/bootstrap/src/main/java/org/terracotta/modules/ehcache/store/CacheConfigChangeBridge.java:171-179 | an Integer is widened, a Long kept, anything else rejected with invalid-argument |
| ConfigBridge.GetInt | branches/ehcache_toolkit2/terracotta/bootstrap/src/main/java/org/terracotta/modules/ehcache/store/CacheConfigChangeBridge.java:181-187 | only an Integer is accepted; a Long is rejected even when it would fit |
| ConfigBridge.GetIntWidens | branches/ehcache_toolkit2/terracotta/bootstrap/src/main/java/org/terracotta/modules/ehcache/store/CacheConfigChangeBridge.java:171-187 | every value getInt accepts, getLong accepts with the same number |
| ConfigBridge.CacheConfigChangeBridge.constructor | branches/ehcache_toolkit2/terracotta/bootstrap/src/main/java/org/terracotta/modules/ehcache/store/CacheConfigChangeBridge.java:30-36 | stores the configuration, cache name, backend and notifier |
| ConfigBridge.CacheConfigChangeBridge.ConnectConfigs | branches/ehcache_toolkit2/terracotta/bootstrap/src/main/java/org/terracotta/modules/ehcache/store/CacheConfigChangeBridge.java:38-41 | the bridge becomes a listener of the configuration and of the notifier |
| ConfigBridge.CacheConfigChangeBridge.DisconnectConfigs | branches/ehcache_toolkit2/terracotta/bootstrap/src/main/java/org/terracotta/modules/ehcache/store/CacheConfigChangeBridge.java:43-46 | the bridge stops listening to both |
| ConfigBridge.CacheConfigChangeBridge.ChangeAndNotify | branches/ehcache_toolkit2/terracotta/bootstrap/src/main/java/org/terracotta/modules/ehcache/store/CacheConfigChangeBridge.java:48-52 | the backend field named by the type holds the value and exactly one change message with that name and value is broadcast |
| ConfigBridge.CacheConfigChangeBridge.TimeToIdleChanged | branches/ehcache_toolkit2/terracotta/bootstrap/src/main/java/org/terracotta/modules/ehcache/store/CacheConfigChangeBridge.java:54-57 | writes the TTI field and broadcasts the new value as a Long |
| ConfigBridge.CacheConfigChangeBridge.TimeToLiveChanged | branches/ehcache_toolkit2/terracotta/bootstrap/src/main/java/org/terracotta/modules/ehcache/store/CacheConfigChangeBridge.java:59-62 | writes the TTL field and broadcasts the new value as a Long |
| ConfigBridge.CacheConfigChangeBridge.DiskCapacityChanged | branches/ehcache_toolkit2/terracotta/bootstrap/src/main/java/org/terracotta/modules/ehcache/store/CacheConfigChangeBridge.java:64-67 | writes the total-count field and broadcasts the new capacity as an Integer |
| ConfigBridge.CacheConfigChangeBridge.MemoryCapacityChanged | branches/ehcache_toolkit2/terracotta/bootstrap/src/main/java/org/terracotta/modules/ehcache/store/CacheConfigChangeBridge.java:69-72 | writes the local-heap count field and broadcasts the new capacity as an Integer |
| ConfigBridge.CacheConfigChangeBridge.MaxBytesLocalHeapChanged | branches/ehcache_toolkit2/terracotta/bootstrap/src/main/java/org/terracotta/modules/ehcache/store/CacheConfigChangeBridge.java:74-77 | writes the local-heap bytes field and broadcasts the new value as a Long |
| ConfigBridge.CacheConfigChangeBridge.ProcessConfigChangeNotification | branches/ehcache_toolkit2/terracotta/bootstrap/src/main/java/org/terracotta/modules/ehcache/store/CacheConfigChangeBridge.java:109-139 | the configuration changes exactly as the dispatch of the message's name and value says: one setter with the converted value, or nothing for an unknown name or a wrongly typed value |
| ConfigBridge.CacheConfigChangeBridge.OnNotification | branches/ehcache_toolkit2/terracotta/bootstrap/src/main/java/org/terracotta/modules/ehcache/store/CacheConfigChangeBridge.java:99-107 | a change message from this bridge's notifier for this cache is processed; any other message leaves the configuration unchanged |
| ConfigBridge.LocalChangeRoundTrip | branches/ehcache_toolkit2/terracotta/bootstrap/src/main/java/org/terracotta/modules/ehcache/store/CacheConfigChangeBridge.java:48-77 | a local change broadcast by one bridge is accepted by every bridge for the same cache on the same notifier and there runs the matching setter with the same value |
| ConfigBridge.DispatchTouchesOneSetting | branches/ehcache_toolkit2/terracotta/bootstrap/src/main/java/org/terracotta/modules/ehcache/store/CacheConfigChangeBridge.java:113-134 | processing a message for one type leaves every other setting unchanged |

## Left out

- Locks: the coordinator lock, the cluster-wide adoption write lock, `volatile` status and the threads of the cluster listener and the bucket workers are not modelled. Each operation is modelled as one atomic step.
- ProcessingBucket is not part of this model. A bucket is its name plus its filter. Its worker is the presence of its name in the toolkit's running set. Its wait count is the length of its backing list. Stopping a bucket whose `start` was never attempted, or failed because another worker already ran it, is assumed to release no running marker: `stop` releases only the markers of the workers this coordinator started. The worker loop, the error handler and the bootstrap flag are out of scope.
- The cluster listener subscription is the boolean `listening`. The cluster topology is a parameter listing the live node ids.
- `AsyncCoordinator.SelectBucket`: HashCodeScatterPolicy is not part of this model. The item's hash is a parameter, and the stand-in takes it modulo the bucket count.
- The delimiter comes from ToolkitInstanceFactoryImpl, which is not part of this model. The model uses "|". The only fact the proofs use is that the key derivation keeps the node id as a suffix.
- The five toolkit config field names come from ToolkitCacheConfigFields and ToolkitMapConfigFields, which are not part of this model. The model's names are chosen; the proofs use only the fact that they differ.
- `Java.ParseInt`: non-ASCII digits, which Integer.parseInt also accepts, are not modelled. The leading '+' follows Integer.parseInt from Java 7 on; earlier versions reject it.
- `LocalTransaction.TransactionContext.UpdateSoftLock`: a soft lock is the value of its state when the context last received it, and is identified by a reference. `List.remove` compares locks by that reference, assuming SoftLock does not override `equals` (SoftLock.java is not part of this model). A change to a lock's elements is seen by the key queries and by the stores only once the lock is passed to `UpdateSoftLock` again, not when the object changes.
- `AsyncCoordinator.Adopt`: when the adopter's own registry entry is missing and the dead node's list is empty, the source puts a null value under the adopter's key. The model leaves that key absent instead. The next `get` returns null either way, but the key set seen by a later dead-node scan differs.
- BeanUtils.describe is a parameter: the map of the statistics bean's property texts. The RuntimeException it can cause is not modelled.
- JMX open-type construction (CompositeType, TabularType, OpenDataException) and `newTabularDataInstance` are not modelled. A table is the sequence of its rows in the table's iteration order.
- `System.currentTimeMillis()` is a parameter of the TransactionContext constructor.
- Stores and transaction listeners are foreign code. The model records their calls but not their effects. It does not model an exception thrown by one of them in the middle of commit or rollback.
- `LocalTransaction.TransactionContext.Equals`: only the null case of `instanceof` is modelled, since the argument's static type is already a context.
- CacheConfiguration's internal setters are modelled as plain field writes. CacheConfiguration.java is not part of this model.
- Logging is not modelled.
- `AsyncCoordinator.Coordinator.GetQueueSize`: the `long` accumulator is modelled as an unbounded integer. A total above 2^63 - 1 waiting items is not reachable in practice.

## Findings

| source | as written | input that shows it | evidently intended | confidence | as-written member | corrected member |
|---|---|---|---|---|---|---|
| branches/ehcache_toolkit2/terracotta/bootstrap/src/main/java/org/terracotta/modules/ehcache/async/AsyncCoordinatorImpl.java:93 | `start` rejects the call when the coordinator's `processor` field is null. That field is assigned only at line 118, after this check, and nowhere else. | every `start` of every coordinator throws "processor can't be null", even with a non-null processor and concurrency 1. The field is never assigned, so no coordinator ever reaches STARTED | reject a null `itemProcessor` argument | high, not executed | AsyncCoordinator.FreshCoordinatorRejectedAsWritten | AsyncCoordinator.ArgumentCheck |
| branches/nonxatx/core/src/main/java/net/sf/ehcache/transaction/local/TransactionContext.java:28 | the timeout in seconds is multiplied by 1000 in 32-bit `int` arithmetic | timeout 2147484 s gives an expiration 2147483296 ms before the clock reading | compute the product in `long` | high, not executed | LocalTransaction.ExpirationOverflowsAsWritten | LocalTransaction.Expiration |
