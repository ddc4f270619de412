/**
 * The asynchronous work-queue coordinator (AsyncCoordinatorImpl): a lifecycle
 * state machine that partitions work into named buckets, routes each added item
 * to one bucket through a scatter policy, records which node owns which bucket
 * in a shared registry, and adopts the buckets of nodes that left the cluster.
 *
 * Each public operation runs under the coordinator's lock in the source; here
 * each is one atomic step. The cluster-visible state (the registry map, the
 * durable bucket lists and the "worker already running" markers) lives in a
 * separate Toolkit object that several coordinators may share.
 */
module AsyncCoordinator {
  import opened Java

  const BUCKET: string := "bucket"

  /** ToolkitInstanceFactoryImpl.DELIMITER (that class is not part of this model). */
  const DELIMITER: string := "|"

  type NodeId = string

  /** The identity of an ItemProcessor object. */
  type ProcessorRef = nat

  /** The identity of an ItemsFilter object. */
  type FilterRef = nat

  /** The coordinator's lifecycle. Uninitialized stands for the field's initial null. */
  datatype Status = Uninitialized | Started | Stopped

  /** Status.name().toLowerCase() */
  function StatusName(s: Status): string
  {
    match s
    case Uninitialized => "uninitialized"
    case Started => "started"
    case Stopped => "stopped"
  }

  /** Status.checkRunning(): only STARTED passes; the others throw naming themselves. */
  function CheckRunning(s: Status): (r: Option<JavaException>)
    ensures r.None? <==> s == Started
  {
    if s == Started then None else Some(IllegalState("AsyncCoordinator is " + StatusName(s) + "!"))
  }

  predicate Distinct(s: seq<string>)
  {
    forall i, j :: 0 <= i < j < |s| ==> s[i] != s[j]
  }

  function Elems(s: seq<string>): set<string>
  {
    set x | x in s
  }

  // ---------------------------------------------------------------------------
  // Names and keys

  /** ToolkitInstanceFactory.getAsyncNameListKey(name, nodeId): a node's registry key. */
  function NameListKey(name: string, node: NodeId): string
  {
    name + DELIMITER + node
  }

  /** For a fixed coordinator name, distinct nodes have distinct registry keys. */
  lemma NameListKeyInjective(name: string, a: NodeId, b: NodeId)
    ensures NameListKey(name, a) == NameListKey(name, b) <==> a == b
  {
    if NameListKey(name, a) == NameListKey(name, b) {
      var n := |name + DELIMITER|;
      assert a == NameListKey(name, a)[n..];
      assert b == NameListKey(name, b)[n..];
    }
  }

  /** The name of the i-th bucket a coordinator with registry key `key` creates. */
  function BucketName(key: string, i: nat): string
  {
    key + DELIMITER + BUCKET + DELIMITER + IntToDecimal(i)
  }

  /** The names of the buckets `start` creates, in creation order. */
  function BucketNames(key: string, n: nat): (names: seq<string>)
    ensures |names| == n
  {
    seq(n, i requires 0 <= i < n => BucketName(key, i))
  }

  /** A coordinator's bucket names are pairwise distinct. */
  lemma BucketNamesDistinct(key: string, n: nat)
    ensures Distinct(BucketNames(key, n))
  {
    var names := BucketNames(key, n);
    forall i, j | 0 <= i < j < n
      ensures names[i] != names[j]
    {
      var p := |key + DELIMITER + BUCKET + DELIMITER|;
      if names[i] == names[j] {
        assert names[i][p..] == IntToDecimal(i);
        assert names[j][p..] == IntToDecimal(j);
        IntToDecimalInjective(i, j);
      }
    }
  }

  // ---------------------------------------------------------------------------
  // Scatter policies

  /**
   * An ItemScatterPolicy: the two built-in ones, or one supplied by the caller
   * as a function from (bucket count, item) to an index.
   */
  datatype ScatterPolicy<!E> = SingleBucket | HashCode | Custom(select: (nat, E) -> int)

  /**
   * selectBucket(count, item). HashCodeScatterPolicy is not part of this model;
   * it stands here as the item's hash code reduced into [0, count).
   */
  function SelectBucket<E>(p: ScatterPolicy<E>, count: nat, item: E, hashCode: E -> int): (r: int)
    requires count >= 1
    ensures p.SingleBucket? ==> r == 0
    ensures !p.Custom? ==> 0 <= r < count
  {
    match p
    case SingleBucket => 0
    case HashCode => hashCode(item) % count
    case Custom(select) => select(count, item)
  }

  /** The policy `start` installs: the caller's, or the default for the concurrency. */
  function ChosenPolicy<E>(policy: Option<ScatterPolicy<E>>, concurrency: int): (p: ScatterPolicy<E>)
    ensures policy.None? ==> (p.SingleBucket? <==> concurrency == 1) && (p.HashCode? <==> concurrency != 1)
    ensures policy.Some? ==> p == policy.value
  {
    if policy.Some? then policy.value
    else if concurrency == 1 then SingleBucket
    else HashCode
  }

  // ---------------------------------------------------------------------------
  // Argument check of start()

  /**
   * The argument check of start() as the source writes it: it tests the
   * coordinator's processor FIELD, which only a successful start assigns.
   */
  function ArgumentCheckAsWritten(processorField: Option<ProcessorRef>, concurrency: int): Option<JavaException>
  {
    if processorField.None? then Some(IllegalArgument("processor can't be null"))
    else if concurrency < 1 then Some(IllegalArgument("processingConcurrency needs to be at least 1"))
    else None
  }

  /** A coordinator whose processor field is unset can never pass the check as written. */
  lemma FreshCoordinatorRejectedAsWritten(itemProcessor: ProcessorRef)
    ensures ArgumentCheckAsWritten(None, 1) == Some(IllegalArgument("processor can't be null"))
    ensures ArgumentCheck(Some(itemProcessor), 1) == None
  {
  }

  /** The argument check of start() with the processor ARGUMENT tested, as evidently intended. */
  function ArgumentCheck(itemProcessor: Option<ProcessorRef>, concurrency: int): (r: Option<JavaException>)
    ensures r.None? <==> itemProcessor.Some? && concurrency >= 1
    ensures r.Some? ==> r.value.IllegalArgument?
  {
    if itemProcessor.None? then Some(IllegalArgument("processor can't be null"))
    else if concurrency < 1 then Some(IllegalArgument("processingConcurrency needs to be at least 1"))
    else None
  }

  // ---------------------------------------------------------------------------
  // Buckets, queue sizes and the registry

  /** A local ProcessingBucket: the name of its durable list and the filter it applies. */
  datatype Bucket = Bucket(name: string, filter: Option<FilterRef>)

  function Names(bs: seq<Bucket>): (names: seq<string>)
    ensures |names| == |bs|
  {
    seq(|bs|, i requires 0 <= i < |bs| => bs[i].name)
  }

  /** The buckets start() creates, all carrying the current filter. */
  function FreshBuckets(key: string, n: nat, filter: Option<FilterRef>): (bs: seq<Bucket>)
    ensures Names(bs) == BucketNames(key, n)
  {
    seq(n, i requires 0 <= i < n => Bucket(BucketName(key, i), filter))
  }

  /** The durable list named `name` (toolkit.getList creates an empty one when absent). */
  function Pending<E>(lists: map<string, seq<E>>, name: string): seq<E>
  {
    if name in lists then lists[name] else []
  }

  /** The sum of the buckets' pending counts (getWaitCount). */
  function Waiting<E>(bs: seq<Bucket>, lists: map<string, seq<E>>): nat
  {
    if bs == [] then 0 else Waiting(bs[..|bs| - 1], lists) + |Pending(lists, bs[|bs| - 1].name)|
  }

  /** Appending one item to one bucket's list raises the total by one if that bucket is among bs. */
  lemma {:induction false} WaitingAfterAppend<E>(bs: seq<Bucket>, lists: map<string, seq<E>>, target: string, item: E)
    requires Distinct(Names(bs))
    ensures Waiting(bs, lists[target := Pending(lists, target) + [item]])
         == Waiting(bs, lists) + (if target in Names(bs) then 1 else 0)
  {
    if bs != [] {
      var init := bs[..|bs| - 1];
      assert Names(init) == Names(bs)[..|bs| - 1];
      var last := bs[|bs| - 1].name;
      assert Names(bs) == Names(init) + [last];
      WaitingAfterAppend(init, lists, target, item);
      if target == last {
        assert Names(bs)[|bs| - 1] == target;
        forall j | 0 <= j < |init| ensures Names(init)[j] != target {
          assert Names(init)[j] == Names(bs)[j];
        }
      }
    }
  }

  /** Every bucket name some registry entry records. */
  ghost function RecordedNames(registry: map<string, seq<string>>): set<string>
  {
    set k, x | k in registry && x in registry[k] :: x
  }

  /**
   * Starting the workers of `names` in order, where a start fails with
   * "already running" when the name's marker is held: how many start before
   * the first failure.
   */
  function StartedPrefix(names: seq<string>, running: set<string>): (k: nat)
    ensures k <= |names|
    decreases |names|
  {
    if names == [] || names[0] in running then 0
    else 1 + StartedPrefix(names[1..], running + {names[0]})
  }

  /** The workers that start are fresh and distinct; the first one that does not was already running. */
  lemma {:induction false} StartedPrefixSpec(names: seq<string>, running: set<string>)
    ensures var k := StartedPrefix(names, running);
      && (forall j :: 0 <= j < k ==> names[j] !in running)
      && Distinct(names[..k])
      && (k < |names| ==> names[k] in running + Elems(names[..k]))
    decreases |names|
  {
    if names != [] && names[0] !in running {
      var rest := names[1..];
      var r' := running + {names[0]};
      StartedPrefixSpec(rest, r');
      var k := StartedPrefix(names, running);
      assert k == 1 + StartedPrefix(rest, r');
      forall j | 1 <= j < k ensures names[j] != names[0] && names[j] !in running {
        assert names[j] == rest[j - 1];
      }
      assert names[..k] == [names[0]] + rest[..k - 1];
      if k < |names| {
        assert names[k] == rest[k - 1];
        assert Elems(names[..k]) == {names[0]} + Elems(rest[..k - 1]);
      }
    }
  }

  /** Every worker of a list starts iff its names are distinct and none is already running. */
  lemma AllStartIff(names: seq<string>, running: set<string>)
    ensures StartedPrefix(names, running) == |names| <==> Distinct(names) && Elems(names) !! running
  {
    StartedPrefixSpec(names, running);
    var k := StartedPrefix(names, running);
    if k < |names| {
      if names[k] in running {
        assert names[k] in Elems(names);
      } else {
        assert names[k] in Elems(names[..k]);
        var j :| 0 <= j < k && names[..k][j] == names[k];
        assert names[j] == names[k];
      }
    } else {
      assert names[..k] == names;
    }
  }

  /** The effect of processOtherNode on the shared state. */
  datatype AdoptionStep = AdoptionStep(registry: map<string, seq<string>>, running: set<string>, outcome: Outcome)

  /**
   * processOtherNode(other) by the owner of key `own`, under the cluster-wide
   * adoption lock: start a worker for each of the dead node's buckets in order,
   * recording it under `own`; the first worker that is already running aborts
   * the rest and neither registry write happens; when every worker starts, the
   * dead node's entry is removed and its names are appended to the owner's.
   * A missing owner entry is the null list the source dereferences; when
   * there is nothing to adopt, the source puts that null back under `own`,
   * which the model leaves absent.
   */
  function Adopt(registry: map<string, seq<string>>, running: set<string>, own: string, other: string): AdoptionStep
  {
    if other !in registry then AdoptionStep(registry, running, Normal)
    else
      var names := registry[other];
      var k := StartedPrefix(names, running);
      if own !in registry then
        if names == [] then AdoptionStep(registry - {other}, running, Normal)
        else if names[0] in running then AdoptionStep(registry, running, Normal)
        else AdoptionStep(registry, running + {names[0]}, Thrown(NullPointer))
      else if k < |names| then AdoptionStep(registry, running + Elems(names[..k]), Normal)
      else AdoptionStep((registry - {other})[own := registry[own] + names], running + Elems(names), Normal)
  }

  /**
   * A successful adoption: when the dead node's workers can all start, its
   * entry disappears, its names follow the owner's, and every other entry is
   * untouched; when one of them is already running, the registry is unchanged.
   */
  lemma AdoptOutcome(registry: map<string, seq<string>>, running: set<string>, own: string, other: string)
    requires own in registry && other in registry && own != other
    ensures var step := Adopt(registry, running, own, other);
      var names := registry[other];
      && step.outcome == Normal
      && (Distinct(names) && Elems(names) !! running ==>
            && other !in step.registry
            && step.registry[own] == registry[own] + names
            && step.registry.Keys == registry.Keys - {other}
            && (forall k :: k in step.registry && k != own ==> step.registry[k] == registry[k])
            && step.running == running + Elems(names))
      && (!(Distinct(names) && Elems(names) !! running) ==> step.registry == registry)
  {
    AllStartIff(registry[other], running);
    assert registry[other][..|registry[other]|] == registry[other];
  }

  /** Adoption never loses or invents a bucket name: the recorded names are the same afterwards. */
  lemma AdoptKeepsRecordedNames(registry: map<string, seq<string>>, running: set<string>, own: string, other: string)
    ensures RecordedNames(Adopt(registry, running, own, other).registry) == RecordedNames(registry)
  {
    var after := Adopt(registry, running, own, other).registry;
    if other in registry && own in registry && StartedPrefix(registry[other], running) == |registry[other]| {
      var names := registry[other];
      forall x | x in RecordedNames(registry) ensures x in RecordedNames(after) {
        var k :| k in registry && x in registry[k];
        if k == other || k == own {
          assert x in after[own];
        } else {
          assert x in after[k];
        }
      }
      forall x | x in RecordedNames(after) ensures x in RecordedNames(registry) {
        var k :| k in after && x in after[k];
        if k == own {
          if x in registry[own] {
            assert x in registry[own];
          } else {
            assert x in names;
          }
        } else {
          assert x in registry[k];
        }
      }
    } else if other in registry && own !in registry && registry[other] == [] {
      forall x | x in RecordedNames(registry) ensures x in RecordedNames(after) {
        var k :| k in registry && x in registry[k];
        assert k != other;
        assert x in after[k];
      }
    }
  }

  /**
   * The owner's own entry survives an adoption and keeps its contents as a
   * prefix, provided one of its buckets is running (the owner's own workers
   * are, so adopting one's own key fails).
   */
  lemma AdoptKeepsOwnEntry(registry: map<string, seq<string>>, running: set<string>, own: string, other: string)
    requires own in registry && Elems(registry[own]) * running != {}
    ensures var after := Adopt(registry, running, own, other).registry;
      own in after && registry[own] <= after[own]
  {
    if other == own {
      var names := registry[own];
      AllStartIff(names, running);
    }
  }

  /**
   * The scan at the end of start(): processOtherNode for each key of `keys`
   * in turn; an exception from one adoption ends the scan and escapes.
   */
  function AdoptEach(registry: map<string, seq<string>>, running: set<string>, own: string, keys: seq<string>): AdoptionStep
  {
    if keys == [] then AdoptionStep(registry, running, Normal)
    else
      var before := AdoptEach(registry, running, own, keys[..|keys| - 1]);
      if before.outcome.Thrown? then before
      else Adopt(before.registry, before.running, own, keys[|keys| - 1])
  }

  /**
   * While the owner's entry holds a running bucket (its own workers, once
   * started), no adoption in a scan throws, the owner's entry only grows,
   * markers are only added, and only scanned keys disappear.
   */
  lemma {:induction false} AdoptEachKeepsOwnEntry(registry: map<string, seq<string>>, running: set<string>, own: string,
                                                  keys: seq<string>)
    requires own in registry && Elems(registry[own]) * running != {}
    ensures var after := AdoptEach(registry, running, own, keys);
      && after.outcome == Normal
      && own in after.registry && registry[own] <= after.registry[own]
      && running <= after.running
      && after.registry.Keys <= registry.Keys
      && registry.Keys - after.registry.Keys <= Elems(keys)
    decreases |keys|
  {
    if keys != [] {
      var init, last := keys[..|keys| - 1], keys[|keys| - 1];
      AdoptEachKeepsOwnEntry(registry, running, own, init);
      var before := AdoptEach(registry, running, own, init);
      assert Elems(registry[own]) <= Elems(before.registry[own]);
      assert Elems(before.registry[own]) * before.running != {};
      AdoptKeepsOwnEntry(before.registry, before.running, own, last);
      AdoptStepBounds(before.registry, before.running, own, last);
      assert Elems(keys) == Elems(init) + {last} by {
        assert keys == init + [last];
      }
    }
  }

  /** A whole scan neither loses nor invents a recorded bucket name. */
  lemma {:induction false} AdoptEachKeepsRecordedNames(registry: map<string, seq<string>>, running: set<string>,
                                                       own: string, keys: seq<string>)
    ensures RecordedNames(AdoptEach(registry, running, own, keys).registry) == RecordedNames(registry)
    decreases |keys|
  {
    if keys != [] {
      var init := keys[..|keys| - 1];
      AdoptEachKeepsRecordedNames(registry, running, own, init);
      var before := AdoptEach(registry, running, own, init);
      AdoptKeepsRecordedNames(before.registry, before.running, own, keys[|keys| - 1]);
    }
  }

  /** The registry keys of the nodes in the topology. */
  function LiveKeys(name: string, topology: seq<NodeId>): set<string>
  {
    set n | n in topology :: NameListKey(name, n)
  }

  /** The registry keys start() scans for adoption: every key no live node of this name owns. */
  function DeadKeys(registry: map<string, seq<string>>, name: string, topology: seq<NodeId>): set<string>
  {
    registry.Keys - LiveKeys(name, topology)
  }

  /** A node's key is dead exactly when it is in the registry and the node is not in the topology. */
  lemma DeadKeysOfNode(registry: map<string, seq<string>>, name: string, topology: seq<NodeId>, node: NodeId)
    ensures NameListKey(name, node) in DeadKeys(registry, name, topology)
        <==> NameListKey(name, node) in registry && node !in topology
  {
    if NameListKey(name, node) in LiveKeys(name, topology) {
      var n :| n in topology && NameListKey(name, n) == NameListKey(name, node);
      NameListKeyInjective(name, n, node);
    }
  }

  // ---------------------------------------------------------------------------
  // State

  /** The cluster-visible state that coordinators on all nodes share. */
  class Toolkit<E> {
    /** listNamesMap: registry key -> names of the buckets that node owns. */
    var registry: map<string, seq<string>>
    /** The durable ToolkitList behind each bucket name. */
    var lists: map<string, seq<E>>
    /** Names of the buckets whose worker is alive somewhere in the cluster. */
    var running: set<string>

    constructor (registry: map<string, seq<string>>, lists: map<string, seq<E>>, running: set<string>)
      ensures this.registry == registry && this.lists == lists && this.running == running
    {
      this.registry := registry;
      this.lists := lists;
      this.running := running;
    }
  }

  /** A cluster topology event delivered to the coordinator's listener. */
  datatype ClusterEventType = NodeLeft | OtherEvent
  datatype ClusterEvent = ClusterEvent(eventType: ClusterEventType, node: NodeId)

  class Coordinator<E> {
    const name: string
    const nameListKey: string
    const toolkit: Toolkit<E>
    /** The items' hashCode(), which the hash-based policy uses. */
    const hashCode: E -> int

    var status: Status
    var scatterPolicy: Option<ScatterPolicy<E>>
    var filter: Option<FilterRef>
    var processor: Option<ProcessorRef>
    /** Whether the cluster listener is registered. */
    var listening: bool
    var localBuckets: seq<Bucket>

    ghost predicate Valid()
      reads this
    {
      && (status != Started ==> localBuckets == [])
      && (status == Started && scatterPolicy.Some? ==> |localBuckets| >= 1)
      && Distinct(Names(localBuckets))
    }

    constructor (name: string, nameListKey: string, toolkit: Toolkit<E>, hashCode: E -> int)
      ensures Valid()
      ensures this.name == name && this.nameListKey == nameListKey && this.toolkit == toolkit
      ensures this.hashCode == hashCode
      ensures status == Uninitialized && scatterPolicy == None && filter == None && processor == None
      ensures !listening && localBuckets == []
    {
      this.name := name;
      this.nameListKey := nameListKey;
      this.toolkit := toolkit;
      this.hashCode := hashCode;
      status := Uninitialized;
      scatterPolicy := None;
      filter := None;
      processor := None;
      listening := false;
      localBuckets := [];
    }

    /**
     * start(itemProcessor, processingConcurrency, policy), then the scan for
     * dead nodes; `topology` is the cluster's current member list.
     */
    method Start(itemProcessor: Option<ProcessorRef>, concurrency: int, policy: Option<ScatterPolicy<E>>,
                 topology: seq<NodeId>) returns (outcome: Outcome)
      requires Valid()
      modifies this, toolkit
      ensures Valid()
      ensures toolkit.lists == old(toolkit.lists)
      // invalid arguments: nothing changes
      ensures ArgumentCheck(itemProcessor, concurrency).Some? ==>
        outcome == Thrown(ArgumentCheck(itemProcessor, concurrency).value) && unchanged(this, toolkit)
      // already started: an idempotent no-op
      ensures ArgumentCheck(itemProcessor, concurrency).None? && old(status) == Started ==>
        outcome == Normal && unchanged(this, toolkit)
      // a policy left over from an earlier start
      ensures ArgumentCheck(itemProcessor, concurrency).None? && old(status) != Started && old(scatterPolicy).Some? ==>
        outcome == Thrown(IllegalArgument("scatterPolicy should have been null for AsyncCoordinator " + name))
        && unchanged(this, toolkit)
      // from here on the policy has been installed
      ensures ArgumentCheck(itemProcessor, concurrency).None? && old(status) != Started && old(scatterPolicy).None? ==>
        && filter == old(filter)
        && (nameListKey !in old(toolkit.registry) ==>
              && outcome == Thrown(NullPointer) && scatterPolicy == Some(ChosenPolicy(policy, concurrency))
              && status == old(status) && processor == old(processor) && listening == old(listening)
              && localBuckets == old(localBuckets) && unchanged(toolkit))
        && (nameListKey in old(toolkit.registry) && old(toolkit.registry)[nameListKey] != [] ==>
              && outcome == Thrown(IllegalArgument("nameList already populated for AsyncCoordinator " + name))
              && scatterPolicy == Some(ChosenPolicy(policy, concurrency))
              && status == old(status) && processor == old(processor) && listening == old(listening)
              && localBuckets == old(localBuckets) && unchanged(toolkit))
        && (nameListKey in old(toolkit.registry) && old(toolkit.registry)[nameListKey] == [] ==>
              processor == itemProcessor)
      // a bucket worker already running: stop() undoes the start and the call throws
      ensures ArgumentCheck(itemProcessor, concurrency).None? && old(status) != Started && old(scatterPolicy).None?
              && nameListKey in old(toolkit.registry) && old(toolkit.registry)[nameListKey] == []
              && !(Elems(BucketNames(nameListKey, concurrency)) !! old(toolkit.running)) ==>
        && outcome.Thrown? && outcome.error.IllegalState?
        && status == Stopped && localBuckets == [] && scatterPolicy == None && !listening
        && toolkit.registry == old(toolkit.registry)[nameListKey := []]
        && toolkit.running == old(toolkit.running)
      // success: N fresh buckets recorded under the node's key, workers running, status STARTED
      ensures ArgumentCheck(itemProcessor, concurrency).None? && old(status) != Started && old(scatterPolicy).None?
              && nameListKey in old(toolkit.registry) && old(toolkit.registry)[nameListKey] == []
              && Elems(BucketNames(nameListKey, concurrency)) !! old(toolkit.running) ==>
        && status == Started && listening
        && scatterPolicy == Some(ChosenPolicy(policy, concurrency))
        && localBuckets == FreshBuckets(nameListKey, concurrency, old(filter))
        && old(toolkit.running) + Elems(BucketNames(nameListKey, concurrency)) <= toolkit.running
        && nameListKey in toolkit.registry
        && BucketNames(nameListKey, concurrency) <= toolkit.registry[nameListKey]
        && RecordedNames(toolkit.registry)
           == RecordedNames(old(toolkit.registry)[nameListKey := BucketNames(nameListKey, concurrency)])
        && outcome == Normal
        && (var names := BucketNames(nameListKey, concurrency);
            var recorded := old(toolkit.registry)[nameListKey := names];
            exists order ::
              (Enumerates(order, DeadKeys(recorded, name, topology))
               && AdoptEach(recorded, old(toolkit.running) + Elems(names), nameListKey, order)
                  == AdoptionStep(toolkit.registry, toolkit.running, Normal)))
    {
      var argError := ArgumentCheck(itemProcessor, concurrency);
      if argError.Some? {
        return Thrown(argError.value);
      }
      var chosen := ChosenPolicy(policy, concurrency);
      if status == Started {
        return Normal;
      }
      if scatterPolicy.Some? {
        return Thrown(IllegalArgument("scatterPolicy should have been null for AsyncCoordinator " + name));
      }
      scatterPolicy := Some(chosen);
      if nameListKey !in toolkit.registry {
        return Thrown(NullPointer);
      }
      var nameList := toolkit.registry[nameListKey];
      if nameList != [] {
        return Thrown(IllegalArgument("nameList already populated for AsyncCoordinator " + name));
      }
      processor := itemProcessor;
      outcome := Launch(concurrency, topology);
    }

    /**
     * The part of start() after its guards: create the buckets, record them,
     * register the listener, start the workers, then adopt dead nodes' buckets.
     */
    method Launch(concurrency: nat, topology: seq<NodeId>) returns (outcome: Outcome)
      requires Valid() && status != Started && scatterPolicy.Some? && concurrency >= 1
      requires nameListKey in toolkit.registry && toolkit.registry[nameListKey] == []
      modifies this`localBuckets, this`listening, this`status, this`scatterPolicy, toolkit
      ensures Valid()
      ensures toolkit.lists == old(toolkit.lists)
      ensures !(Elems(BucketNames(nameListKey, concurrency)) !! old(toolkit.running)) ==>
        && outcome.Thrown? && outcome.error.IllegalState?
        && status == Stopped && localBuckets == [] && scatterPolicy == None && !listening
        && toolkit.registry == old(toolkit.registry)[nameListKey := []]
        && toolkit.running == old(toolkit.running)
      ensures Elems(BucketNames(nameListKey, concurrency)) !! old(toolkit.running) ==>
        && status == Started && listening && scatterPolicy == old(scatterPolicy)
        && localBuckets == FreshBuckets(nameListKey, concurrency, filter)
        && old(toolkit.running) + Elems(BucketNames(nameListKey, concurrency)) <= toolkit.running
        && nameListKey in toolkit.registry
        && BucketNames(nameListKey, concurrency) <= toolkit.registry[nameListKey]
        && RecordedNames(toolkit.registry)
           == RecordedNames(old(toolkit.registry)[nameListKey := BucketNames(nameListKey, concurrency)])
      // the scan for dead nodes: every key no live node owns is adopted in turn, and none throws
      ensures Elems(BucketNames(nameListKey, concurrency)) !! old(toolkit.running) ==>
        var names := BucketNames(nameListKey, concurrency);
        var recorded := old(toolkit.registry)[nameListKey := names];
        && outcome == Normal
        && exists order ::
          (Enumerates(order, DeadKeys(recorded, name, topology))
           && AdoptEach(recorded, old(toolkit.running) + Elems(names), nameListKey, order)
              == AdoptionStep(toolkit.registry, toolkit.running, Normal))
    {
      CreateBuckets(concurrency);
      listening := true;
      status := Started;

      // start every local worker in bootstrap mode
      var k := StartWorkers();
      ghost var names := Names(localBuckets);
      assert names == BucketNames(nameListKey, concurrency);
      if k < |localBuckets| {
        var bucketName := localBuckets[k].name;
        assert bucketName == names[k];
        assert Elems(names[..k]) == set j | 0 <= j < k :: localBuckets[j].name by {
          forall j | 0 <= j < k ensures localBuckets[j].name in Elems(names[..k]) {
            assert names[..k][j] == localBuckets[j].name;
          }
        }
        var _ := Shutdown(k);
        return Thrown(IllegalState(bucketName + " already started for AsyncCoordinator " + name));
      }

      // adopt the buckets of nodes that died before this start
      assert names[..k] == names;
      var dead := DetermineDeadNodes(topology);
      assert Elems(toolkit.registry[nameListKey]) * toolkit.running != {} by {
        assert names[0] in Elems(toolkit.registry[nameListKey]);
        assert names[0] in toolkit.running;
        assert names[0] in Elems(toolkit.registry[nameListKey]) * toolkit.running;
      }
      outcome := AdoptAll(dead);
    }

    /** The loop of start() that creates the buckets and records their names under the node's key. */
    method CreateBuckets(concurrency: nat)
      requires localBuckets == [] && nameListKey in toolkit.registry && toolkit.registry[nameListKey] == []
      modifies this`localBuckets, toolkit`registry
      ensures localBuckets == FreshBuckets(nameListKey, concurrency, filter)
      ensures Distinct(Names(localBuckets))
      ensures toolkit.registry == old(toolkit.registry)[nameListKey := BucketNames(nameListKey, concurrency)]
    {
      var nameList := toolkit.registry[nameListKey];
      var i := 0;
      while i < concurrency
        modifies this`localBuckets
        invariant 0 <= i <= concurrency
        invariant localBuckets == FreshBuckets(nameListKey, i, filter)
        invariant nameList == BucketNames(nameListKey, i)
      {
        var bucketName := nameListKey + DELIMITER + BUCKET + DELIMITER + IntToDecimal(i);
        localBuckets := localBuckets + [Bucket(bucketName, filter)];
        nameList := nameList + [bucketName];
        i := i + 1;
      }
      toolkit.registry := toolkit.registry[nameListKey := nameList];
      BucketNamesDistinct(nameListKey, concurrency);
    }

    /**
     * The loop of start() that starts each local worker in bootstrap mode, up
     * to the first one whose bucket is already running somewhere: returns how
     * many started.
     */
    method StartWorkers() returns (k: nat)
      requires Distinct(Names(localBuckets))
      modifies toolkit`running
      ensures k <= |localBuckets|
      ensures toolkit.running == old(toolkit.running) + Elems(Names(localBuckets)[..k])
      ensures k == |localBuckets| <==> Elems(Names(localBuckets)) !! old(toolkit.running)
      ensures k < |localBuckets| ==> localBuckets[k].name in old(toolkit.running)
      ensures Elems(Names(localBuckets)[..k]) !! old(toolkit.running)
    {
      var names := Names(localBuckets);
      k := 0;
      while k < |localBuckets|
        invariant 0 <= k <= |localBuckets|
        invariant toolkit.running == old(toolkit.running) + Elems(names[..k])
        invariant Elems(names[..k]) !! old(toolkit.running)
      {
        var bucketName := localBuckets[k].name;
        assert bucketName == names[k];
        if bucketName in toolkit.running {
          forall j | 0 <= j < k ensures names[j] != bucketName { }
          assert bucketName in old(toolkit.running);
          assert bucketName in Elems(names);
          return;
        }
        toolkit.running := toolkit.running + {bucketName};
        assert names[..k + 1] == names[..k] + [bucketName];
        k := k + 1;
      }
      assert names[..k] == names;
    }

    /**
     * The body of stop() for a STARTED coordinator whose first `started`
     * workers are running: stop those workers, forget the local buckets and the
     * policy, unregister the listener, and empty the node's registry entry.
     * A missing entry is the null list the source dereferences.
     */
    method Shutdown(started: nat) returns (outcome: Outcome)
      requires started <= |localBuckets|
      modifies this`localBuckets, this`scatterPolicy, this`listening, this`status, toolkit
      ensures toolkit.running == old(toolkit.running) - set j | 0 <= j < started :: old(localBuckets)[j].name
      ensures localBuckets == [] && scatterPolicy == None && !listening
      ensures filter == old(filter) && processor == old(processor) && toolkit.lists == old(toolkit.lists)
      ensures nameListKey in old(toolkit.registry) ==>
        && outcome == Normal && status == Stopped
        && toolkit.registry == old(toolkit.registry)[nameListKey := []]
      ensures nameListKey !in old(toolkit.registry) ==>
        && outcome == Thrown(NullPointer) && status == old(status)
        && toolkit.registry == old(toolkit.registry)
    {
      var j := 0;
      while j < started
        modifies toolkit`running
        invariant 0 <= j <= started
        invariant localBuckets == old(localBuckets)
        invariant toolkit.running == old(toolkit.running) - set i | 0 <= i < j :: localBuckets[i].name
        invariant toolkit.registry == old(toolkit.registry) && toolkit.lists == old(toolkit.lists)
      {
        toolkit.running := toolkit.running - {localBuckets[j].name};
        j := j + 1;
      }
      localBuckets := [];
      scatterPolicy := None;
      listening := false;
      if nameListKey !in toolkit.registry {
        return Thrown(NullPointer);
      }
      toolkit.registry := toolkit.registry[nameListKey := []];
      status := Stopped;
      outcome := Normal;
    }

    /** stop(): a no-op unless STARTED. */
    method Stop() returns (outcome: Outcome)
      requires Valid()
      modifies this, toolkit
      ensures Valid()
      ensures old(status) != Started ==> outcome == Normal && unchanged(this, toolkit)
      ensures old(status) == Started ==>
        && toolkit.running == old(toolkit.running) - Elems(Names(old(localBuckets)))
        && localBuckets == [] && scatterPolicy == None && !listening
        && filter == old(filter) && processor == old(processor) && toolkit.lists == old(toolkit.lists)
        && (nameListKey in old(toolkit.registry) ==>
              outcome == Normal && status == Stopped && toolkit.registry == old(toolkit.registry)[nameListKey := []])
        && (nameListKey !in old(toolkit.registry) ==>
              outcome == Thrown(NullPointer) && status == Started && toolkit.registry == old(toolkit.registry))
    {
      if status != Started {
        return Normal;
      }
      ghost var bs := localBuckets;
      outcome := Shutdown(|localBuckets|);
      assert (set j | 0 <= j < |bs| :: bs[j].name) == Elems(Names(bs)) by {
        forall x | x in Elems(Names(bs)) ensures x in set j | 0 <= j < |bs| :: bs[j].name {
          var j :| 0 <= j < |bs| && Names(bs)[j] == x;
        }
        forall j | 0 <= j < |bs| ensures bs[j].name in Elems(Names(bs)) {
          assert Names(bs)[j] == bs[j].name;
        }
      }
    }

    /**
     * add(item): a null item is ignored; otherwise the coordinator must be
     * STARTED and the item is appended to the bucket the policy selects.
     */
    method Add(item: Option<E>) returns (outcome: Outcome)
      requires Valid()
      modifies toolkit`lists
      ensures item.None? ==> outcome == Normal && toolkit.lists == old(toolkit.lists)
      ensures item.Some? && status != Started ==>
        outcome == Thrown(CheckRunning(status).value) && toolkit.lists == old(toolkit.lists)
      ensures item.Some? && status == Started && scatterPolicy.None? ==>
        outcome == Thrown(NullPointer) && toolkit.lists == old(toolkit.lists)
      ensures item.Some? && status == Started && scatterPolicy.Some? ==>
        var index := SelectBucket(scatterPolicy.value, |localBuckets|, item.value, hashCode);
        && (!(0 <= index < |localBuckets|) ==>
              outcome == Thrown(IndexOutOfBounds(index)) && toolkit.lists == old(toolkit.lists))
        && (0 <= index < |localBuckets| ==>
              && outcome == Normal
              && Pending(toolkit.lists, localBuckets[index].name)
                 == Pending(old(toolkit.lists), localBuckets[index].name) + [item.value]
              && (forall b :: b != localBuckets[index].name ==> Pending(toolkit.lists, b) == Pending(old(toolkit.lists), b))
              && Waiting(localBuckets, toolkit.lists) == Waiting(localBuckets, old(toolkit.lists)) + 1)
    {
      if item.None? {
        return Normal;
      }
      var notRunning := CheckRunning(status);
      if notRunning.Some? {
        return Thrown(notRunning.value);
      }
      if scatterPolicy.None? {
        return Thrown(NullPointer);
      }
      var index := SelectBucket(scatterPolicy.value, |localBuckets|, item.value, hashCode);
      if !(0 <= index < |localBuckets|) {
        return Thrown(IndexOutOfBounds(index));
      }
      var bucketName := localBuckets[index].name;
      assert Names(localBuckets)[index] == bucketName;
      WaitingAfterAppend(localBuckets, toolkit.lists, bucketName, item.value);
      toolkit.lists := toolkit.lists[bucketName := Pending(toolkit.lists, bucketName) + [item.value]];
      outcome := Normal;
    }

    /** setOperationsFilter(filter): install the filter on the coordinator and every local bucket. */
    method SetOperationsFilter(f: Option<FilterRef>)
      requires Valid()
      modifies this`filter, this`localBuckets
      ensures Valid()
      ensures filter == f
      ensures Names(localBuckets) == Names(old(localBuckets))
      ensures forall i :: 0 <= i < |localBuckets| ==> localBuckets[i].filter == f
    {
      filter := f;
      var i := 0;
      while i < |localBuckets|
        modifies this`localBuckets
        invariant 0 <= i <= |localBuckets|
        invariant Names(localBuckets) == Names(old(localBuckets))
        invariant forall j :: 0 <= j < i ==> localBuckets[j].filter == f
      {
        localBuckets := localBuckets[i := localBuckets[i].(filter := f)];
        i := i + 1;
      }
    }

    /** getQueueSize(): the number of items waiting in the local buckets. */
    method GetQueueSize() returns (r: Result<int>)
      ensures status == Uninitialized ==> r == Err(NullPointer)
      ensures status == Stopped ==> r == Err(IllegalState("AsyncCoordinator is stopped!"))
      ensures status == Started ==> r == Ok(Waiting(localBuckets, toolkit.lists))
    {
      if status == Uninitialized {
        return Err(NullPointer);
      }
      var notRunning := CheckRunning(status);
      if notRunning.Some? {
        assert "AsyncCoordinator is " + "stopped" + "!" == "AsyncCoordinator is stopped!";
        return Err(notRunning.value);
      }
      var size := 0;
      var i := 0;
      while i < |localBuckets|
        invariant 0 <= i <= |localBuckets|
        invariant size == Waiting(localBuckets[..i], toolkit.lists)
      {
        assert localBuckets[..i + 1][..i] == localBuckets[..i];
        size := size + |Pending(toolkit.lists, localBuckets[i].name)|;
        i := i + 1;
      }
      assert localBuckets[..i] == localBuckets;
      r := Ok(size);
    }

    /** processOtherNode(otherKey): adopt the buckets recorded under a departed node's key. */
    method ProcessOtherNode(otherKey: string) returns (outcome: Outcome)
      requires Valid()
      modifies toolkit`registry, toolkit`running
      ensures old(status) != Started ==>
        outcome == Normal && toolkit.registry == old(toolkit.registry) && toolkit.running == old(toolkit.running)
      ensures old(status) == Started ==>
        var step := Adopt(old(toolkit.registry), old(toolkit.running), nameListKey, otherKey);
        toolkit.registry == step.registry && toolkit.running == step.running && outcome == step.outcome
    {
      if status != Started {
        return Normal;
      }
      if otherKey !in toolkit.registry {
        return Normal;
      }
      var nameList := toolkit.registry[otherKey];
      var ownPresent := nameListKey in toolkit.registry;
      var newOwner := if ownPresent then toolkit.registry[nameListKey] else [];
      ghost var running0 := toolkit.running;
      var i := 0;
      while i < |nameList|
        invariant 0 <= i <= |nameList|
        invariant toolkit.running == running0 + Elems(nameList[..i])
        invariant StartedPrefix(nameList, running0) == i + StartedPrefix(nameList[i..], toolkit.running)
        invariant ownPresent ==> newOwner == old(toolkit.registry)[nameListKey] + nameList[..i]
        invariant !ownPresent ==> i == 0
        invariant toolkit.registry == old(toolkit.registry)
      {
        var bucketName := nameList[i];
        if bucketName in toolkit.running {
          // ExistingRunningThreadException: logged, and the remaining buckets are abandoned
          return Normal;
        }
        assert nameList[i..][1..] == nameList[i + 1..];
        assert nameList[..i + 1] == nameList[..i] + [bucketName];
        toolkit.running := toolkit.running + {bucketName};
        if !ownPresent {
          return Thrown(NullPointer);
        }
        newOwner := newOwner + [bucketName];
        i := i + 1;
      }
      assert nameList[..i] == nameList;
      toolkit.registry := toolkit.registry - {otherKey};
      if ownPresent {
        toolkit.registry := toolkit.registry[nameListKey := newOwner];
      }
      outcome := Normal;
    }

    /** determineDeadNodes(topology): the registry keys that no live node of this name owns. */
    method DetermineDeadNodes(topology: seq<NodeId>) returns (dead: set<string>)
      ensures dead == DeadKeys(toolkit.registry, name, topology)
      ensures forall node ::
        (NameListKey(name, node) in dead <==> NameListKey(name, node) in toolkit.registry && node !in topology)
    {
      dead := toolkit.registry.Keys;
      var i := 0;
      while i < |topology|
        invariant 0 <= i <= |topology|
        invariant dead == toolkit.registry.Keys - LiveKeys(name, topology[..i])
      {
        assert LiveKeys(name, topology[..i + 1]) == LiveKeys(name, topology[..i]) + {NameListKey(name, topology[i])} by {
          assert topology[..i + 1] == topology[..i] + [topology[i]];
        }
        dead := dead - {NameListKey(name, topology[i])};
        i := i + 1;
      }
      assert topology[..i] == topology;
      forall node
        ensures NameListKey(name, node) in dead <==> NameListKey(name, node) in toolkit.registry && node !in topology
      {
        DeadKeysOfNode(toolkit.registry, name, topology, node);
      }
    }

    /**
     * The loop at the end of start(): adopt each dead key in turn (in the
     * set's iteration order); an exception from one adoption ends the scan.
     */
    method AdoptAll(dead: set<string>) returns (outcome: Outcome)
      requires Valid() && status == Started
      requires nameListKey in toolkit.registry && Elems(toolkit.registry[nameListKey]) * toolkit.running != {}
      modifies toolkit`registry, toolkit`running
      ensures outcome == Normal
      ensures exists order ::
        (Enumerates(order, dead)
         && AdoptEach(old(toolkit.registry), old(toolkit.running), nameListKey, order)
            == AdoptionStep(toolkit.registry, toolkit.running, outcome))
      ensures old(toolkit.running) <= toolkit.running
      ensures nameListKey in toolkit.registry && old(toolkit.registry)[nameListKey] <= toolkit.registry[nameListKey]
      ensures toolkit.registry.Keys <= old(toolkit.registry).Keys
      ensures old(toolkit.registry).Keys - toolkit.registry.Keys <= dead
      ensures RecordedNames(toolkit.registry) == RecordedNames(old(toolkit.registry))
    {
      var remaining := dead;
      ghost var order: seq<string> := [];
      outcome := Normal;
      while remaining != {} && outcome.Normal?
        invariant remaining <= dead
        invariant forall i, j :: 0 <= i < j < |order| ==> order[i] != order[j]
        invariant forall k :: k in dead - remaining <==> k in order
        invariant AdoptEach(old(toolkit.registry), old(toolkit.running), nameListKey, order)
                  == AdoptionStep(toolkit.registry, toolkit.running, outcome)
        invariant outcome == Normal
        decreases remaining
      {
        var otherKey :| otherKey in remaining;
        outcome := ProcessOtherNode(otherKey);
        assert otherKey !in order;
        assert (order + [otherKey])[..|order|] == order;
        order := order + [otherKey];
        AdoptEachKeepsOwnEntry(old(toolkit.registry), old(toolkit.running), nameListKey, order);
        remaining := remaining - {otherKey};
      }
      assert Enumerates(order, dead);
      AdoptEachKeepsOwnEntry(old(toolkit.registry), old(toolkit.running), nameListKey, order);
      AdoptEachKeepsRecordedNames(old(toolkit.registry), old(toolkit.running), nameListKey, order);
    }

    /** The cluster listener: only a NODE_LEFT event triggers adoption of that node's buckets. */
    method OnClusterEvent(event: ClusterEvent) returns (outcome: Outcome)
      requires Valid()
      modifies toolkit`registry, toolkit`running
      ensures event.eventType != NodeLeft ==>
        outcome == Normal && toolkit.registry == old(toolkit.registry) && toolkit.running == old(toolkit.running)
      ensures event.eventType == NodeLeft && old(status) != Started ==>
        outcome == Normal && toolkit.registry == old(toolkit.registry) && toolkit.running == old(toolkit.running)
      ensures event.eventType == NodeLeft && old(status) == Started ==>
        var step := Adopt(old(toolkit.registry), old(toolkit.running), nameListKey, NameListKey(name, event.node));
        toolkit.registry == step.registry && toolkit.running == step.running && outcome == step.outcome
    {
      var otherKey := NameListKey(name, event.node);
      if event.eventType == NodeLeft {
        outcome := ProcessOtherNode(otherKey);
      } else {
        outcome := Normal;
      }
    }
  }

  /** Adoption only removes keys, only adds running markers, and removes no key but the dead one. */
  lemma AdoptStepBounds(registry: map<string, seq<string>>, running: set<string>, own: string, other: string)
    ensures var step := Adopt(registry, running, own, other);
      && running <= step.running
      && step.registry.Keys <= registry.Keys
      && registry.Keys - step.registry.Keys <= {other}
  {
  }
}
