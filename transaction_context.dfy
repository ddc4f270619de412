/**
 * The per-transaction bookkeeping of the local (non-XA) transaction manager
 * (TransactionContext): for each cache taking part, the soft locks the
 * transaction holds, in registration order, and the store that must commit or
 * roll them back. Calls into stores and transaction listeners are foreign code;
 * the model records them, in order, as a call trace.
 */
module LocalTransaction {
  import opened Java

  type Key = string
  type Element = string

  /** The identity of an AbstractNonXaTransactionalStore object. */
  type StoreRef = nat

  /** The identity of a TransactionListener object. */
  type ListenerRef = nat

  /** The identity of a SoftLock object; soft locks are equal only to themselves. */
  type LockRef = nat

  /**
   * A soft lock as the context last received it: the object's identity, the
   * key it guards, the element the transaction wrote (None for a removal) and
   * the element it replaced (None when the key was absent).
   */
  datatype SoftLock = SoftLock(ref: LockRef, key: Key, newElement: Option<Element>, oldElement: Option<Element>)

  /** How a soft lock changes its key. */
  datatype Change = Added | Updated | Removed

  function Classify(lock: SoftLock): Change
  {
    if lock.newElement.None? then Removed
    else if lock.oldElement.None? then Added
    else Updated
  }

  /** The keys of the locks of one kind, in lock order. */
  function KeysOf(locks: seq<SoftLock>, change: Change): seq<Key>
  {
    if locks == [] then []
    else
      var last := locks[|locks| - 1];
      KeysOf(locks[..|locks| - 1], change) + (if Classify(last) == change then [last.key] else [])
  }

  /** Every soft lock is exactly one of new, updated or removed. */
  lemma {:induction false} ClassificationPartitions(locks: seq<SoftLock>)
    ensures |KeysOf(locks, Added)| + |KeysOf(locks, Updated)| + |KeysOf(locks, Removed)| == |locks|
  {
    if locks != [] {
      ClassificationPartitions(locks[..|locks| - 1]);
    }
  }

  /** A key is reported under a kind iff some lock of that kind guards it. */
  lemma {:induction false} KeysOfMembership(locks: seq<SoftLock>, change: Change, k: Key)
    ensures k in KeysOf(locks, change) <==> exists i :: 0 <= i < |locks| && locks[i].key == k && Classify(locks[i]) == change
  {
    if locks != [] {
      var init := locks[..|locks| - 1];
      KeysOfMembership(init, change, k);
      if exists i :: 0 <= i < |init| && init[i].key == k && Classify(init[i]) == change {
        var i :| 0 <= i < |init| && init[i].key == k && Classify(init[i]) == change;
        assert locks[i] == init[i];
      }
      if exists i :: 0 <= i < |locks| && locks[i].key == k && Classify(locks[i]) == change {
        var i :| 0 <= i < |locks| && locks[i].key == k && Classify(locks[i]) == change;
        if i < |init| {
          assert init[i] == locks[i];
        }
      }
    }
  }

  /** The index of the first lock in s that is the object x, or |s| when there is none. */
  function IndexOf(s: seq<SoftLock>, x: SoftLock): (i: nat)
    ensures i <= |s|
    ensures i < |s| ==> s[i].ref == x.ref
    ensures forall j :: 0 <= j < i ==> s[j].ref != x.ref
  {
    if s == [] then 0
    else if s[0].ref == x.ref then 0
    else 1 + IndexOf(s[1..], x)
  }

  /** List.remove(Object): drop the first occurrence of the object x, if any. */
  function RemoveFirst(s: seq<SoftLock>, x: SoftLock): seq<SoftLock>
  {
    var i := IndexOf(s, x);
    if i < |s| then s[..i] + s[i + 1..] else s
  }

  /**
   * Moving a lock to the end replaces its first entry by its current state:
   * when the object is in the list, the list keeps its length and only that
   * entry changes; when it is not, the lock is added once.
   */
  lemma MoveToEndReplaces(s: seq<SoftLock>, x: SoftLock)
    ensures IndexOf(s, x) < |s| ==>
      multiset(RemoveFirst(s, x) + [x]) == multiset(s) - multiset{s[IndexOf(s, x)]} + multiset{x}
    ensures IndexOf(s, x) < |s| ==> |RemoveFirst(s, x) + [x]| == |s|
    ensures IndexOf(s, x) == |s| ==> RemoveFirst(s, x) + [x] == s + [x]
  {
    var i := IndexOf(s, x);
    if i < |s| {
      assert s == s[..i] + [s[i]] + s[i + 1..];
      assert multiset(s) == multiset(s[..i]) + multiset{s[i]} + multiset(s[i + 1..]);
    }
  }

  /** No lock object appears twice in the list. */
  predicate DistinctLocks(s: seq<SoftLock>)
  {
    forall j, k :: 0 <= j < k < |s| ==> s[j].ref != s[k].ref
  }

  /** Moving a lock to the end never lists one lock object twice. */
  lemma MoveToEndKeepsLocksDistinct(s: seq<SoftLock>, x: SoftLock)
    requires DistinctLocks(s)
    ensures DistinctLocks(RemoveFirst(s, x) + [x])
  {
    var i := IndexOf(s, x);
    var rest := RemoveFirst(s, x);
    if i < |s| {
      forall j | 0 <= j < |rest| ensures rest[j].ref != x.ref {
        if j < i {
          assert rest[j] == s[j];
        } else {
          assert rest[j] == s[j + 1];
        }
      }
    }
  }

  /** An event a TransactionListener is told about. */
  datatype TransactionEvent = BeforeCommit | AfterCommit | AfterRollback

  /** What a store is asked to do with a cache's soft locks. */
  datatype StoreAction = CommitLocks | RollbackLocks

  /** A call the context makes into foreign code. */
  datatype Call =
    | Notify(listener: ListenerRef, event: TransactionEvent)
    | StoreCall(store: StoreRef, action: StoreAction, locks: seq<SoftLock>)

  /** The calls firing one event on every listener, in registration order. */
  function Fire(listeners: seq<ListenerRef>, event: TransactionEvent): (calls: seq<Call>)
    ensures |calls| == |listeners|
  {
    seq(|listeners|, i requires 0 <= i < |listeners| => Notify(listeners[i], event))
  }

  /** The store calls for the caches in `order`, each with that cache's locks. */
  function StoreCalls(order: seq<string>, locks: map<string, seq<SoftLock>>, stores: map<string, StoreRef>,
                      action: StoreAction): (calls: seq<Call>)
    requires forall k :: k in order ==> k in locks && k in stores
    ensures |calls| == |order|
  {
    seq(|order|, i requires 0 <= i < |order| => StoreCall(stores[order[i]], action, locks[order[i]]))
  }

  /** A transaction id object; contexts compare their ids by reference. */
  class TransactionId {
    const hash: int

    constructor (hash: int)
      ensures this.hash == hash
    {
      this.hash := hash;
    }
  }

  /**
   * The expiration timestamp as the constructor writes it: the timeout in
   * seconds is multiplied by 1000 in 32-bit `int` arithmetic before it is
   * widened and added to the clock.
   */
  function ExpirationAsWritten(now: Int64, transactionTimeout: Int32): Int64
  {
    WrapInt64(now + WrapInt32(transactionTimeout * 1000))
  }

  /** A timeout of 2147484 seconds (under 25 days) overflows and lands in the past. */
  lemma ExpirationOverflowsAsWritten()
    ensures ExpirationAsWritten(0, 2147484) == -2147483296
    ensures Expiration(0, 2147484) == 2147484000
  {
  }

  /** The expiration timestamp with the product computed in `long`, as evidently intended. */
  function Expiration(now: Int64, transactionTimeout: Int32): (r: Int64)
    ensures InInt64(now + transactionTimeout * 1000) ==> r == now + transactionTimeout * 1000
    ensures InInt64(now + transactionTimeout * 1000) && transactionTimeout >= 0 ==> r >= now
  {
    WrapInt64(now + transactionTimeout * 1000)
  }

  class TransactionContext {
    var rollbackOnly: bool
    const expirationTimestamp: Int64
    const transactionId: TransactionId
    var softLockMap: map<string, seq<SoftLock>>
    var storeMap: map<string, StoreRef>
    var listeners: seq<ListenerRef>
    /** The calls made so far on stores and listeners. */
    var calls: seq<Call>

    ghost predicate Valid()
      reads this
    {
      softLockMap.Keys == storeMap.Keys
    }

    /** `now` is the clock reading System.currentTimeMillis() gives. */
    constructor (transactionTimeout: Int32, transactionId: TransactionId, now: Int64)
      ensures Valid()
      ensures expirationTimestamp == Expiration(now, transactionTimeout)
      ensures this.transactionId == transactionId && !rollbackOnly
      ensures softLockMap == map[] && storeMap == map[] && listeners == [] && calls == []
    {
      expirationTimestamp := Expiration(now, transactionTimeout);
      this.transactionId := transactionId;
      rollbackOnly := false;
      softLockMap := map[];
      storeMap := map[];
      listeners := [];
      calls := [];
    }

    /** The soft locks registered for a cache (none for a cache that has not taken part). */
    function LocksOf(cacheName: string): seq<SoftLock>
      reads this
    {
      if cacheName in softLockMap then softLockMap[cacheName] else []
    }

    method SetRollbackOnly(rollbackOnly: bool)
      modifies this`rollbackOnly
      ensures this.rollbackOnly == rollbackOnly
    {
      this.rollbackOnly := rollbackOnly;
    }

    method AddListener(listener: ListenerRef)
      modifies this`listeners
      ensures listeners == old(listeners) + [listener]
    {
      listeners := listeners + [listener];
    }

    /**
     * registerSoftLock: append the lock to the cache's list; the first
     * registration for a cache also records its store, later ones keep it.
     */
    method RegisterSoftLock(cacheName: string, store: StoreRef, softLock: SoftLock)
      requires Valid()
      modifies this`softLockMap, this`storeMap
      ensures Valid()
      ensures softLockMap == old(softLockMap)[cacheName := old(LocksOf(cacheName)) + [softLock]]
      ensures cacheName in old(softLockMap) ==> storeMap == old(storeMap)
      ensures cacheName !in old(softLockMap) ==> storeMap == old(storeMap)[cacheName := store]
    {
      var softLocks: seq<SoftLock>;
      if cacheName !in softLockMap {
        softLocks := [];
        softLockMap := softLockMap[cacheName := softLocks];
        storeMap := storeMap[cacheName := store];
      } else {
        softLocks := softLockMap[cacheName];
      }
      softLockMap := softLockMap[cacheName := softLocks + [softLock]];
    }

    /** updateSoftLock: move the lock to the end of a known cache's list. */
    method UpdateSoftLock(cacheName: string, softLock: SoftLock)
      requires Valid()
      modifies this`softLockMap
      ensures Valid()
      ensures cacheName in old(softLockMap) ==>
        softLockMap == old(softLockMap)[cacheName := RemoveFirst(old(softLockMap)[cacheName], softLock) + [softLock]]
      ensures cacheName !in old(softLockMap) ==> softLockMap == old(softLockMap)
    {
      if cacheName in softLockMap {
        var softLocks := softLockMap[cacheName];
        softLocks := RemoveFirst(softLocks, softLock);
        softLocks := softLocks + [softLock];
        softLockMap := softLockMap[cacheName := softLocks];
      }
    }

    /** getNewKeys: keys written by the transaction that had no previous element. */
    method GetNewKeys(cacheName: string) returns (result: seq<Key>)
      ensures result == KeysOf(LocksOf(cacheName), Added)
    {
      result := [];
      if cacheName !in softLockMap {
        return;
      }
      var softLocks := softLockMap[cacheName];
      for i := 0 to |softLocks|
        invariant result == KeysOf(softLocks[..i], Added)
      {
        assert softLocks[..i + 1][..i] == softLocks[..i];
        if softLocks[i].newElement.Some? && softLocks[i].oldElement.None? {
          result := result + [softLocks[i].key];
        }
      }
      assert softLocks[..|softLocks|] == softLocks;
    }

    /** getUpdatedKeys: keys written by the transaction that replaced an element. */
    method GetUpdatedKeys(cacheName: string) returns (result: seq<Key>)
      ensures result == KeysOf(LocksOf(cacheName), Updated)
    {
      result := [];
      if cacheName !in softLockMap {
        return;
      }
      var softLocks := softLockMap[cacheName];
      for i := 0 to |softLocks|
        invariant result == KeysOf(softLocks[..i], Updated)
      {
        assert softLocks[..i + 1][..i] == softLocks[..i];
        if softLocks[i].newElement.Some? && softLocks[i].oldElement.Some? {
          result := result + [softLocks[i].key];
        }
      }
      assert softLocks[..|softLocks|] == softLocks;
    }

    /** getRemovedKeys: keys the transaction removed. */
    method GetRemovedKeys(cacheName: string) returns (result: seq<Key>)
      ensures result == KeysOf(LocksOf(cacheName), Removed)
    {
      result := [];
      if cacheName !in softLockMap {
        return;
      }
      var softLocks := softLockMap[cacheName];
      for i := 0 to |softLocks|
        invariant result == KeysOf(softLocks[..i], Removed)
      {
        assert softLocks[..i + 1][..i] == softLocks[..i];
        if softLocks[i].newElement.None? {
          result := result + [softLocks[i].key];
        }
      }
      assert softLocks[..|softLocks|] == softLocks;
    }

    /** Tell every listener, in registration order, about one event. */
    method FireEvent(event: TransactionEvent)
      modifies this`calls
      ensures calls == old(calls) + Fire(listeners, event)
    {
      for i := 0 to |listeners|
        invariant calls == old(calls) + Fire(listeners[..i], event)
      {
        assert Fire(listeners[..i + 1], event) == Fire(listeners[..i], event) + [Notify(listeners[i], event)];
        calls := calls + [Notify(listeners[i], event)];
      }
      assert listeners[..|listeners|] == listeners;
    }

    /**
     * The loop over softLockMap's entries shared by commit and rollback: each
     * participating cache's store is called once with that cache's locks, in
     * the map's iteration order.
     */
    method CallStores(action: StoreAction)
      requires Valid()
      modifies this`calls
      ensures exists order ::
        (Enumerates(order, softLockMap.Keys)
         && calls == old(calls) + StoreCalls(order, softLockMap, storeMap, action))
    {
      var remaining := softLockMap.Keys;
      ghost var order: seq<string> := [];
      while remaining != {}
        invariant remaining <= softLockMap.Keys
        invariant forall k :: k in order ==> k in softLockMap && k !in remaining
        invariant forall k :: k in softLockMap.Keys ==> k in remaining || k in order
        invariant forall i, j :: 0 <= i < j < |order| ==> order[i] != order[j]
        invariant calls == old(calls) + StoreCalls(order, softLockMap, storeMap, action)
        decreases remaining
      {
        var cacheName :| cacheName in remaining;
        calls := calls + [StoreCall(storeMap[cacheName], action, softLockMap[cacheName])];
        order := order + [cacheName];
        remaining := remaining - {cacheName};
      }
      assert Enumerates(order, softLockMap.Keys);
    }

    /**
     * commit: a rollback-only transaction is rolled back and the call throws;
     * otherwise listeners hear beforeCommit, every store commits its locks,
     * both tables are cleared and listeners hear afterCommit.
     */
    method Commit() returns (outcome: Outcome)
      requires Valid()
      modifies this`softLockMap, this`storeMap, this`calls
      ensures Valid() && softLockMap == map[] && storeMap == map[]
      ensures old(rollbackOnly) ==>
        && outcome == Thrown(TransactionFailure("transaction was marked as rollback only, rolled back on commit"))
        && exists order :: Enumerates(order, old(softLockMap).Keys)
             && calls == old(calls) + StoreCalls(order, old(softLockMap), old(storeMap), RollbackLocks)
                         + Fire(listeners, AfterRollback)
      ensures !old(rollbackOnly) ==>
        && outcome == Normal
        && exists order :: Enumerates(order, old(softLockMap).Keys)
             && calls == old(calls) + Fire(listeners, BeforeCommit)
                         + StoreCalls(order, old(softLockMap), old(storeMap), CommitLocks)
                         + Fire(listeners, AfterCommit)
    {
      if rollbackOnly {
        Rollback();
        return Thrown(TransactionFailure("transaction was marked as rollback only, rolled back on commit"));
      }
      FireEvent(BeforeCommit);
      ghost var afterBefore := calls;
      CallStores(CommitLocks);
      ghost var order :| Enumerates(order, softLockMap.Keys)
        && calls == afterBefore + StoreCalls(order, softLockMap, storeMap, CommitLocks);
      softLockMap := map[];
      storeMap := map[];
      FireEvent(AfterCommit);
      assert Enumerates(order, old(softLockMap).Keys);
      outcome := Normal;
    }

    /** rollback: every store rolls back its locks, both tables are cleared, listeners hear afterRollback. */
    method Rollback()
      requires Valid()
      modifies this`softLockMap, this`storeMap, this`calls
      ensures Valid() && softLockMap == map[] && storeMap == map[]
      ensures exists order ::
        (Enumerates(order, old(softLockMap).Keys)
         && calls == old(calls) + StoreCalls(order, old(softLockMap), old(storeMap), RollbackLocks)
                     + Fire(listeners, AfterRollback))
    {
      CallStores(RollbackLocks);
      ghost var order :| Enumerates(order, softLockMap.Keys)
        && calls == old(calls) + StoreCalls(order, softLockMap, storeMap, RollbackLocks);
      softLockMap := map[];
      storeMap := map[];
      FireEvent(AfterRollback);
      assert Enumerates(order, old(softLockMap).Keys);
    }

    /** equals: another context is equal iff it holds the very same transaction id object. */
    predicate Equals(other: TransactionContext?)
    {
      other != null && other.transactionId == transactionId
    }

    /** hashCode: the transaction id's hash. */
    function HashCode(): int
    {
      transactionId.hash
    }
  }

  /** equals is an equivalence on contexts, and equal contexts have equal hash codes. */
  lemma EqualsIsConsistent(a: TransactionContext, b: TransactionContext, c: TransactionContext)
    ensures a.Equals(a)
    ensures a.Equals(b) <==> b.Equals(a)
    ensures a.Equals(b) && b.Equals(c) ==> a.Equals(c)
    ensures a.Equals(b) ==> a.HashCode() == b.HashCode()
    ensures !a.Equals(null)
  {
  }
}
