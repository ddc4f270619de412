/**
 * The bridge that keeps a clustered cache's dynamic configuration in step
 * across nodes (CacheConfigChangeBridge). A local configuration change writes
 * the toolkit config field and broadcasts a change message; a message from a
 * peer for the same cache is applied through the configuration's internal
 * setters, which do not broadcast again.
 */
module ConfigBridge {
  import opened Java

  // The toolkit's config field names. Their values belong to the toolkit's
  // ToolkitCacheConfigFields and ToolkitMapConfigFields, which are not part of
  // this model; the proofs rely only on the five being distinct.
  const MAX_TOTAL_COUNT_FIELD_NAME: string := "maxTotalCount"
  const MAX_COUNT_LOCAL_HEAP_FIELD_NAME: string := "maxCountLocalHeap"
  const MAX_BYTES_LOCAL_HEAP_FIELD_NAME: string := "maxBytesLocalHeap"
  const MAX_TTI_SECONDS_FIELD_NAME: string := "maxTTISeconds"
  const MAX_TTL_SECONDS_FIELD_NAME: string := "maxTTLSeconds"

  /** The configuration settings that may change while the cache runs. */
  datatype DynamicConfigType = MaxTotalCount | MaxCountLocalHeap | MaxBytesLocalHeap | MaxTtiSeconds | MaxTtlSeconds
  {
    function ToolkitConfigName(): string
    {
      match this
      case MaxTotalCount => MAX_TOTAL_COUNT_FIELD_NAME
      case MaxCountLocalHeap => MAX_COUNT_LOCAL_HEAP_FIELD_NAME
      case MaxBytesLocalHeap => MAX_BYTES_LOCAL_HEAP_FIELD_NAME
      case MaxTtiSeconds => MAX_TTI_SECONDS_FIELD_NAME
      case MaxTtlSeconds => MAX_TTL_SECONDS_FIELD_NAME
    }
  }

  /** DynamicConfigType.values(): every constant, in declaration order. */
  const VALUES: seq<DynamicConfigType> := [MaxTotalCount, MaxCountLocalHeap, MaxBytesLocalHeap, MaxTtiSeconds, MaxTtlSeconds]

  /** Each type has its own toolkit field name. */
  lemma ToolkitConfigNameInjective(a: DynamicConfigType, b: DynamicConfigType)
    ensures a.ToolkitConfigName() == b.ToolkitConfigName() <==> a == b
  {
  }

  /** The first of `types` whose toolkit name is `toolkitName`. */
  function FirstNamed(types: seq<DynamicConfigType>, toolkitName: string): (r: Option<DynamicConfigType>)
    ensures r.Some? ==> r.value in types && r.value.ToolkitConfigName() == toolkitName
    ensures r.None? ==> forall t :: t in types ==> t.ToolkitConfigName() != toolkitName
  {
    if types == [] then None
    else if types[0].ToolkitConfigName() == toolkitName then Some(types[0])
    else FirstNamed(types[1..], toolkitName)
  }

  /** The type a toolkit config name stands for, if any. */
  function TypeNamed(toolkitName: string): Option<DynamicConfigType>
  {
    FirstNamed(VALUES, toolkitName)
  }

  /** A name is recognised iff it is some type's toolkit name, and then it gives that very type back. */
  lemma TypeNamedSpec(toolkitName: string, t: DynamicConfigType)
    ensures TypeNamed(toolkitName) == Some(t) <==> t.ToolkitConfigName() == toolkitName
    ensures TypeNamed(t.ToolkitConfigName()) == Some(t)
  {
    assert t in VALUES;
    var r := TypeNamed(t.ToolkitConfigName());
    ToolkitConfigNameInjective(r.value, t);
  }

  /**
   * getTypeFromToolkitConfigName: search the constants in declaration order;
   * an unknown name throws IllegalArgumentException.
   */
  method TypeFromToolkitConfigName(toolkitName: string) returns (r: Result<DynamicConfigType>)
    ensures r.Ok? <==> TypeNamed(toolkitName).Some?
    ensures r.Ok? ==> r.value.ToolkitConfigName() == toolkitName
    ensures r.Err? ==> r.error == IllegalArgument("Unknown toolkit config name - " + toolkitName)
  {
    for i := 0 to |VALUES|
      invariant forall j :: 0 <= j < i ==> VALUES[j].ToolkitConfigName() != toolkitName
    {
      if VALUES[i].ToolkitConfigName() == toolkitName {
        return Ok(VALUES[i]);
      }
    }
    r := Err(IllegalArgument("Unknown toolkit config name - " + toolkitName));
  }

  /** A serializable value carried by a change message. */
  datatype Value = IntegerValue(intValue: Int32) | LongValue(longValue: Int64) | NullValue | OtherValue(text: string)

  /** String concatenation of a value: its toString, or "null". */
  function Show(v: Value): string
  {
    match v
    case IntegerValue(i) => IntToDecimal(i)
    case LongValue(l) => IntToDecimal(l)
    case NullValue => "null"
    case OtherValue(text) => text
  }

  /** getLong: an Integer is widened, a Long kept, anything else rejected. */
  function GetLong(v: Value): (r: Result<Int64>)
    ensures r.Ok? <==> v.IntegerValue? || v.LongValue?
    ensures v.IntegerValue? ==> r == Ok(v.intValue as Int64)
    ensures v.LongValue? ==> r == Ok(v.longValue)
    ensures r.Err? ==> r.error == IllegalArgument("Expected long value but got: " + Show(v))
  {
    match v
    case IntegerValue(i) => Ok(i as Int64)
    case LongValue(l) => Ok(l)
    case _ => Err(IllegalArgument("Expected long value but got: " + Show(v)))
  }

  /** getInt: only an Integer is accepted; a Long is rejected even when it would fit. */
  function GetInt(v: Value): (r: Result<Int32>)
    ensures r.Ok? <==> v.IntegerValue?
    ensures r.Ok? ==> r.value == v.intValue
    ensures r.Err? ==> r.error == IllegalArgument("Expected int value but got: " + Show(v))
  {
    match v
    case IntegerValue(i) => Ok(i)
    case _ => Err(IllegalArgument("Expected int value but got: " + Show(v)))
  }

  /** Whatever getInt accepts, getLong accepts too, with the same number. */
  lemma GetIntWidens(v: Value)
    ensures GetInt(v).Ok? ==> GetLong(v) == Ok(GetInt(v).value as Int64)
  {
  }

  /** A setting one of the configuration's internal setters applies. */
  datatype Setting =
    | TimeToIdle(seconds: Int64)
    | TimeToLive(seconds: Int64)
    | DiskCapacity(count: Int32)
    | MemCapacity(count: Int32)
    | MemCapacityInBytes(bytes: Int64)

  /**
   * What processing a change message with this config name and value does:
   * the setter for the named type with the converted value, or nothing when
   * the name is unknown or the value has the wrong type (both are reported as
   * IllegalArgumentException, caught and logged).
   */
  function Dispatch(toolkitName: string, newValue: Value): Option<Setting>
  {
    match TypeNamed(toolkitName)
    case None => None
    case Some(MaxTtiSeconds) => if GetLong(newValue).Ok? then Some(TimeToIdle(GetLong(newValue).value)) else None
    case Some(MaxTtlSeconds) => if GetLong(newValue).Ok? then Some(TimeToLive(GetLong(newValue).value)) else None
    case Some(MaxTotalCount) => if GetInt(newValue).Ok? then Some(DiskCapacity(GetInt(newValue).value)) else None
    case Some(MaxCountLocalHeap) => if GetInt(newValue).Ok? then Some(MemCapacity(GetInt(newValue).value)) else None
    case Some(MaxBytesLocalHeap) => if GetLong(newValue).Ok? then Some(MemCapacityInBytes(GetLong(newValue).value)) else None
  }

  /** The values of the dynamic settings of a cache configuration. */
  datatype ConfigState = ConfigState(timeToIdle: Int64, timeToLive: Int64, diskCapacity: Int32,
                                     memCapacity: Int32, memCapacityInBytes: Int64)

  /** The configuration after an optional setter call: only the targeted setting changes. */
  function Apply(state: ConfigState, setting: Option<Setting>): ConfigState
  {
    match setting
    case None => state
    case Some(TimeToIdle(v)) => state.(timeToIdle := v)
    case Some(TimeToLive(v)) => state.(timeToLive := v)
    case Some(DiskCapacity(n)) => state.(diskCapacity := n)
    case Some(MemCapacity(n)) => state.(memCapacity := n)
    case Some(MemCapacityInBytes(v)) => state.(memCapacityInBytes := v)
  }

  /** A message a toolkit notifier delivers. */
  datatype Message =
    | ConfigChangeMessage(fullyQualifiedEhcacheName: string, toolkitConfigName: string, newValue: Value)
    | OtherMessage

  /** The cluster node a notification came from. */
  type NodeRef = nat

  /** The configuration of the local cache; only its dynamic settings and listeners are modelled. */
  class CacheConfiguration {
    var timeToIdle: Int64
    var timeToLive: Int64
    var diskCapacity: Int32
    var memCapacity: Int32
    var memCapacityInBytes: Int64
    var listeners: set<CacheConfigChangeBridge>

    constructor (state: ConfigState)
      ensures State() == state && listeners == {}
    {
      timeToIdle, timeToLive := state.timeToIdle, state.timeToLive;
      diskCapacity, memCapacity := state.diskCapacity, state.memCapacity;
      memCapacityInBytes := state.memCapacityInBytes;
      listeners := {};
    }

    function State(): ConfigState
      reads this
    {
      ConfigState(timeToIdle, timeToLive, diskCapacity, memCapacity, memCapacityInBytes)
    }
  }

  /** A cluster-wide notifier: the messages sent through it and its registered listeners. */
  class Notifier {
    var sent: seq<Message>
    var listeners: set<CacheConfigChangeBridge>

    constructor ()
      ensures sent == [] && listeners == {}
    {
      sent := [];
      listeners := {};
    }
  }

  /** The clustered store's config fields. */
  class Backend {
    var configFields: map<string, Value>

    constructor ()
      ensures configFields == map[]
    {
      configFields := map[];
    }
  }

  /** A change reported by the local cache configuration, with its new value. */
  datatype LocalChange =
    | TimeToIdleChanged(seconds: Int64)
    | TimeToLiveChanged(seconds: Int64)
    | DiskCapacityChanged(capacity: Int32)
    | MemoryCapacityChanged(capacity: Int32)
    | MaxBytesLocalHeapChanged(bytes: Int64)

  /** The setter whose meaning matches a local change. */
  function Matching(change: LocalChange): Setting
  {
    match change
    case TimeToIdleChanged(v) => TimeToIdle(v)
    case TimeToLiveChanged(v) => TimeToLive(v)
    case DiskCapacityChanged(n) => DiskCapacity(n)
    case MemoryCapacityChanged(n) => MemCapacity(n)
    case MaxBytesLocalHeapChanged(v) => MemCapacityInBytes(v)
  }

  class CacheConfigChangeBridge {
    const notifier: Notifier
    const backend: Backend
    const config: CacheConfiguration
    const fullyQualifiedEhcacheName: string

    constructor (config: CacheConfiguration, fullyQualifiedEhcacheName: string, backend: Backend, notifier: Notifier)
      ensures this.config == config && this.fullyQualifiedEhcacheName == fullyQualifiedEhcacheName
      ensures this.backend == backend && this.notifier == notifier
    {
      this.config := config;
      this.fullyQualifiedEhcacheName := fullyQualifiedEhcacheName;
      this.backend := backend;
      this.notifier := notifier;
    }

    /** connectConfigs: listen to the local configuration and to the notifier. */
    method ConnectConfigs()
      modifies config`listeners, notifier`listeners
      ensures config.listeners == old(config.listeners) + {this}
      ensures notifier.listeners == old(notifier.listeners) + {this}
    {
      config.listeners := config.listeners + {this};
      notifier.listeners := notifier.listeners + {this};
    }

    /** disconnectConfigs: stop listening to both. */
    method DisconnectConfigs()
      modifies config`listeners, notifier`listeners
      ensures config.listeners == old(config.listeners) - {this}
      ensures notifier.listeners == old(notifier.listeners) - {this}
    {
      config.listeners := config.listeners - {this};
      notifier.listeners := notifier.listeners - {this};
    }

    /** The message this bridge broadcasts for a change of one type. */
    function ChangeMessage(t: DynamicConfigType, newValue: Value): Message
    {
      ConfigChangeMessage(fullyQualifiedEhcacheName, t.ToolkitConfigName(), newValue)
    }

    /** changeAndNotify: write the toolkit config field, then broadcast the change. */
    method ChangeAndNotify(t: DynamicConfigType, newValue: Value)
      modifies backend`configFields, notifier`sent
      ensures backend.configFields == old(backend.configFields)[t.ToolkitConfigName() := newValue]
      ensures notifier.sent == old(notifier.sent) + [ChangeMessage(t, newValue)]
    {
      backend.configFields := backend.configFields[t.ToolkitConfigName() := newValue];
      notifier.sent := notifier.sent + [ConfigChangeMessage(fullyQualifiedEhcacheName, t.ToolkitConfigName(), newValue)];
    }

    /** The type and value a local change is broadcast with. */
    function Announced(change: LocalChange): (DynamicConfigType, Value)
    {
      match change
      case TimeToIdleChanged(v) => (MaxTtiSeconds, LongValue(v))
      case TimeToLiveChanged(v) => (MaxTtlSeconds, LongValue(v))
      case DiskCapacityChanged(n) => (MaxTotalCount, IntegerValue(n))
      case MemoryCapacityChanged(n) => (MaxCountLocalHeap, IntegerValue(n))
      case MaxBytesLocalHeapChanged(v) => (MaxBytesLocalHeap, LongValue(v))
    }

    /** The message a local change is broadcast as. */
    function Broadcast(change: LocalChange): Message
    {
      ChangeMessage(Announced(change).0, Announced(change).1)
    }

    method TimeToIdleChanged(oldTimeToIdle: Int64, newTimeToIdle: Int64)
      modifies backend`configFields, notifier`sent
      ensures backend.configFields == old(backend.configFields)[MAX_TTI_SECONDS_FIELD_NAME := LongValue(newTimeToIdle)]
      ensures notifier.sent == old(notifier.sent) + [Broadcast(LocalChange.TimeToIdleChanged(newTimeToIdle))]
    {
      ChangeAndNotify(MaxTtiSeconds, LongValue(newTimeToIdle));
    }

    method TimeToLiveChanged(oldTimeToLive: Int64, newTimeToLive: Int64)
      modifies backend`configFields, notifier`sent
      ensures backend.configFields == old(backend.configFields)[MAX_TTL_SECONDS_FIELD_NAME := LongValue(newTimeToLive)]
      ensures notifier.sent == old(notifier.sent) + [Broadcast(LocalChange.TimeToLiveChanged(newTimeToLive))]
    {
      ChangeAndNotify(MaxTtlSeconds, LongValue(newTimeToLive));
    }

    method DiskCapacityChanged(oldCapacity: Int32, newCapacity: Int32)
      modifies backend`configFields, notifier`sent
      ensures backend.configFields == old(backend.configFields)[MAX_TOTAL_COUNT_FIELD_NAME := IntegerValue(newCapacity)]
      ensures notifier.sent == old(notifier.sent) + [Broadcast(LocalChange.DiskCapacityChanged(newCapacity))]
    {
      ChangeAndNotify(MaxTotalCount, IntegerValue(newCapacity));
    }

    method MemoryCapacityChanged(oldCapacity: Int32, newCapacity: Int32)
      modifies backend`configFields, notifier`sent
      ensures backend.configFields == old(backend.configFields)[MAX_COUNT_LOCAL_HEAP_FIELD_NAME := IntegerValue(newCapacity)]
      ensures notifier.sent == old(notifier.sent) + [Broadcast(LocalChange.MemoryCapacityChanged(newCapacity))]
    {
      ChangeAndNotify(MaxCountLocalHeap, IntegerValue(newCapacity));
    }

    method MaxBytesLocalHeapChanged(oldValue: Int64, newValue: Int64)
      modifies backend`configFields, notifier`sent
      ensures backend.configFields == old(backend.configFields)[MAX_BYTES_LOCAL_HEAP_FIELD_NAME := LongValue(newValue)]
      ensures notifier.sent == old(notifier.sent) + [Broadcast(LocalChange.MaxBytesLocalHeapChanged(newValue))]
    {
      ChangeAndNotify(MaxBytesLocalHeap, LongValue(newValue));
    }

    /** maxBytesLocalDiskChanged is not propagated. */
    method MaxBytesLocalDiskChanged(oldValue: Int64, newValue: Int64)
    {
    }

    /** loggingChanged is not propagated. */
    method LoggingChanged(oldValue: bool, newValue: bool)
    {
    }

    method Registered(configuration: CacheConfiguration)
    {
    }

    method Deregistered(configuration: CacheConfiguration)
    {
    }

    /**
     * shouldProcessNotification: the message came through this bridge's own
     * notifier, is a configuration change, and names this bridge's cache.
     */
    predicate ShouldProcessNotification(notifierParam: Notifier?, msg: Message)
    {
      notifier == notifierParam && msg.ConfigChangeMessage? && msg.fullyQualifiedEhcacheName == fullyQualifiedEhcacheName
    }

    /**
     * processConfigChangeNotification: look the type up by name, convert the
     * value, and call the matching internal setter; an unknown name or a value
     * of the wrong type changes nothing.
     */
    method ProcessConfigChangeNotification(notification: Message)
      requires notification.ConfigChangeMessage?
      modifies config`timeToIdle, config`timeToLive, config`diskCapacity, config`memCapacity, config`memCapacityInBytes
      ensures config.State() == Apply(old(config.State()), Dispatch(notification.toolkitConfigName, notification.newValue))
    {
      var t := TypeFromToolkitConfigName(notification.toolkitConfigName);
      if t.Err? {
        return;
      }
      TypeNamedSpec(notification.toolkitConfigName, t.value);
      var newValue := notification.newValue;
      match t.value {
        case MaxTtiSeconds =>
          var v := GetLong(newValue);
          if v.Ok? {
            config.timeToIdle := v.value;
          }
        case MaxTtlSeconds =>
          var v := GetLong(newValue);
          if v.Ok? {
            config.timeToLive := v.value;
          }
        case MaxTotalCount =>
          var n := GetInt(newValue);
          if n.Ok? {
            config.diskCapacity := n.value;
          }
        case MaxCountLocalHeap =>
          var n := GetInt(newValue);
          if n.Ok? {
            config.memCapacity := n.value;
          }
        case MaxBytesLocalHeap =>
          var v := GetLong(newValue);
          if v.Ok? {
            config.memCapacityInBytes := v.value;
          }
      }
    }

    /** onNotification: process a message meant for this bridge; ignore (and log) any other. */
    method OnNotification(notifierParam: Notifier?, remoteNode: NodeRef, msg: Message)
      modifies config`timeToIdle, config`timeToLive, config`diskCapacity, config`memCapacity, config`memCapacityInBytes
      ensures ShouldProcessNotification(notifierParam, msg) ==>
        config.State() == Apply(old(config.State()), Dispatch(msg.toolkitConfigName, msg.newValue))
      ensures !ShouldProcessNotification(notifierParam, msg) ==> config.State() == old(config.State())
    {
      if ShouldProcessNotification(notifierParam, msg) {
        ProcessConfigChangeNotification(msg);
      }
    }
  }

  /**
   * A change made on one node reaches every other bridge for the same cache on
   * the same notifier, and there runs the setter matching the change with the
   * same value: capacities travel as Integer and pass getInt, times and byte
   * sizes travel as Long and pass getLong.
   */
  lemma LocalChangeRoundTrip(sender: CacheConfigChangeBridge, receiver: CacheConfigChangeBridge, change: LocalChange)
    requires receiver.notifier == sender.notifier
    requires receiver.fullyQualifiedEhcacheName == sender.fullyQualifiedEhcacheName
    ensures receiver.ShouldProcessNotification(sender.notifier, sender.Broadcast(change))
    ensures Dispatch(sender.Broadcast(change).toolkitConfigName, sender.Broadcast(change).newValue) == Some(Matching(change))
  {
    TypeNamedSpec(sender.Announced(change).0.ToolkitConfigName(), sender.Announced(change).0);
  }

  /** Processing a message only ever touches the one setting its type names. */
  lemma DispatchTouchesOneSetting(state: ConfigState, toolkitName: string, newValue: Value, t: DynamicConfigType)
    requires TypeNamed(toolkitName) == Some(t)
    ensures t != MaxTtiSeconds ==> Apply(state, Dispatch(toolkitName, newValue)).timeToIdle == state.timeToIdle
    ensures t != MaxTtlSeconds ==> Apply(state, Dispatch(toolkitName, newValue)).timeToLive == state.timeToLive
    ensures t != MaxTotalCount ==> Apply(state, Dispatch(toolkitName, newValue)).diskCapacity == state.diskCapacity
    ensures t != MaxCountLocalHeap ==> Apply(state, Dispatch(toolkitName, newValue)).memCapacity == state.memCapacity
    ensures t != MaxBytesLocalHeap ==>
      Apply(state, Dispatch(toolkitName, newValue)).memCapacityInBytes == state.memCapacityInBytes
  {
  }
}
