/**
 * Per-query Hibernate statistics as the management bean publishes them
 * (QueryStats): a query string and eight long counters, built from a
 * statistics bean's described properties or from an open-data composite
 * record, summed with another entry, and rendered as a composite record or as
 * text. A composite record is modelled as the map from item names to values.
 */
module QueryStatistics {
  import opened Java

  /** The counter items, in the order of the composite type's item names. */
  const COUNTER_NAMES: seq<string> := ["cacheHitCount", "cacheMissCount", "cachePutCount", "executionCount",
    "executionRowCount", "executionAvgTime", "executionMaxTime", "executionMinTime"]

  /** The composite type's item names: the query, then the counters. */
  const ITEM_NAMES: seq<string> := ["query"] + COUNTER_NAMES

  /** A value held in a composite record item. */
  datatype OpenValue = StringValue(s: string) | LongValue(l: Int64) | NullValue | OtherValue

  type CompositeData = map<string, OpenValue>

  /** The state of one QueryStats object: the query (None for null) and the counters in COUNTER_NAMES order. */
  datatype Snapshot = Snapshot(query: Option<string>, counters: seq<Int64>)

  /** CompositeData.get then a cast to String: a missing item throws, null passes. */
  function ReadString(cd: CompositeData, name: string): (r: Result<Option<string>>)
    ensures r.Ok? <==> name in cd && (cd[name].StringValue? || cd[name].NullValue?)
    ensures r.Ok? ==> r.value == (if cd[name].StringValue? then Some(cd[name].s) else None)
    ensures name !in cd ==> r == Err(InvalidKey(name))
    ensures name in cd && (cd[name].LongValue? || cd[name].OtherValue?) ==> r == Err(ClassCast)
  {
    if name !in cd then Err(InvalidKey(name))
    else match cd[name]
      case StringValue(s) => Ok(Some(s))
      case NullValue => Ok(None)
      case _ => Err(ClassCast)
  }

  /** CompositeData.get, a cast to Long and unboxing into a `long` field. */
  function ReadLong(cd: CompositeData, name: string): (r: Result<Int64>)
    ensures r.Ok? <==> name in cd && cd[name].LongValue?
    ensures r.Ok? ==> cd[name] == LongValue(r.value)
    ensures name !in cd ==> r == Err(InvalidKey(name))
    ensures name in cd && cd[name].NullValue? ==> r == Err(NullPointer)
    ensures name in cd && (cd[name].StringValue? || cd[name].OtherValue?) ==> r == Err(ClassCast)
  {
    if name !in cd then Err(InvalidKey(name))
    else match cd[name]
      case LongValue(l) => Ok(l)
      case NullValue => Err(NullPointer)
      case _ => Err(ClassCast)
  }

  /** Read the named long items in order; the first failing item decides the exception. */
  function ReadLongs(cd: CompositeData, names: seq<string>): Result<seq<Int64>>
  {
    if names == [] then Ok([])
    else
      match ReadLongs(cd, names[..|names| - 1])
      case Err(e) => Err(e)
      case Ok(vs) =>
        match ReadLong(cd, names[|names| - 1])
        case Err(e) => Err(e)
        case Ok(v) => Ok(vs + [v])
  }

  /** Reading succeeds iff every named item is a long, and then yields exactly those longs. */
  lemma {:induction false} ReadLongsSpec(cd: CompositeData, names: seq<string>)
    ensures ReadLongs(cd, names).Ok? <==> forall i :: 0 <= i < |names| ==> names[i] in cd && cd[names[i]].LongValue?
    ensures ReadLongs(cd, names).Ok? ==>
      |ReadLongs(cd, names).value| == |names|
      && forall i :: 0 <= i < |names| ==> cd[names[i]] == LongValue(ReadLongs(cd, names).value[i])
  {
    if names != [] {
      var init := names[..|names| - 1];
      ReadLongsSpec(cd, init);
      assert forall i :: 0 <= i < |init| ==> init[i] == names[i];
    }
  }

  /** Once a prefix of the items fails, reading the rest does not change the exception. */
  lemma {:induction false} ReadLongsFailsEarly(cd: CompositeData, names: seq<string>, k: nat)
    requires k <= |names| && ReadLongs(cd, names[..k]).Err?
    ensures ReadLongs(cd, names) == ReadLongs(cd, names[..k])
    decreases |names| - k
  {
    if k < |names| {
      ReadLongsFailsEarly(cd, names, k + 1);
      assert names[..k + 1][..k] == names[..k];
    } else {
      assert names[..k] == names;
    }
  }

  /** The QueryStats(CompositeData) constructor as a function: the query item, then the counters. */
  function Decode(cd: CompositeData): Result<Snapshot>
  {
    match ReadString(cd, ITEM_NAMES[0])
    case Err(e) => Err(e)
    case Ok(q) =>
      match ReadLongs(cd, COUNTER_NAMES)
      case Err(e) => Err(e)
      case Ok(cs) => Ok(Snapshot(q, cs))
  }

  /** Decoding succeeds iff every item is present with its declared type, and keeps every counter. */
  lemma DecodeSpec(cd: CompositeData)
    ensures Decode(cd).Ok? <==>
      && (ITEM_NAMES[0] in cd && (cd[ITEM_NAMES[0]].StringValue? || cd[ITEM_NAMES[0]].NullValue?))
      && forall i :: 0 <= i < |COUNTER_NAMES| ==> COUNTER_NAMES[i] in cd && cd[COUNTER_NAMES[i]].LongValue?
    ensures Decode(cd).Ok? ==>
      && |Decode(cd).value.counters| == |COUNTER_NAMES|
      && forall i :: 0 <= i < |COUNTER_NAMES| ==> cd[COUNTER_NAMES[i]] == LongValue(Decode(cd).value.counters[i])
  {
    ReadLongsSpec(cd, COUNTER_NAMES);
  }

  /** The map of described bean properties: a missing property reads as null. */
  function Lookup(described: map<string, string>, name: string): Option<string>
  {
    if name in described then Some(described[name]) else None
  }

  /** safeParseInt: Integer.parseInt, with -1 for anything it rejects (null included). */
  function SafeParseInt(s: Option<string>): (r: Int32)
    ensures ParseInt(s).Ok? ==> r == ParseInt(s).value
    ensures ParseInt(s).Err? ==> r == -1
  {
    match ParseInt(s)
    case Ok(v) => v
    case Err(_) => -1
  }

  /**
   * A described long property comes back whole when it fits in an `int` and
   * as -1 otherwise: counters past the `int` range are lost.
   */
  lemma DescribedCounter(v: Int64)
    ensures SafeParseInt(Some(IntToDecimal(v))) == if InInt32(v) then v else -1
  {
    ParseIntToDecimal(v);
  }

  /** The text of a query for toString: null prints as "null". */
  function ShowQuery(q: Option<string>): string
  {
    match q
    case Some(s) => s
    case None => "null"
  }

  /** "name=value" pairs joined by ", ". */
  function Render(names: seq<string>, values: seq<string>): string
    requires |names| == |values| >= 1
  {
    if |names| == 1 then names[0] + "=" + values[0]
    else Render(names[..|names| - 1], values[..|values| - 1]) + (", " + names[|names| - 1] + "=") + values[|values| - 1]
  }

  /** Counter-wise `long` addition. */
  function Sum(a: seq<Int64>, b: seq<Int64>): (r: seq<Int64>)
    requires |a| == |b|
    ensures |r| == |a|
    ensures forall i :: 0 <= i < |a| && InInt64(a[i] as int + b[i]) ==> r[i] == a[i] as int + b[i]
  {
    seq(|a|, i requires 0 <= i < |a| => WrapInt64(a[i] as int + b[i]))
  }

  class QueryStats {
    const query: Option<string>
    var cacheHitCount: Int64
    var cacheMissCount: Int64
    var cachePutCount: Int64
    var executionCount: Int64
    var executionRowCount: Int64
    var executionAvgTime: Int64
    var executionMaxTime: Int64
    var executionMinTime: Int64

    /** The counters in COUNTER_NAMES order. */
    function Counters(): (cs: seq<Int64>)
      reads this
      ensures |cs| == |COUNTER_NAMES|
    {
      [cacheHitCount, cacheMissCount, cachePutCount, executionCount,
       executionRowCount, executionAvgTime, executionMaxTime, executionMinTime]
    }

    function State(): Snapshot
      reads this
    {
      Snapshot(query, Counters())
    }

    /** QueryStats(String): a named entry with every counter at zero. */
    constructor (name: Option<string>)
      ensures query == name
      ensures forall i :: 0 <= i < |COUNTER_NAMES| ==> Counters()[i] == 0
    {
      query := name;
      cacheHitCount, cacheMissCount, cachePutCount, executionCount := 0, 0, 0, 0;
      executionRowCount, executionAvgTime, executionMaxTime, executionMinTime := 0, 0, 0, 0;
    }

    /**
     * QueryStats(String, QueryStatistics): each counter is the safely parsed
     * property of the same name among the bean's described properties.
     */
    constructor Described(name: Option<string>, described: map<string, string>)
      ensures query == name
      ensures forall i :: 0 <= i < |COUNTER_NAMES| ==>
        Counters()[i] == SafeParseInt(Lookup(described, COUNTER_NAMES[i]))
    {
      query := name;
      cacheHitCount := SafeParseInt(Lookup(described, "cacheHitCount"));
      cacheMissCount := SafeParseInt(Lookup(described, "cacheMissCount"));
      cachePutCount := SafeParseInt(Lookup(described, "cachePutCount"));
      executionCount := SafeParseInt(Lookup(described, "executionCount"));
      executionRowCount := SafeParseInt(Lookup(described, "executionRowCount"));
      executionAvgTime := SafeParseInt(Lookup(described, "executionAvgTime"));
      executionMaxTime := SafeParseInt(Lookup(described, "executionMaxTime"));
      executionMinTime := SafeParseInt(Lookup(described, "executionMinTime"));
    }

    /** Fill a new entry from decoded items. */
    constructor Restored(query: Option<string>, counters: seq<Int64>)
      requires |counters| == |COUNTER_NAMES|
      ensures State() == Snapshot(query, counters)
    {
      this.query := query;
      cacheHitCount, cacheMissCount, cachePutCount, executionCount := counters[0], counters[1], counters[2], counters[3];
      executionRowCount, executionAvgTime, executionMaxTime, executionMinTime := counters[4], counters[5], counters[6], counters[7];
    }

    /**
     * add: each counter gains the other entry's counter of the same name, in
     * `long` arithmetic; adding an entry to itself doubles every counter.
     */
    method Add(stats: QueryStats)
      modifies this
      ensures Counters() == Sum(old(Counters()), old(stats.Counters()))
    {
      ghost var mine, theirs := Counters(), stats.Counters();
      var hit := WrapInt64(cacheHitCount as int + stats.cacheHitCount);
      var miss := WrapInt64(cacheMissCount as int + stats.cacheMissCount);
      var put := WrapInt64(cachePutCount as int + stats.cachePutCount);
      var count := WrapInt64(executionCount as int + stats.executionCount);
      var rows := WrapInt64(executionRowCount as int + stats.executionRowCount);
      var avg := WrapInt64(executionAvgTime as int + stats.executionAvgTime);
      var max := WrapInt64(executionMaxTime as int + stats.executionMaxTime);
      var min := WrapInt64(executionMinTime as int + stats.executionMinTime);
      assert Sum(mine, theirs) == [hit, miss, put, count, rows, avg, max, min];
      cacheHitCount, cacheMissCount, cachePutCount, executionCount := hit, miss, put, count;
      executionRowCount, executionAvgTime, executionMaxTime, executionMinTime := rows, avg, max, min;
    }

    /** toCompositeData: one item per name, the query as a string and each counter as a long. */
    function ToCompositeData(): CompositeData
      reads this
    {
      map[
        "query" := if query.Some? then StringValue(query.value) else NullValue,
        "cacheHitCount" := LongValue(cacheHitCount),
        "cacheMissCount" := LongValue(cacheMissCount),
        "cachePutCount" := LongValue(cachePutCount),
        "executionCount" := LongValue(executionCount),
        "executionRowCount" := LongValue(executionRowCount),
        "executionAvgTime" := LongValue(executionAvgTime),
        "executionMaxTime" := LongValue(executionMaxTime),
        "executionMinTime" := LongValue(executionMinTime)
      ]
    }

    /** toString */
    function ToString(): string
      reads this
    {
      "query=" + ShowQuery(query) + ", cacheHitCount=" + IntToDecimal(cacheHitCount)
      + ", cacheMissCount=" + IntToDecimal(cacheMissCount) + ", cachePutCount=" + IntToDecimal(cachePutCount)
      + ", executionCount=" + IntToDecimal(executionCount) + ", executionRowCount=" + IntToDecimal(executionRowCount)
      + ", executionAvgTime=" + IntToDecimal(executionAvgTime) + ", executionMaxTime=" + IntToDecimal(executionMaxTime)
      + ", executionMinTime=" + IntToDecimal(executionMinTime)
    }
  }

  /** Read the counter items in order, stopping at the first that fails. */
  method ReadCounters(cd: CompositeData, names: seq<string>) returns (r: Result<seq<Int64>>)
    ensures r == ReadLongs(cd, names)
  {
    var counters: seq<Int64> := [];
    for i := 0 to |names|
      invariant ReadLongs(cd, names[..i]) == Ok(counters)
    {
      assert names[..i + 1][..i] == names[..i];
      var item := ReadLong(cd, names[i]);
      if item.Err? {
        ReadLongsFailsEarly(cd, names, i + 1);
        return Err(item.error);
      }
      counters := counters + [item.value];
    }
    assert names[..|names|] == names;
    r := Ok(counters);
  }

  /** QueryStats(CompositeData): a new entry with the decoded state, or the exception the reads throw. */
  method FromCompositeData(cd: CompositeData) returns (r: Result<QueryStats>)
    ensures r.Ok? <==> Decode(cd).Ok?
    ensures r.Ok? ==> fresh(r.value) && r.value.State() == Decode(cd).value
    ensures r.Err? ==> Decode(cd) == Err(r.error)
  {
    var query := ReadString(cd, ITEM_NAMES[0]);
    if query.Err? {
      return Err(query.error);
    }
    var counters := ReadCounters(cd, COUNTER_NAMES);
    if counters.Err? {
      return Err(counters.error);
    }
    ReadLongsSpec(cd, COUNTER_NAMES);
    var stats := new QueryStats.Restored(query.value, counters.value);
    r := Ok(stats);
  }

  /**
   * fromTabularData: one new entry per row, in the order the table yields its
   * rows; the first row that does not decode aborts the whole conversion.
   */
  method FromTabularData(rows: seq<CompositeData>) returns (r: Result<seq<QueryStats>>)
    ensures r.Ok? <==> forall i :: 0 <= i < |rows| ==> Decode(rows[i]).Ok?
    ensures r.Ok? ==> |r.value| == |rows|
    ensures r.Ok? ==> forall i :: 0 <= i < |rows| ==>
      fresh(r.value[i]) && r.value[i].State() == Decode(rows[i]).value
    ensures r.Err? ==> exists i ::
      (0 <= i < |rows| && Decode(rows[i]) == Err(r.error) && forall j :: 0 <= j < i ==> Decode(rows[j]).Ok?)
  {
    var countList: seq<QueryStats> := [];
    for i := 0 to |rows|
      invariant |countList| == i
      invariant forall j :: 0 <= j < i ==> Decode(rows[j]).Ok?
      invariant forall j :: 0 <= j < i ==> fresh(countList[j]) && countList[j].State() == Decode(rows[j]).value
    {
      var stats := FromCompositeData(rows[i]);
      if stats.Err? {
        return Err(stats.error);
      }
      countList := countList + [stats.value];
    }
    r := Ok(countList);
  }

  /** An entry survives the trip through its composite record unchanged. */
  lemma CompositeRoundTrip(q: QueryStats)
    ensures Decode(q.ToCompositeData()) == Ok(q.State())
  {
    var cd := q.ToCompositeData();
    var cs := q.Counters();
    forall i | 0 <= i < |COUNTER_NAMES|
      ensures COUNTER_NAMES[i] in cd && cd[COUNTER_NAMES[i]] == LongValue(cs[i])
    {
    }
    ReadLongsOfItems(cd, COUNTER_NAMES, cs);
  }

  /** Items that all hold longs read back as exactly those longs. */
  lemma {:induction false} ReadLongsOfItems(cd: CompositeData, names: seq<string>, vs: seq<Int64>)
    requires |names| == |vs|
    requires forall i :: 0 <= i < |names| ==> names[i] in cd && cd[names[i]] == LongValue(vs[i])
    ensures ReadLongs(cd, names) == Ok(vs)
  {
    if names != [] {
      ReadLongsOfItems(cd, names[..|names| - 1], vs[..|vs| - 1]);
      assert vs == vs[..|vs| - 1] + [vs[|vs| - 1]];
    }
  }

  /** The text values of an entry's items, in item order. */
  function ItemTexts(q: QueryStats): (texts: seq<string>)
    reads q
    ensures |texts| == |ITEM_NAMES|
  {
    [ShowQuery(q.query), IntToDecimal(q.cacheHitCount), IntToDecimal(q.cacheMissCount),
     IntToDecimal(q.cachePutCount), IntToDecimal(q.executionCount), IntToDecimal(q.executionRowCount),
     IntToDecimal(q.executionAvgTime), IntToDecimal(q.executionMaxTime), IntToDecimal(q.executionMinTime)]
  }

  /** Rendering one more item appends ", name=" and the item's text. */
  lemma RenderNext(q: QueryStats, k: nat, text: string, separator: string)
    requires 1 <= k < |ITEM_NAMES| && separator == ", " + ITEM_NAMES[k] + "="
    requires Render(ITEM_NAMES[..k], ItemTexts(q)[..k]) == text
    ensures Render(ITEM_NAMES[..k + 1], ItemTexts(q)[..k + 1]) == text + separator + ItemTexts(q)[k]
  {
    assert ITEM_NAMES[..k + 1][..k] == ITEM_NAMES[..k];
    assert ItemTexts(q)[..k + 1][..k] == ItemTexts(q)[..k];
  }

  /** The first five items of toString. */
  lemma RenderFirstItems(q: QueryStats)
    ensures Render(ITEM_NAMES[..5], ItemTexts(q)[..5]) ==
      "query=" + ShowQuery(q.query) + ", cacheHitCount=" + IntToDecimal(q.cacheHitCount) + ", cacheMissCount=" + IntToDecimal(q.cacheMissCount) + ", cachePutCount=" + IntToDecimal(q.cachePutCount) + ", executionCount=" + IntToDecimal(q.executionCount)
  {
    var text := "query=" + ShowQuery(q.query);
    assert Render(ITEM_NAMES[..1], ItemTexts(q)[..1]) == text;
    RenderNext(q, 1, text, ", cacheHitCount=");
    text := text + ", cacheHitCount=" + IntToDecimal(q.cacheHitCount);
    RenderNext(q, 2, text, ", cacheMissCount=");
    text := text + ", cacheMissCount=" + IntToDecimal(q.cacheMissCount);
    RenderNext(q, 3, text, ", cachePutCount=");
    text := text + ", cachePutCount=" + IntToDecimal(q.cachePutCount);
    RenderNext(q, 4, text, ", executionCount=");
    text := text + ", executionCount=" + IntToDecimal(q.executionCount);
  }

  /** The last four items of toString, after the text of the first five. */
  lemma RenderLastItems(q: QueryStats, prefix: string)
    requires Render(ITEM_NAMES[..5], ItemTexts(q)[..5]) == prefix
    ensures Render(ITEM_NAMES[..9], ItemTexts(q)[..9]) ==
      prefix + ", executionRowCount=" + IntToDecimal(q.executionRowCount) + ", executionAvgTime=" + IntToDecimal(q.executionAvgTime) + ", executionMaxTime=" + IntToDecimal(q.executionMaxTime) + ", executionMinTime=" + IntToDecimal(q.executionMinTime)
  {
    var text := prefix;
    RenderNext(q, 5, text, ", executionRowCount=");
    text := text + ", executionRowCount=" + IntToDecimal(q.executionRowCount);
    RenderNext(q, 6, text, ", executionAvgTime=");
    text := text + ", executionAvgTime=" + IntToDecimal(q.executionAvgTime);
    RenderNext(q, 7, text, ", executionMaxTime=");
    text := text + ", executionMaxTime=" + IntToDecimal(q.executionMaxTime);
    RenderNext(q, 8, text, ", executionMinTime=");
    text := text + ", executionMinTime=" + IntToDecimal(q.executionMinTime);
  }

  /** toString lists every item as "name=value", in item order, separated by ", ". */
  lemma ToStringListsItems(q: QueryStats)
    ensures q.ToString() == Render(ITEM_NAMES, ItemTexts(q))
  {
    RenderFirstItems(q);
    RenderLastItems(q, "query=" + ShowQuery(q.query) + ", cacheHitCount=" + IntToDecimal(q.cacheHitCount) + ", cacheMissCount=" + IntToDecimal(q.cacheMissCount) + ", cachePutCount=" + IntToDecimal(q.cachePutCount) + ", executionCount=" + IntToDecimal(q.executionCount));
    assert ITEM_NAMES[..9] == ITEM_NAMES && ItemTexts(q)[..9] == ItemTexts(q);
  }
}
