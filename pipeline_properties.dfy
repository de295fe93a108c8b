/**
 * What the asynchronous handler promises the transport, stated over
 * `Process` (which `Pipeline.ProcessSensorData` is proved to implement).
 */
module PipelineProperties {
  import opened Wrappers
  import opened Json
  import opened Pipeline

  /** The classification falls back from `source` to `type` to "unknown";
      a present key wins even when its value is null. */
  lemma SourceTypeFallback(fields: map<string, Value>)
    ensures "source" in fields ==> SourceType(fields) == fields["source"]
    ensures "source" !in fields && "type" in fields ==> SourceType(fields) == fields["type"]
    ensures "source" !in fields && "type" !in fields ==> SourceType(fields) == Unknown
  {
  }

  /** Only the `source` and `type` keys are consulted: two items that agree
      on those two keys are classified alike, whatever else they hold (in
      particular `device_type`). */
  lemma SourceTypeReadsOnlySourceAndType(f: map<string, Value>, g: map<string, Value>)
    requires ("source" in f <==> "source" in g) && ("source" in f ==> f["source"] == g["source"])
    requires ("type" in f <==> "type" in g) && ("type" in f ==> f["type"] == g["type"])
    ensures SourceType(f) == SourceType(g)
  {
  }

  /** An item carrying only `device_type` is classified "unknown". */
  lemma DeviceTypeNeverConsulted(kind: Value)
    ensures SourceType(map["device_type" := kind]) == Unknown
  {
  }

  /** The message is consumed (the handler returns) exactly when it decodes,
      every item is a dict, and either there are no rows or the one insert
      reports an empty error list. */
  lemma ReturnsIff(event: map<string, string>, now: string, decode: string -> Option<Value>,
                   dumps: Value -> string, insert: seq<BqRow> -> Option<seq<RowError>>)
    ensures Process(event, now, decode, dumps, insert).outcome.Returned? <==>
      "data" in event && decode(event["data"]).Some? &&
      var items := AsList(decode(event["data"]).value);
      (forall k :: 0 <= k < |items| ==> items[k].Object?) &&
      (items == [] || insert(Rows(items, now, dumps).value) == Some([]))
  {
  }

  /** Exactly one insert is submitted when the message decodes to a
      non-empty list of dicts (or a lone dict), and none otherwise; it holds
      one row per item, in item order, all with the same timestamp, each
      classified from and carrying the serialisation of its own item. */
  lemma OneBatchPerMessage(event: map<string, string>, now: string, decode: string -> Option<Value>,
                           dumps: Value -> string, insert: seq<BqRow> -> Option<seq<RowError>>)
    ensures |Process(event, now, decode, dumps, insert).submitted| <= 1
    ensures Process(event, now, decode, dumps, insert).submitted != [] <==>
      "data" in event && decode(event["data"]).Some? &&
      var items := AsList(decode(event["data"]).value);
      items != [] && forall k :: 0 <= k < |items| ==> items[k].Object?
    ensures "data" in event && decode(event["data"]).Some? ==>
      var items := AsList(decode(event["data"]).value);
      (items != [] && forall k :: 0 <= k < |items| ==> items[k].Object?) ==>
      Process(event, now, decode, dumps, insert).submitted == [Rows(items, now, dumps).value]
    ensures Process(event, now, decode, dumps, insert).submitted != [] ==>
      "data" in event && decode(event["data"]).Some? &&
      var items := AsList(decode(event["data"]).value);
      var batch := Process(event, now, decode, dumps, insert).submitted[0];
      |batch| == |items| > 0 &&
      forall k :: 0 <= k < |items| ==>
        items[k].Object? &&
        batch[k].ingestTimestamp == now &&
        batch[k].sourceType == SourceType(items[k].fields) &&
        batch[k].payload == dumps(items[k])
  {
  }

  /** Any non-empty error list, even for one row, fails the whole message. */
  lemma AnyRowErrorRaises(event: map<string, string>, now: string, decode: string -> Option<Value>,
                          dumps: Value -> string, insert: seq<BqRow> -> Option<seq<RowError>>)
    requires Process(event, now, decode, dumps, insert).submitted != []
    requires var batch := Process(event, now, decode, dumps, insert).submitted[0];
      insert(batch).Some? && insert(batch).value != []
    ensures var batch := Process(event, now, decode, dumps, insert).submitted[0];
      Process(event, now, decode, dumps, insert).outcome == Raised(InsertErrors(insert(batch).value))
  {
  }

  /** An empty list submits nothing and returns normally. */
  lemma EmptyListSkipsInsert(event: map<string, string>, now: string, decode: string -> Option<Value>,
                             dumps: Value -> string, insert: seq<BqRow> -> Option<seq<RowError>>)
    requires "data" in event && decode(event["data"]) == Some(Array([]))
    ensures Process(event, now, decode, dumps, insert) == Run(Returned, [])
  {
  }

  /** A payload that is not a list is processed as a list of itself: a dict
      gives exactly one row, anything else raises at its `.get`. */
  lemma LoneValueWrapped(event: map<string, string>, now: string, decode: string -> Option<Value>,
                         dumps: Value -> string, insert: seq<BqRow> -> Option<seq<RowError>>)
    requires "data" in event && decode(event["data"]).Some? && !decode(event["data"]).value.Array?
    ensures var v := decode(event["data"]).value;
      v.Object? ==> Process(event, now, decode, dumps, insert).submitted == [[RowOf(v, now, dumps)]]
    ensures var v := decode(event["data"]).value;
      !v.Object? ==> Process(event, now, decode, dumps, insert) == Run(Raised(NotAnObject(0)), [])
  {
    var v := decode(event["data"]).value;
    if v.Object? {
      assert Rows([v], now, dumps).value == [RowOf(v, now, dumps)];
    }
  }

  /** Decoding failures are raised, not swallowed, and submit nothing. */
  lemma DecodeFailuresRaise(event: map<string, string>, now: string, decode: string -> Option<Value>,
                            dumps: Value -> string, insert: seq<BqRow> -> Option<seq<RowError>>)
    requires "data" !in event || decode(event["data"]).None?
    ensures Process(event, now, decode, dumps, insert).outcome.Raised?
    ensures Process(event, now, decode, dumps, insert).submitted == []
  {
  }

  /** A single "nova" reading becomes one row classified "nova". */
  lemma NovaMessage(now: string, dumps: Value -> string)
    ensures
      var nova := Object(map["source" := String("nova"), "device_id" := String("nova-001"),
                             "temperature" := Number(36.5), "status" := String("active")]);
      Process(map["data" := "nova"], now, _ => Some(nova), dumps, _ => Some([])) ==
        Run(Returned, [[BqRow(now, String("nova"), dumps(nova))]])
  {
    var nova := Object(map["source" := String("nova"), "device_id" := String("nova-001"),
                           "temperature" := Number(36.5), "status" := String("active")]);
    assert Rows([nova], now, dumps).value == [RowOf(nova, now, dumps)];
  }

  /** The empty dict becomes one row classified "unknown". */
  lemma EmptyDictMessage(now: string, dumps: Value -> string)
    ensures Process(map["data" := "{}"], now, _ => Some(Object(map[])), dumps, _ => Some([])) ==
      Run(Returned, [[BqRow(now, Unknown, dumps(Object(map[])))]])
  {
    assert Rows([Object(map[])], now, dumps).value == [RowOf(Object(map[]), now, dumps)];
  }

  /** Three "virgo" readings share one timestamp; one row error among them
      fails the whole message. */
  lemma VirgoBatchOneRowFails(now: string, dumps: Value -> string, reason: string)
    ensures
      var a := Object(map["source" := String("virgo"), "device_id" := String("virgo-A"),
                          "humidity" := Number(60.0), "battery" := Number(95.0)]);
      var c := Object(map["source" := String("virgo"), "device_id" := String("virgo-C"),
                          "humidity" := Number(90.0), "battery" := Number(90.0)]);
      var b := Object(map["source" := String("virgo"), "device_id" := String("virgo-B"),
                          "humidity" := Number(62.0), "battery" := Number(88.0)]);
      var rows := [BqRow(now, String("virgo"), dumps(a)), BqRow(now, String("virgo"), dumps(c)),
                   BqRow(now, String("virgo"), dumps(b))];
      var errors := [RowError(1, reason)];
      Process(map["data" := "virgo"], now, _ => Some(Array([a, c, b])), dumps, _ => Some(errors)) ==
        Run(Raised(InsertErrors(errors)), [rows])
  {
    var a := Object(map["source" := String("virgo"), "device_id" := String("virgo-A"),
                          "humidity" := Number(60.0), "battery" := Number(95.0)]);
    var c := Object(map["source" := String("virgo"), "device_id" := String("virgo-C"),
                          "humidity" := Number(90.0), "battery" := Number(90.0)]);
    var b := Object(map["source" := String("virgo"), "device_id" := String("virgo-B"),
                          "humidity" := Number(62.0), "battery" := Number(88.0)]);
    var items := [a, c, b];
    assert Rows(items, now, dumps).value == [RowOf(a, now, dumps), RowOf(c, now, dumps), RowOf(b, now, dumps)];
  }

  /** The bare string "hello" raises at its `.get`. */
  lemma HelloMessage(now: string, dumps: Value -> string, insert: seq<BqRow> -> Option<seq<RowError>>)
    ensures Process(map["data" := "hello"], now, _ => Some(String("hello")), dumps, insert) ==
      Run(Raised(NotAnObject(0)), [])
  {
  }
}
