/**
 * What the synchronous handler promises its callers, stated over `Handle`
 * (which `Ingest.Ingest` is proved to implement).
 */
module IngestProperties {
  import opened Wrappers
  import opened Json
  import opened Ingest

  /** A body is answered 400 exactly when it is falsy, and then nothing is
      inserted. */
  lemma FalsyBodyRejected(body: Option<Value>, online: bool, accepts: SqlRow -> bool, repr: Value -> string)
    ensures Handle(body, online, accepts, repr).response == NoJsonData <==> Falsy(body)
    ensures Falsy(body) ==> Handle(body, online, accepts, repr).committed == []
  {
  }

  /** The falsy bodies: `request.json` being None, null, false, 0, "", [] and {}. */
  lemma FalsyBodies()
    ensures Falsy(None) && Falsy(Some(Null)) && Falsy(Some(Bool(false)))
    ensures Falsy(Some(Number(0.0))) && Falsy(Some(String("")))
    ensures Falsy(Some(Array([]))) && Falsy(Some(Object(map[])))
    ensures !Falsy(Some(String("hello"))) && !Falsy(Some(Array([Object(map[])])))
  {
  }

  /** `source` and `device_id` are taken from the item when the key is
      present, whatever its value, and are "unknown" otherwise; the payload
      is the item's own rendering. */
  lemma RowDefaults(item: Value, repr: Value -> string)
    requires item.Object?
    ensures "source" in item.fields ==> RowOf(item, repr).source == item.fields["source"]
    ensures "source" !in item.fields ==> RowOf(item, repr).source == Unknown
    ensures "device_id" in item.fields ==> RowOf(item, repr).deviceId == item.fields["device_id"]
    ensures "device_id" !in item.fields ==> RowOf(item, repr).deviceId == Unknown
    ensures RowOf(item, repr).payload == repr(item)
  {
  }

  /** On success the count is the number of items, and exactly one row per
      item is committed, row k coming from item k. */
  lemma SuccessCommitsEveryItemInOrder(body: Option<Value>, online: bool, accepts: SqlRow -> bool, repr: Value -> string)
    requires Handle(body, online, accepts, repr).response.Success?
    ensures body.Some?
    ensures Handle(body, online, accepts, repr).response.count == |AsList(body.value)|
    ensures |Handle(body, online, accepts, repr).committed| == |AsList(body.value)|
    ensures forall k :: 0 <= k < |AsList(body.value)| ==>
      AsList(body.value)[k].Object? &&
      Handle(body, online, accepts, repr).committed[k] == RowOf(AsList(body.value)[k], repr)
  {
  }

  /** A request that does not answer 200 commits nothing. */
  lemma FailureCommitsNothing(body: Option<Value>, online: bool, accepts: SqlRow -> bool, repr: Value -> string)
    requires !Handle(body, online, accepts, repr).response.Success?
    ensures Handle(body, online, accepts, repr).committed == []
  {
  }

  /** The request succeeds exactly when the body is truthy, the store is
      reachable, and every item is a dict whose row the store accepts. */
  lemma SuccessIff(body: Option<Value>, online: bool, accepts: SqlRow -> bool, repr: Value -> string)
    ensures Handle(body, online, accepts, repr).response.Success? <==>
      !Falsy(body) && online &&
      forall k :: 0 <= k < |AsList(body.value)| ==> Clean(AsList(body.value)[k], accepts, repr)
  {
  }

  /** One item that is not a dict makes the whole request a 500, with
      nothing committed, wherever it sits in the list. */
  lemma NonObjectItemFails(body: Option<Value>, online: bool, accepts: SqlRow -> bool, repr: Value -> string, k: nat)
    requires !Falsy(body)
    requires k < |AsList(body.value)| && !AsList(body.value)[k].Object?
    ensures Status(Handle(body, online, accepts, repr).response) == 500
    ensures Handle(body, online, accepts, repr).committed == []
  {
    assert !Clean(AsList(body.value)[k], accepts, repr);
  }

  /** A truthy body that is neither a list nor a dict (a non-empty string, a
      non-zero number, true) is wrapped into a list and then fails at `.get`:
      500, not 400. */
  lemma TruthyScalarIsServerError(v: Value, online: bool, accepts: SqlRow -> bool, repr: Value -> string)
    requires Truthy(v) && !v.Array? && !v.Object?
    ensures Status(Handle(Some(v), online, accepts, repr).response) == 500
    ensures online ==> Handle(Some(v), online, accepts, repr).response == ServerError(NotAnObject(0))
  {
  }

  /** The first insert the store refuses decides the error, and nothing of
      the batch is committed, not even the rows before it. */
  lemma RejectedInsertFailsWholeBatch(items: seq<Value>, accepts: SqlRow -> bool, repr: Value -> string, k: nat)
    requires k < |items|
    requires forall j :: 0 <= j < k ==> Clean(items[j], accepts, repr)
    requires items[k].Object? && !accepts(RowOf(items[k], repr))
    ensures Handle(Some(Array(items)), true, accepts, repr) == Effect(ServerError(InsertRejected(k)), [])
  {
    var r := Inserts(items, accepts, repr);
    assert !Clean(items[k], accepts, repr);
    assert r.Err?;
    assert r.error.index <= k;
  }

  /** A single "nova" reading is committed as one row, answered 200 with count 1. */
  lemma NovaSingleObject(repr: Value -> string)
    ensures
      var nova := Object(map["source" := String("nova"), "device_id" := String("nova-001"),
                             "temperature" := Number(36.5), "status" := String("active")]);
      Handle(Some(nova), true, _ => true, repr) ==
        Effect(Success(1), [SqlRow(String("nova"), String("nova-001"), repr(nova))])
  {
    var nova := Object(map["source" := String("nova"), "device_id" := String("nova-001"),
                           "temperature" := Number(36.5), "status" := String("active")]);
    assert "source" in nova.fields;
  }

  /** A list of three "virgo" readings is committed as three rows in list order. */
  lemma VirgoBatch(repr: Value -> string)
    ensures
      var a := Object(map["source" := String("virgo"), "device_id" := String("virgo-A"),
                          "humidity" := Number(60.0), "battery" := Number(95.0)]);
      var c := Object(map["source" := String("virgo"), "device_id" := String("virgo-C"),
                          "humidity" := Number(90.0), "battery" := Number(90.0)]);
      var b := Object(map["source" := String("virgo"), "device_id" := String("virgo-B"),
                          "humidity" := Number(62.0), "battery" := Number(88.0)]);
      Handle(Some(Array([a, c, b])), true, _ => true, repr) ==
        Effect(Success(3), [SqlRow(String("virgo"), String("virgo-A"), repr(a)),
                            SqlRow(String("virgo"), String("virgo-C"), repr(c)),
                            SqlRow(String("virgo"), String("virgo-B"), repr(b))])
  {
    var a := Object(map["source" := String("virgo"), "device_id" := String("virgo-A"),
                          "humidity" := Number(60.0), "battery" := Number(95.0)]);
    var c := Object(map["source" := String("virgo"), "device_id" := String("virgo-C"),
                          "humidity" := Number(90.0), "battery" := Number(90.0)]);
    var b := Object(map["source" := String("virgo"), "device_id" := String("virgo-B"),
                          "humidity" := Number(62.0), "battery" := Number(88.0)]);
    var items := [a, c, b];
    assert items[..2][..1] == [a] && items[..1][..0] == [];
  }

  /** The bare string "hello" is a 500 and the empty dict a 400. */
  lemma HelloAndEmptyDict(repr: Value -> string)
    ensures Handle(Some(String("hello")), true, _ => true, repr).response == ServerError(NotAnObject(0))
    ensures Handle(Some(Object(map[])), true, _ => true, repr).response == NoJsonData
  {
  }
}
