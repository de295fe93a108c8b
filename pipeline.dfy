/**
 * The asynchronous `process_sensor_data` handler: one queue message whose
 * `data` decodes to a JSON object or a list of them becomes one analytical
 * row per item, all stamped with the same processing time and submitted to
 * the analytical store in one bulk insert. The handler returns normally only
 * when that insert reports no error; otherwise it raises, so that the
 * transport redelivers the whole message.
 *
 * Base64/UTF-8/JSON decoding (`decode`), `json.dumps` (`dumps`), the clock
 * reading (`now`) and the bulk insert (`insert`) are given as parameters.
 */
module Pipeline {
  import opened Wrappers
  import opened Json

  /** One row of the analytical table. */
  datatype BqRow = BqRow(ingestTimestamp: string, sourceType: Value, payload: string)

  /** One entry of the error list the bulk insert reports. */
  datatype RowError = RowError(index: nat, reason: string)

  /** What the handler raises. */
  datatype Failure =
    | MissingData                       // `event['data']` raised KeyError
    | Undecodable                       // base64, UTF-8 or JSON decoding raised
    | NotAnObject(index: nat)           // `item.get` on an item that is not a dict
    | ClientFailure                     // `insert_rows_json` itself raised
    | InsertErrors(errors: seq<RowError>) // the insert reported errors

  datatype Outcome = Returned | Raised(failure: Failure)

  /** One run: how the handler ended and the bulk inserts it submitted. */
  datatype Run = Run(outcome: Outcome, submitted: seq<seq<BqRow>>)

  /** `item.get('source', item.get('type', 'unknown'))`. */
  function SourceType(fields: map<string, Value>): Value
  {
    Get(fields, "source", Get(fields, "type", Unknown))
  }

  /** The row built for one dict item. */
  function RowOf(item: Value, now: string, dumps: Value -> string): BqRow
    requires item.Object?
  {
    BqRow(now, SourceType(item.fields), dumps(item))
  }

  /**
   * The rows the loop builds from `items`, or the index of the first item
   * that is not a dict (where `.get` raises).
   */
  function Rows(items: seq<Value>, now: string, dumps: Value -> string): (r: Result<seq<BqRow>, nat>)
    ensures r.Ok? <==> forall k :: 0 <= k < |items| ==> items[k].Object?
    ensures r.Ok? ==> |r.value| == |items|
    ensures r.Ok? ==> forall k :: 0 <= k < |items| ==> r.value[k] == RowOf(items[k], now, dumps)
    ensures r.Err? ==> r.error < |items| && !items[r.error].Object?
    ensures r.Err? ==> forall k :: 0 <= k < r.error ==> items[k].Object?
  {
    if items == [] then Ok([])
    else
      var n := |items| - 1;
      match Rows(items[..n], now, dumps)
      case Err(k) => Err(k)
      case Ok(rows) =>
        if items[n].Object? then Ok(rows + [RowOf(items[n], now, dumps)]) else Err(n)
  }

  /**
   * The loop of `process_sensor_data`: one row per item appended in order,
   * every row carrying the same timestamp.
   */
  method BuildRows(items: seq<Value>, now: string, dumps: Value -> string) returns (r: Result<seq<BqRow>, nat>)
    ensures r == Rows(items, now, dumps)
    ensures r.Ok? ==> forall k :: 0 <= k < |r.value| ==> r.value[k].ingestTimestamp == now
  {
    var rows := [];
    var i := 0;
    while i < |items|
      invariant 0 <= i <= |items|
      invariant Rows(items[..i], now, dumps) == Ok(rows)
    {
      assert items[..i + 1][..i] == items[..i];
      var item := items[i];
      if !item.Object? {
        return Err(i);
      }
      rows := rows + [RowOf(item, now, dumps)];
      i := i + 1;
    }
    assert items[..i] == items;
    return Ok(rows);
  }

  /** The handler as a whole, for a message `event`. */
  function Process(event: map<string, string>, now: string, decode: string -> Option<Value>,
                   dumps: Value -> string, insert: seq<BqRow> -> Option<seq<RowError>>): Run
  {
    if "data" !in event then Run(Raised(MissingData), [])
    else match decode(event["data"])
      case None => Run(Raised(Undecodable), [])
      case Some(payload) =>
        match Rows(AsList(payload), now, dumps)
        case Err(k) => Run(Raised(NotAnObject(k)), [])
        case Ok(rows) =>
          if rows == [] then Run(Returned, [])
          else match insert(rows)
            case None => Run(Raised(ClientFailure), [rows])
            case Some(errors) =>
              if errors == [] then Run(Returned, [rows])
              else Run(Raised(InsertErrors(errors)), [rows])
  }

  /**
   * `process_sensor_data`: decode the message, build the rows, submit them
   * in one insert unless there are none, and raise on any error.
   */
  method ProcessSensorData(event: map<string, string>, now: string, decode: string -> Option<Value>,
                           dumps: Value -> string, insert: seq<BqRow> -> Option<seq<RowError>>)
    returns (run: Run)
    ensures run == Process(event, now, decode, dumps, insert)
  {
    if "data" !in event {
      return Run(Raised(MissingData), []);
    }
    var payload := decode(event["data"]);
    if payload.None? {
      return Run(Raised(Undecodable), []);
    }
    var items := AsList(payload.value);
    var built := BuildRows(items, now, dumps);
    if built.Err? {
      return Run(Raised(NotAnObject(built.error)), []);
    }
    var rows := built.value;
    if rows == [] {
      return Run(Returned, []);
    }
    var errors := insert(rows);
    if errors.None? {
      return Run(Raised(ClientFailure), [rows]);
    }
    if errors.value == [] {
      return Run(Returned, [rows]);
    }
    return Run(Raised(InsertErrors(errors.value)), [rows]);
  }
}
