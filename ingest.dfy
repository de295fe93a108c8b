/**
 * The synchronous `POST /ingest` handler: a request body that is one JSON
 * object or a list of them becomes one `sensor_data` row per item, all
 * inserted on one connection and committed together.
 *
 * The relational store is a `Database` (its committed table) and the
 * `Connection` the handler opens on it (the rows of the open transaction).
 * Whether the store is reachable and which rows it accepts are fixed
 * properties of the store, given to the model as `online` and `accepts`.
 */
module Ingest {
  import opened Wrappers
  import opened Json

  /** One `INSERT INTO sensor_data (source, device_id, payload)`; `id` and
      `created_at` are assigned by the store. */
  datatype SqlRow = SqlRow(source: Value, deviceId: Value, payload: string)

  /** The exception that ends a request, by where it is raised. */
  datatype Fault =
    | ConnectFailed                 // `db.connect()` raised
    | NotAnObject(index: nat)       // `item.get` on an item that is not a dict
    | InsertRejected(index: nat)    // `conn.execute` raised for this item

  /** The HTTP answer. */
  datatype Response =
    | Success(count: nat)           // {"status": "success", "count": N}, 200
    | NoJsonData                    // {"error": "No JSON data"}, 400
    | ServerError(fault: Fault)     // {"error": str(e)}, 500

  function Status(r: Response): (code: int)
    ensures code in {200, 400, 500}
    ensures code == 200 <==> r.Success?
  {
    match r
    case Success(_) => 200
    case NoJsonData => 400
    case ServerError(_) => 500
  }

  /** What the handler does to a request: its answer and the rows it commits. */
  datatype Effect = Effect(response: Response, committed: seq<SqlRow>)

  /** `not data`, where `None` stands for `request.json` evaluating to None. */
  predicate Falsy(body: Option<Value>)
  {
    body.None? || !Truthy(body.value)
  }

  /** The row issued for one item: `source` and `device_id` default to
      "unknown" when the key is missing (a present null is kept), and the
      payload is the item's `str(...)` rendering, given here as `repr`. */
  function RowOf(item: Value, repr: Value -> string): SqlRow
    requires item.Object?
  {
    SqlRow(Get(item.fields, "source", Unknown), Get(item.fields, "device_id", Unknown), repr(item))
  }

  /** An item the loop gets through: it is a dict and the store takes its row. */
  predicate Clean(item: Value, accepts: SqlRow -> bool, repr: Value -> string)
  {
    item.Object? && accepts(RowOf(item, repr))
  }

  /**
   * The inserts the loop issues over `items`: every row, in item order, or
   * the fault of the first item it cannot get through.
   */
  function Inserts(items: seq<Value>, accepts: SqlRow -> bool, repr: Value -> string): (r: Result<seq<SqlRow>, Fault>)
    ensures r.Ok? <==> forall k :: 0 <= k < |items| ==> Clean(items[k], accepts, repr)
    ensures r.Ok? ==> |r.value| == |items|
    ensures r.Ok? ==> forall k :: 0 <= k < |items| ==> r.value[k] == RowOf(items[k], repr)
    ensures r.Err? ==> !r.error.ConnectFailed? && r.error.index < |items|
    ensures r.Err? ==> forall k :: 0 <= k < r.error.index ==> Clean(items[k], accepts, repr)
    ensures r.Err? ==> !Clean(items[r.error.index], accepts, repr)
    ensures r.Err? ==> (r.error.NotAnObject? <==> !items[r.error.index].Object?)
  {
    if items == [] then Ok([])
    else
      var n := |items| - 1;
      match Inserts(items[..n], accepts, repr)
      case Err(f) => Err(f)
      case Ok(rows) =>
        if !items[n].Object? then Err(NotAnObject(n))
        else if !accepts(RowOf(items[n], repr)) then Err(InsertRejected(n))
        else Ok(rows + [RowOf(items[n], repr)])
  }

  /** The handler as a whole: its answer and what it leaves committed. */
  function Handle(body: Option<Value>, online: bool, accepts: SqlRow -> bool, repr: Value -> string): Effect
  {
    if Falsy(body) then Effect(NoJsonData, [])
    else if !online then Effect(ServerError(ConnectFailed), [])
    else
      var items := AsList(body.value);
      match Inserts(items, accepts, repr)
      case Ok(rows) => Effect(Success(|items|), rows)
      case Err(f) => Effect(ServerError(f), [])
  }

  /** The relational store: the rows committed so far. */
  class Database {
    var table: seq<SqlRow>
    const online: bool
    const accepts: SqlRow -> bool

    constructor (online: bool, accepts: SqlRow -> bool)
      ensures table == [] && this.online == online && this.accepts == accepts
    {
      table := [];
      this.online := online;
      this.accepts := accepts;
    }

    /** `db.connect()`: a fresh connection with an empty transaction, or
        nothing when the store cannot be reached. */
    method Connect() returns (conn: Connection?)
      ensures conn != null <==> online
      ensures conn != null ==> fresh(conn) && conn.db == this && conn.open && conn.pending == []
    {
      if online {
        conn := new Connection(this);
      } else {
        conn := null;
      }
    }
  }

  /** One connection, holding the rows inserted since the last commit. */
  class Connection {
    const db: Database
    var pending: seq<SqlRow>
    var open: bool

    constructor (db: Database)
      ensures this.db == db && pending == [] && open
    {
      this.db := db;
      pending := [];
      open := true;
    }

    /** `conn.execute(INSERT ...)`: false stands for the exception. */
    method Execute(row: SqlRow) returns (ok: bool)
      requires open
      modifies this
      ensures open
      ensures ok == db.accepts(row)
      ensures pending == if ok then old(pending) + [row] else old(pending)
    {
      ok := db.accepts(row);
      if ok {
        pending := pending + [row];
      }
    }

    /** `conn.commit()`: the pending rows become part of the table. */
    method Commit()
      requires open
      modifies this, db
      ensures open && pending == []
      ensures db.table == old(db.table) + old(pending)
    {
      db.table := db.table + pending;
      pending := [];
    }

    /** Leaving the `with` block: whatever was not committed is rolled back. */
    method Close()
      modifies this
      ensures !open && pending == []
    {
      pending := [];
      open := false;
    }
  }

  /**
   * `ingest()`: reject a falsy body with 400; otherwise insert one row per
   * item on one connection, commit once after the last insert and answer
   * 200 with the item count; any exception answers 500 and the connection
   * is closed without committing.
   */
  method Ingest(db: Database, body: Option<Value>, repr: Value -> string) returns (resp: Response)
    modifies db
    ensures resp == Handle(body, db.online, db.accepts, repr).response
    ensures db.table == old(db.table) + Handle(body, db.online, db.accepts, repr).committed
  {
    if body.None? || !Truthy(body.value) {
      return NoJsonData;
    }
    var items := AsList(body.value);
    var conn := db.Connect();
    if conn == null {
      return ServerError(ConnectFailed);
    }
    var i := 0;
    while i < |items|
      invariant 0 <= i <= |items|
      invariant conn.db == db && conn.open && db.table == old(db.table)
      invariant forall k :: 0 <= k < i ==> Clean(items[k], db.accepts, repr)
      invariant Inserts(items[..i], db.accepts, repr) == Ok(conn.pending)
    {
      var item := items[i];
      assert items[..i + 1][..i] == items[..i];
      if !item.Object? {
        conn.Close();
        return ServerError(NotAnObject(i));
      }
      var ok := conn.Execute(RowOf(item, repr));
      if !ok {
        conn.Close();
        return ServerError(InsertRejected(i));
      }
      i := i + 1;
    }
    assert items[..i] == items;
    conn.Commit();
    conn.Close();
    return Success(|items|);
  }
}
