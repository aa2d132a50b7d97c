/** The abstract storage engine as seen from src/core/database.js: the
    schema of each database it stores, and a log of the module's `open`,
    `transaction`, request, `close` and `deleteDatabase` calls. The calls
    an upgrade makes (`objectStoreNames.contains`, `createObjectStore`,
    `createIndex`) show up only in the stored schema. */
module Engine {
  import opened Values
  import opened Upgrade

  /** An open connection, tagged with the name and version it was opened
      with. */
  datatype Conn = Conn(dbName: string, version: int)

  /** Transaction modes. */
  datatype Mode = ReadOnly | ReadWrite

  /** The operations of the facade. */
  datatype Operation = Get | GetAll | Add | Put | Delete | Count | AddAll

  /** The object-store primitives the facade dispatches to by name;
      `addAll` has none of its own. */
  type Primitive = op: Operation | op != AddAll witness Get

  /** One call the module makes into the engine. */
  datatype EngineCall =
    | Open(dbName: string, version: int)
    | BeginTransaction(storeName: string, mode: Mode)
    | Request(primitive: Primitive, args: seq<Value>)
    | CloseConnection(conn: Conn)
    | DeleteDatabase(name: string)

  /** How the engine answers an `open`: whether it fires
      `onupgradeneeded` first, and whether the open then succeeds. */
  datatype OpenOutcome = OpenOutcome(upgradeNeeded: bool, succeeds: bool)

  /** How the engine answers a request: with a result or an error. */
  datatype Reply = Resolved(result: Value) | Rejected

  /** The reasons a facade call rejects. */
  datatype Error =
    | OpenFailed
    | RequestFailed(primitive: Primitive, storeName: string)
    | AddAllFailed(storeName: string)
    | AddThrew(storeName: string, index: nat)
    | DeleteFailed(name: string)

  /** The module variable `dbInstance`, the engine's stored databases,
      and the log of engine calls so far. */
  datatype State = State(dbInstance: Option<Conn>, stored: map<string, Schema>, log: seq<EngineCall>)

  /** The schema of a stored database; a database that does not exist yet
      has no stores. */
  function SchemaOf(stored: map<string, Schema>, name: string): Schema {
    if name in stored then stored[name] else map[]
  }

  /** The number of `open` calls in a log. */
  function Opens(log: seq<EngineCall>): nat {
    if log == [] then 0
    else Opens(log[..|log| - 1]) + (if log[|log| - 1].Open? then 1 else 0)
  }

  /** The most recent `open` call in a log, if any. */
  function LastOpen(log: seq<EngineCall>): Option<EngineCall> {
    if log == [] then None
    else if log[|log| - 1].Open? then Some(log[|log| - 1])
    else LastOpen(log[..|log| - 1])
  }

  /** A log without `open` calls. */
  predicate NoOpens(calls: seq<EngineCall>) {
    forall k :: 0 <= k < |calls| ==> !calls[k].Open?
  }

  /** Open calls add up across concatenated logs. */
  lemma {:induction false} OpensAppend(a: seq<EngineCall>, b: seq<EngineCall>)
    ensures Opens(a + b) == Opens(a) + Opens(b)
    decreases |b|
  {
    if b == [] {
      assert a + b == a;
    } else {
      var init := b[..|b| - 1];
      assert (a + b)[..|a + b| - 1] == a + init;
      OpensAppend(a, init);
    }
  }

  /** Appending calls that are not opens keeps the open count and the
      most recent open. */
  lemma {:induction false} NoOpensAppend(a: seq<EngineCall>, b: seq<EngineCall>)
    requires NoOpens(b)
    ensures Opens(a + b) == Opens(a)
    ensures LastOpen(a + b) == LastOpen(a)
    decreases |b|
  {
    if b == [] {
      assert a + b == a;
    } else {
      var init := b[..|b| - 1];
      assert (a + b)[..|a + b| - 1] == a + init;
      assert (a + b)[|a + b| - 1] == b[|b| - 1];
      NoOpensAppend(a, init);
    }
  }

  /** The cached connection, when there is one, carries the name and
      version of the most recent `open` in the log. */
  ghost predicate Consistent(st: State) {
    st.dbInstance.Some? ==>
      LastOpen(st.log) == Some(Open(st.dbInstance.value.dbName, st.dbInstance.value.version))
  }
}
