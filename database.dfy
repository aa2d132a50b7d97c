/** src/core/database.js as stateful code: the module variable
    `dbInstance` with the engine behind it (class Runtime), and the object
    the exported factory `database(storeConfigs)` returns (class Facade).
    Every facade shares the one Runtime, as every facade shares the one
    module variable. */
module Database {
  import opened Values
  import opened Config
  import opened Upgrade
  import opened Engine
  import opened Connection
  import opened Requests

  /** The module state of database.js and the abstract engine it uses. */
  class Runtime {
    /** `let dbInstance = null` */
    var dbInstance: Option<Conn>
    /** The engine's databases and their object stores. */
    var stored: map<string, Schema>
    /** Every call made into the engine, in order. */
    var log: seq<EngineCall>

    function Snapshot(): State
      reads this
    {
      State(dbInstance, stored, log)
    }

    ghost predicate Valid()
      reads this
    {
      Consistent(Snapshot())
    }

    /** The module as loaded: nothing cached, whatever the engine already
        stores. */
    constructor (stored: map<string, Schema>)
      ensures Valid()
      ensures dbInstance == None && this.stored == stored && log == []
    {
      dbInstance := None;
      this.stored := stored;
      log := [];
    }

    /** `openDatabase(storeConfigs)`. */
    method OpenDatabase(configs: seq<StoreConfig>, open: OpenOutcome) returns (r: Result<Conn, Error>)
      requires Valid()
      modifies this
      ensures Valid()
      ensures (Snapshot(), r) == OpenStep(old(Snapshot()), configs, open)
    {
      StepsPreserveConsistent(Snapshot(), configs, open, "", false);
      if dbInstance.Some? {
        return Ok(dbInstance.value);
      }
      var effective := EffectiveConfig(configs);
      var name := effective.dbName.value;
      var version := effective.dbVersion.value;
      log := log + [Open(name, version)];
      var schema := SchemaOf(stored, name);
      if open.upgradeNeeded {
        var db := new UpgradeTransaction(schema);
        db.OnUpgradeNeeded(configs, effective.keyPath.value);
        schema := db.stores;
      }
      if open.succeeds {
        if open.upgradeNeeded {
          stored := stored[name := schema];
        }
        dbInstance := Some(Conn(name, version));
        r := Ok(Conn(name, version));
      } else {
        r := Err(OpenFailed);
      }
    }

    /** `executeRequest(storeConfigs, storeName, mode, operation, data)`. */
    method ExecuteRequest(configs: seq<StoreConfig>, storeName: string, mode: Mode, primitive: Primitive,
                          data: Value, open: OpenOutcome, reply: Reply) returns (r: Result<Value, Error>)
      requires Valid()
      modifies this
      ensures Valid()
      ensures (Snapshot(), r) ==
        RequestStep(old(Snapshot()), configs, open, storeName, mode, primitive, RequestArgs(data), reply)
    {
      RequestStepShape(Snapshot(), configs, open, storeName, mode, primitive, RequestArgs(data), reply);
      var c := OpenDatabase(configs, open);
      if c.Err? {
        return Err(c.error);
      }
      var args := RequestArgs(data);
      log := log + [BeginTransaction(storeName, mode), Request(primitive, args)];
      r := if reply.Resolved? then Ok(reply.result) else Err(RequestFailed(primitive, storeName));
    }
  }

  /** The object `database(storeConfigs)` returns. */
  class Facade {
    const runtime: Runtime
    const storeConfigs: seq<StoreConfig>

    /** `database(storeConfigs = [DEFAULT_CONFIG])`. */
    constructor (runtime: Runtime, storeConfigs: Option<seq<StoreConfig>>)
      ensures this.runtime == runtime
      ensures this.storeConfigs == ConfigsOrDefault(storeConfigs)
    {
      this.runtime := runtime;
      this.storeConfigs := ConfigsOrDefault(storeConfigs);
    }

    method Get(key: Value, storeName: Option<string>, open: OpenOutcome, reply: Reply) returns (r: Result<Value, Error>)
      requires runtime.Valid()
      modifies runtime
      ensures runtime.Valid()
      ensures (runtime.Snapshot(), r) == RequestStep(old(runtime.Snapshot()), storeConfigs, open,
        StoreNameOr(storeName), ModeOf(Operation.Get), PrimitiveOf(Operation.Get), RequestArgs(key), reply)
    {
      r := runtime.ExecuteRequest(storeConfigs, StoreNameOr(storeName), ReadOnly, Operation.Get, key, open, reply);
    }

    method GetAll(storeName: Option<string>, open: OpenOutcome, reply: Reply) returns (r: Result<Value, Error>)
      requires runtime.Valid()
      modifies runtime
      ensures runtime.Valid()
      ensures (runtime.Snapshot(), r) == RequestStep(old(runtime.Snapshot()), storeConfigs, open,
        StoreNameOr(storeName), ModeOf(Operation.GetAll), PrimitiveOf(Operation.GetAll), [], reply)
    {
      var name := StoreNameOr(storeName);
      RequestStepShape(runtime.Snapshot(), storeConfigs, open, name, ReadOnly, Operation.GetAll, [], reply);
      var c := runtime.OpenDatabase(storeConfigs, open);
      if c.Err? {
        return Err(c.error);
      }
      runtime.log := runtime.log + [BeginTransaction(name, ReadOnly), Request(Operation.GetAll, [])];
      r := if reply.Resolved? then Ok(reply.result) else Err(RequestFailed(Operation.GetAll, name));
    }

    method Add(data: Value, storeName: Option<string>, open: OpenOutcome, reply: Reply) returns (r: Result<Value, Error>)
      requires runtime.Valid()
      modifies runtime
      ensures runtime.Valid()
      ensures (runtime.Snapshot(), r) == RequestStep(old(runtime.Snapshot()), storeConfigs, open,
        StoreNameOr(storeName), ModeOf(Operation.Add), PrimitiveOf(Operation.Add), RequestArgs(data), reply)
    {
      r := runtime.ExecuteRequest(storeConfigs, StoreNameOr(storeName), ReadWrite, Operation.Add, data, open, reply);
    }

    method Put(data: Value, storeName: Option<string>, open: OpenOutcome, reply: Reply) returns (r: Result<Value, Error>)
      requires runtime.Valid()
      modifies runtime
      ensures runtime.Valid()
      ensures (runtime.Snapshot(), r) == RequestStep(old(runtime.Snapshot()), storeConfigs, open,
        StoreNameOr(storeName), ModeOf(Operation.Put), PrimitiveOf(Operation.Put), RequestArgs(data), reply)
    {
      r := runtime.ExecuteRequest(storeConfigs, StoreNameOr(storeName), ReadWrite, Operation.Put, data, open, reply);
    }

    method Delete(key: Value, storeName: Option<string>, open: OpenOutcome, reply: Reply) returns (r: Result<Value, Error>)
      requires runtime.Valid()
      modifies runtime
      ensures runtime.Valid()
      ensures (runtime.Snapshot(), r) == RequestStep(old(runtime.Snapshot()), storeConfigs, open,
        StoreNameOr(storeName), ModeOf(Operation.Delete), PrimitiveOf(Operation.Delete), RequestArgs(key), reply)
    {
      r := runtime.ExecuteRequest(storeConfigs, StoreNameOr(storeName), ReadWrite, Operation.Delete, key, open, reply);
    }

    /** `destroy(database = DEFAULT_CONFIG.dbName)`. */
    method Destroy(database: Option<string>, succeeds: bool) returns (r: Result<string, Error>)
      requires runtime.Valid()
      modifies runtime
      ensures runtime.Valid()
      ensures (runtime.Snapshot(), r) == DestroyStep(old(runtime.Snapshot()), DatabaseNameOr(database), succeeds)
    {
      var name := DatabaseNameOr(database);
      StepsPreserveConsistent(runtime.Snapshot(), [], OpenOutcome(false, false), name, succeeds);
      runtime.log := runtime.log + [DeleteDatabase(name)];
      if succeeds {
        runtime.stored := runtime.stored - {name};
        if runtime.dbInstance.Some? {
          runtime.log := runtime.log + [CloseConnection(runtime.dbInstance.value)];
          runtime.dbInstance := None;
        }
        r := Ok("Database " + name + " deleted successfully.");
      } else {
        r := Err(DeleteFailed(name));
      }
    }

    /** `addAll(items, storeName)`: the `forEach` ends early when an
        `add` throws, and the call then rejects with that exception. */
    method AddAll(items: seq<Value>, storeName: Option<string>, open: OpenOutcome, throwsAt: Option<nat>,
                  completes: bool) returns (r: Result<Value, Error>)
      requires runtime.Valid()
      modifies runtime
      ensures runtime.Valid()
      ensures (runtime.Snapshot(), r) ==
        AddAllStep(old(runtime.Snapshot()), storeConfigs, open, StoreNameOr(storeName), items, throwsAt, completes)
    {
      var name := StoreNameOr(storeName);
      var c := runtime.OpenDatabase(storeConfigs, open);
      if c.Err? {
        return Err(c.error);
      }
      ghost var afterOpen := runtime.Snapshot();
      runtime.log := runtime.log + [BeginTransaction(name, ReadWrite)];
      var i := 0;
      while i < |items| && throwsAt != Some(i)
        invariant 0 <= i <= |items|
        invariant throwsAt.Some? ==> i <= throwsAt.value
        invariant runtime.log == afterOpen.log + [BeginTransaction(name, ReadWrite)] + AddRequests(items[..i])
        invariant runtime.dbInstance == afterOpen.dbInstance && runtime.stored == afterOpen.stored
      {
        assert items[..i + 1][..i] == items[..i];
        assert AddRequests(items[..i + 1]) == AddRequests(items[..i]) + [Request(Operation.Add, [items[i]])];
        runtime.log := runtime.log + [Request(Operation.Add, [items[i]])];
        i := i + 1;
      }
      assert items[..|items|] == items;
      assert AddThrows(items, throwsAt) <==> i < |items|;
      assert IssuedItems(items, throwsAt) == items[..i];
      assert runtime.log == afterOpen.log + AddAllCalls(name, items, throwsAt);
      r := if i < |items| then Err(AddThrew(name, i))
           else if completes then Ok(Undefined) else Err(AddAllFailed(name));
      AddAllAfterOpen(old(runtime.Snapshot()), storeConfigs, open, name, items, throwsAt, completes);
    }

    method Count(storeName: Option<string>, open: OpenOutcome, reply: Reply) returns (r: Result<Value, Error>)
      requires runtime.Valid()
      modifies runtime
      ensures runtime.Valid()
      ensures (runtime.Snapshot(), r) == RequestStep(old(runtime.Snapshot()), storeConfigs, open,
        StoreNameOr(storeName), ModeOf(Operation.Count), PrimitiveOf(Operation.Count), [], reply)
    {
      var name := StoreNameOr(storeName);
      RequestStepShape(runtime.Snapshot(), storeConfigs, open, name, ReadOnly, Operation.Count, [], reply);
      var c := runtime.OpenDatabase(storeConfigs, open);
      if c.Err? {
        return Err(c.error);
      }
      runtime.log := runtime.log + [BeginTransaction(name, ReadOnly), Request(Operation.Count, [])];
      r := if reply.Resolved? then Ok(reply.result) else Err(RequestFailed(Operation.Count, name));
    }

    /** `close()`. */
    method Close()
      requires runtime.Valid()
      modifies runtime
      ensures runtime.Valid()
      ensures runtime.Snapshot() == CloseStep(old(runtime.Snapshot()))
    {
      if runtime.dbInstance.Some? {
        runtime.log := runtime.log + [CloseConnection(runtime.dbInstance.value)];
        runtime.dbInstance := None;
      }
    }
  }

  /** Two facades built over different configurations share the module's
      connection: two reads open the engine once, on the first facade's
      database. */
  method TwoFacadesShareOneOpen(configsA: seq<StoreConfig>, configsB: seq<StoreConfig>, key: Value)
    returns (opens: nat, conn: Option<Conn>)
    ensures opens == 1
    ensures conn == Some(Conn(DbName(configsA), DbVersion(configsA)))
  {
    var runtime := new Runtime(map[]);
    var a := new Facade(runtime, Some(configsA));
    var b := new Facade(runtime, Some(configsB));
    ghost var st := runtime.Snapshot();
    var outcome := OpenOutcome(true, true);
    var _ := a.Get(key, None, outcome, Resolved(Undefined));
    var _ := b.Get(key, None, outcome, Resolved(Undefined));
    TwoRequestsOpenOnce(st, configsA, configsB, outcome, outcome, "store", ReadOnly, Get,
      RequestArgs(key), Resolved(Undefined), Resolved(Undefined));
    opens := Opens(runtime.log);
    conn := runtime.dbInstance;
  }

  /** `close()` between two reads makes the second read open the engine
      again. */
  method CloseForcesReopen(configs: seq<StoreConfig>) returns (opens: nat)
    ensures opens == 2
  {
    var runtime := new Runtime(map[]);
    var facade := new Facade(runtime, Some(configs));
    var outcome := OpenOutcome(true, true);
    ghost var st0 := runtime.Snapshot();
    var _ := facade.Count(None, outcome, Resolved(Number(0)));
    ghost var st1 := runtime.Snapshot();
    UncachedOpenCallsEngineOnce(st0, configs, outcome);
    RequestStepShape(st0, configs, outcome, "store", ReadOnly, Count, [], Resolved(Number(0)));
    facade.Close();
    ghost var st2 := runtime.Snapshot();
    OpenAfterCloseCallsEngine(st1, configs, outcome);
    RequestStepShape(st2, configs, outcome, "store", ReadOnly, Count, [], Resolved(Number(0)));
    var _ := facade.Count(None, outcome, Resolved(Number(0)));
    opens := Opens(runtime.log);
  }

  /** Opening a fresh database, closing, and opening again with the engine
      firing the upgrade both times creates each configured store once:
      the second migration leaves the schema as the first left it. */
  method MigrateTwice(configs: seq<StoreConfig>) returns (first: Schema, second: Schema)
    ensures first == second
    ensures first.Keys == Names(configs)
  {
    var runtime := new Runtime(map[]);
    var facade := new Facade(runtime, Some(configs));
    var outcome := OpenOutcome(true, true);
    var name := DbName(configs);
    ghost var st0 := runtime.Snapshot();
    var _ := runtime.OpenDatabase(configs, outcome);
    first := runtime.stored[name];
    UpgradedKeys(map[], configs, FallbackKeyPath(configs));
    facade.Close();
    ReopenMigratesOnce(st0, configs, outcome, outcome);
    var _ := runtime.OpenDatabase(configs, outcome);
    second := runtime.stored[name];
  }
}
