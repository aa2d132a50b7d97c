/** How the facade of src/core/database.js reaches the engine: the fixed
    mode per operation, `executeRequest`'s payload rule (line 48), and the
    single-request and bulk (`addAll`) transactions. */
module Requests {
  import opened Values
  import opened Config
  import opened Engine
  import opened Connection

  /** The mode each facade operation opens its transaction in. */
  function ModeOf(op: Operation): Mode {
    match op
    case Get => ReadOnly
    case GetAll => ReadOnly
    case Count => ReadOnly
    case Add => ReadWrite
    case Put => ReadWrite
    case Delete => ReadWrite
    case AddAll => ReadWrite
  }

  /** The primitive an operation dispatches to; `addAll` issues `add`. */
  function PrimitiveOf(op: Operation): Primitive {
    if op == AddAll then Add else op
  }

  /** The store an operation targets, `DEFAULT_CONFIG.storeName` unless
      the caller names one. */
  function StoreNameOr(storeName: Option<string>): string {
    storeName.GetOr(DefaultConfig.storeName.value)
  }

  /** `data ? objectStore[operation](data) : objectStore[operation]()`:
      the payload is passed exactly when it is truthy. */
  function RequestArgs(data: Value): (args: seq<Value>)
    ensures |args| <= 1
    ensures args == [] <==> !Truthy(data)
    ensures args != [] ==> args[0] == data
  {
    if Truthy(data) then [data] else []
  }

  /** One transaction on one store holding one request: what
      `executeRequest`, `getAll` and `count` do once the connection is
      open. The engine's reply settles the call. */
  function RequestStep(st: State, configs: seq<StoreConfig>, open: OpenOutcome, storeName: string,
                       mode: Mode, primitive: Primitive, args: seq<Value>, reply: Reply): (State, Result<Value, Error>)
  {
    var (st1, c) := OpenStep(st, configs, open);
    if c.Err? then (st1, Err(c.error))
    else
      (st1.(log := st1.log + [BeginTransaction(storeName, mode), Request(primitive, args)]),
       if reply.Resolved? then Ok(reply.result) else Err(RequestFailed(primitive, storeName)))
  }

  /** The `add` requests `addAll` issues: one per item, in list order,
      each carrying its item whatever its truthiness. */
  function AddRequests(items: seq<Value>): (r: seq<EngineCall>)
    ensures |r| == |items|
    ensures forall k :: 0 <= k < |items| ==> r[k] == Request(Add, [items[k]])
  {
    if items == [] then []
    else AddRequests(items[..|items| - 1]) + [Request(Add, [items[|items| - 1]])]
  }

  /** Whether an `add` throws synchronously (an item the store cannot key
      or clone) before `forEach` has walked every item. */
  predicate AddThrows(items: seq<Value>, throwsAt: Option<nat>) {
    throwsAt.Some? && throwsAt.value < |items|
  }

  /** The items whose `add` is issued: all of them, or those before the
      one whose `add` throws, which ends the `forEach`. */
  function IssuedItems(items: seq<Value>, throwsAt: Option<nat>): seq<Value> {
    if AddThrows(items, throwsAt) then items[..throwsAt.value] else items
  }

  /** The calls `addAll` makes once the connection is open: one
      read-write transaction, then the adds it issues. */
  function AddAllCalls(storeName: string, items: seq<Value>, throwsAt: Option<nat>): seq<EngineCall> {
    [BeginTransaction(storeName, ModeOf(AddAll))] + AddRequests(IssuedItems(items, throwsAt))
  }

  /** How `addAll` settles once the connection is open: an `add` that
      throws rejects the call at once; otherwise the transaction's
      `complete` or `error` event settles it. */
  function AddAllOutcome(storeName: string, items: seq<Value>, throwsAt: Option<nat>, completes: bool): Result<Value, Error> {
    if AddThrows(items, throwsAt) then Err(AddThrew(storeName, throwsAt.value))
    else if completes then Ok(Undefined) else Err(AddAllFailed(storeName))
  }

  /** `addAll(items, storeName)`: one transaction holding the adds. */
  function AddAllStep(st: State, configs: seq<StoreConfig>, open: OpenOutcome, storeName: string,
                      items: seq<Value>, throwsAt: Option<nat>, completes: bool): (State, Result<Value, Error>)
  {
    var (st1, c) := OpenStep(st, configs, open);
    if c.Err? then (st1, Err(c.error))
    else (st1.(log := st1.log + AddAllCalls(storeName, items, throwsAt)),
          AddAllOutcome(storeName, items, throwsAt, completes))
  }

  /** `addAll` makes no `open` call of its own. */
  lemma AddAllCallsNoOpens(storeName: string, items: seq<Value>, throwsAt: Option<nat>)
    ensures NoOpens(AddAllCalls(storeName, items, throwsAt))
  {
    var issued := IssuedItems(items, throwsAt);
    var calls := AddAllCalls(storeName, items, throwsAt);
    forall k | 0 <= k < |calls| ensures !calls[k].Open? {
      if k > 0 { assert calls[k] == AddRequests(issued)[k - 1]; }
    }
  }

  /** Reads are read-only, writes read-write. */
  lemma ModesAreFixed(op: Operation)
    ensures ModeOf(op) == ReadOnly <==> op in {Get, GetAll, Count}
    ensures ModeOf(op) == ReadWrite <==> op in {Add, Put, Delete, AddAll}
    ensures op != AddAll ==> PrimitiveOf(op) == op
    ensures PrimitiveOf(AddAll) == Add
    ensures StoreNameOr(None) == "store"
  {
  }

  /** Falsy keys such as `0` and `""` are dropped: the primitive is
      called with no argument at all. */
  lemma FalsyKeysDropped()
    ensures RequestArgs(Number(0)) == []
    ensures RequestArgs(Text("")) == []
    ensures RequestArgs(Number(7)) == [Number(7)]
  {
  }

  /** A request opens at most one connection and issues exactly one
      transaction with one request after it; a rejected request does not
      touch the cached connection. */
  lemma {:induction false} RequestStepShape(st: State, configs: seq<StoreConfig>, open: OpenOutcome, storeName: string,
                                            mode: Mode, primitive: Primitive, args: seq<Value>, reply: Reply)
    requires Consistent(st)
    ensures var (st1, c) := OpenStep(st, configs, open);
      var (st', r) := RequestStep(st, configs, open, storeName, mode, primitive, args, reply);
      && Consistent(st')
      && st'.dbInstance == st1.dbInstance
      && st'.stored == st1.stored
      && Opens(st'.log) == Opens(st1.log)
      && (c.Ok? ==> st'.log == st1.log + [BeginTransaction(storeName, mode), Request(primitive, args)])
      && (r.Ok? <==> c.Ok? && reply.Resolved?)
  {
    var (st1, c) := OpenStep(st, configs, open);
    StepsPreserveConsistent(st, configs, open, "", false);
    var calls := [BeginTransaction(storeName, mode), Request(primitive, args)];
    assert NoOpens(calls);
    NoOpensAppend(st1.log, calls);
  }

  /** `addAll` opens no further connection, keeps the cached connection
      the newest one, and resolves exactly when the open succeeds, no
      `add` throws and the transaction completes. */
  lemma {:induction false} AddAllStepShape(st: State, configs: seq<StoreConfig>, open: OpenOutcome, storeName: string,
                                           items: seq<Value>, throwsAt: Option<nat>, completes: bool)
    requires Consistent(st)
    ensures var (st1, c) := OpenStep(st, configs, open);
      var (st', r) := AddAllStep(st, configs, open, storeName, items, throwsAt, completes);
      && Consistent(st')
      && st'.dbInstance == st1.dbInstance
      && st'.stored == st1.stored
      && Opens(st'.log) == Opens(st1.log)
      && (r.Ok? <==> c.Ok? && !AddThrows(items, throwsAt) && completes)
      && (c.Ok? && AddThrows(items, throwsAt) ==> r == Err(AddThrew(storeName, throwsAt.value)))
  {
    var (st1, c) := OpenStep(st, configs, open);
    StepsPreserveConsistent(st, configs, open, "", false);
    if c.Ok? {
      AddAllCallsNoOpens(storeName, items, throwsAt);
      NoOpensAppend(st1.log, AddAllCalls(storeName, items, throwsAt));
    }
  }

  /** Once the open has succeeded, `addAll` appends its calls to the log
      and settles on its own outcome, keeping the cached connection the
      newest one. */
  lemma AddAllAfterOpen(st: State, configs: seq<StoreConfig>, open: OpenOutcome, storeName: string,
                        items: seq<Value>, throwsAt: Option<nat>, completes: bool)
    requires Consistent(st) && OpenStep(st, configs, open).1.Ok?
    ensures var st1 := OpenStep(st, configs, open).0;
      var (st', r) := AddAllStep(st, configs, open, storeName, items, throwsAt, completes);
      && Consistent(st')
      && st' == st1.(log := st1.log + AddAllCalls(storeName, items, throwsAt))
      && r == AddAllOutcome(storeName, items, throwsAt, completes)
  {
    AddAllStepShape(st, configs, open, storeName, items, throwsAt, completes);
  }

  /** After a successful open, `addAll` issues one read-write transaction
      on the given store followed by one `add` per item, in list order,
      up to and excluding the item whose `add` throws; nothing after it
      is issued. */
  lemma AddAllIssuesInOrder(st: State, configs: seq<StoreConfig>, open: OpenOutcome, storeName: string,
                            items: seq<Value>, throwsAt: Option<nat>, completes: bool)
    requires OpenStep(st, configs, open).1.Ok?
    ensures var log1 := OpenStep(st, configs, open).0.log;
      var log' := AddAllStep(st, configs, open, storeName, items, throwsAt, completes).0.log;
      var n := if AddThrows(items, throwsAt) then throwsAt.value else |items|;
      && |log'| == |log1| + 1 + n
      && log'[|log1|] == BeginTransaction(storeName, ReadWrite)
      && forall k :: 0 <= k < n ==> log'[|log1| + 1 + k] == Request(Add, [items[k]])
  {
  }

  /** Two requests in a row, even from facades built with different
      configurations, share one connection: the engine is opened once and
      the second request runs on the connection the first one cached. */
  lemma TwoRequestsOpenOnce(st: State, configs1: seq<StoreConfig>, configs2: seq<StoreConfig>,
                            open1: OpenOutcome, open2: OpenOutcome, storeName: string, mode: Mode,
                            primitive: Primitive, args: seq<Value>, reply1: Reply, reply2: Reply)
    requires Consistent(st) && st.dbInstance.None? && open1.succeeds
    ensures var st1 := RequestStep(st, configs1, open1, storeName, mode, primitive, args, reply1).0;
      var st2 := RequestStep(st1, configs2, open2, storeName, mode, primitive, args, reply2).0;
      && Opens(st2.log) == Opens(st.log) + 1
      && st2.dbInstance == Some(Conn(DbName(configs1), DbVersion(configs1)))
  {
    var st1 := RequestStep(st, configs1, open1, storeName, mode, primitive, args, reply1).0;
    UncachedOpenCallsEngineOnce(st, configs1, open1);
    RequestStepShape(st, configs1, open1, storeName, mode, primitive, args, reply1);
    RequestStepShape(st1, configs2, open2, storeName, mode, primitive, args, reply2);
  }
}
