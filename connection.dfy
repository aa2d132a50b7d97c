/** The connection cache of src/core/database.js: `openDatabase`
    (lines 10-42), `close` (lines 134-139) and `destroy` (lines 89-103),
    each as a transition of the module state and the engine. */
module Connection {
  import opened Values
  import opened Config
  import opened Upgrade
  import opened Engine

  /** `openDatabase(storeConfigs)`: the cached connection when there is
      one; otherwise one engine `open` of the effective name and version,
      whose upgrade (when the engine fires it) is committed only if the
      open succeeds, and whose connection is cached only on success. */
  function OpenStep(st: State, configs: seq<StoreConfig>, open: OpenOutcome): (State, Result<Conn, Error>) {
    if st.dbInstance.Some? then (st, Ok(st.dbInstance.value))
    else
      var name := DbName(configs);
      var conn := Conn(name, DbVersion(configs));
      var log := st.log + [Open(name, conn.version)];
      if !open.succeeds then (st.(log := log), Err(OpenFailed))
      else
        var stored :=
          if open.upgradeNeeded
          then st.stored[name := Upgraded(SchemaOf(st.stored, name), configs, FallbackKeyPath(configs))]
          else st.stored;
        (State(Some(conn), stored, log), Ok(conn))
  }

  /** `close()`: closes and forgets a cached connection, otherwise does
      nothing. */
  function CloseStep(st: State): State {
    if st.dbInstance.Some?
    then st.(dbInstance := None, log := st.log + [CloseConnection(st.dbInstance.value)])
    else st
  }

  /** `destroy(database = DEFAULT_CONFIG.dbName)`: the database name. */
  function DatabaseNameOr(name: Option<string>): string {
    name.GetOr(DefaultConfig.dbName.value)
  }

  /** `destroy(name)`: one engine `deleteDatabase`; when it succeeds the
      database is gone and the cache is cleared as `close()` clears it,
      whatever database the cached connection belongs to. */
  function DestroyStep(st: State, name: string, succeeds: bool): (State, Result<string, Error>) {
    var log := st.log + [DeleteDatabase(name)];
    if succeeds
    then (CloseStep(st.(stored := st.stored - {name}, log := log)),
          Ok("Database " + name + " deleted successfully."))
    else (st.(log := log), Err(DeleteFailed(name)))
  }

  /** A cached connection is returned as it is, whatever configurations
      the caller passes, without calling the engine. */
  lemma CachedOpenSkipsEngine(st: State, configs: seq<StoreConfig>, open: OpenOutcome)
    requires st.dbInstance.Some?
    ensures OpenStep(st, configs, open) == (st, Ok(st.dbInstance.value))
  {
  }

  /** Without a cached connection, exactly one `open` is issued; success
      caches the connection of the effective name and version, failure
      rejects and leaves the cache empty and the schema untouched, and an
      open the engine does not upgrade leaves the schema untouched too. */
  lemma UncachedOpenCallsEngineOnce(st: State, configs: seq<StoreConfig>, open: OpenOutcome)
    requires st.dbInstance.None?
    ensures var (st', r) := OpenStep(st, configs, open);
      && Opens(st'.log) == Opens(st.log) + 1
      && (r.Ok? <==> open.succeeds)
      && (r.Ok? ==> r.value == Conn(DbName(configs), DbVersion(configs)) && st'.dbInstance == Some(r.value))
      && (r.Err? ==> st'.dbInstance == None && st'.stored == st.stored)
      && (!open.upgradeNeeded ==> st'.stored == st.stored)
  {
  }

  /** A successful open with an upgrade leaves every configured store in
      the opened database, and no store that existed before is altered. */
  lemma OpenCreatesConfiguredStores(st: State, configs: seq<StoreConfig>, open: OpenOutcome)
    requires st.dbInstance.None? && open.succeeds && open.upgradeNeeded
    ensures var (st', _) := OpenStep(st, configs, open);
      var before := SchemaOf(st.stored, DbName(configs));
      && DbName(configs) in st'.stored
      && st'.stored[DbName(configs)].Keys == before.Keys + Names(configs)
      && forall n :: n in before ==> st'.stored[DbName(configs)][n] == before[n]
  {
    var before := SchemaOf(st.stored, DbName(configs));
    UpgradedKeys(before, configs, FallbackKeyPath(configs));
    UpgradedKeepsExisting(before, configs, FallbackKeyPath(configs));
  }

  /** Opening, closing and opening again with the same configurations
      migrates once: the second upgrade leaves the stored schema as the
      first one left it. */
  lemma ReopenMigratesOnce(st: State, configs: seq<StoreConfig>, first: OpenOutcome, second: OpenOutcome)
    requires st.dbInstance.None? && first.succeeds && first.upgradeNeeded
    ensures var st1 := OpenStep(st, configs, first).0;
      var st2 := OpenStep(CloseStep(st1), configs, second).0;
      st2.stored == st1.stored
  {
    var name := DbName(configs);
    var fallback := FallbackKeyPath(configs);
    var st1 := OpenStep(st, configs, first).0;
    assert st1.stored[name] == Upgraded(SchemaOf(st.stored, name), configs, fallback);
    UpgradeIdempotent(SchemaOf(st.stored, name), configs, fallback);
    assert SchemaOf(CloseStep(st1).stored, name) == st1.stored[name];
  }

  /** `close()` twice is `close()` once. */
  lemma CloseIdempotent(st: State)
    ensures CloseStep(CloseStep(st)) == CloseStep(st)
    ensures CloseStep(st).dbInstance == None
  {
  }

  /** After `close()` the next open calls the engine again. */
  lemma OpenAfterCloseCallsEngine(st: State, configs: seq<StoreConfig>, open: OpenOutcome)
    ensures Opens(OpenStep(CloseStep(st), configs, open).0.log) == Opens(st.log) + 1
  {
  }

  /** A successful delete removes that database alone and clears the
      cache whichever database it deleted; a failed one leaves the cache
      and the stored databases alone. */
  lemma DestroyClearsCacheOnSuccess(st: State, name: string, succeeds: bool)
    ensures var (st', r) := DestroyStep(st, name, succeeds);
      && (r.Ok? <==> succeeds)
      && (succeeds ==> st'.dbInstance == None && st'.stored == st.stored - {name})
      && (!succeeds ==> st'.dbInstance == st.dbInstance && st'.stored == st.stored)
      && Opens(st'.log) == Opens(st.log)
  {
  }

  /** The default name `destroy` deletes is the default database's, not
      the effective configuration's: a facade configured with another
      database name deletes "indexedDB" when called without an argument. */
  lemma DestroyDefaultIgnoresConfig()
    ensures DatabaseNameOr(None) == "indexedDB"
    ensures var configs := [StoreConfig(None, Some("app"), None, None, None)];
      DbName(configs) == "app" && DatabaseNameOr(None) != DbName(configs)
  {
  }

  /** Every transition keeps the cached connection the most recently
      opened one. */
  lemma StepsPreserveConsistent(st: State, configs: seq<StoreConfig>, open: OpenOutcome, name: string, succeeds: bool)
    requires Consistent(st)
    ensures Consistent(OpenStep(st, configs, open).0)
    ensures Consistent(CloseStep(st))
    ensures Consistent(DestroyStep(st, name, succeeds).0)
  {
  }
}
