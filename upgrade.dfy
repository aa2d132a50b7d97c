/** The `onupgradeneeded` handler of `openDatabase`
    (src/core/database.js:23-33): for every store configuration whose
    store does not exist yet, create the store and then its indexes. */
module Upgrade {
  import opened Values
  import opened Config

  datatype IndexSchema = IndexSchema(name: string, keyPath: string, unique: bool)

  datatype StoreSchema = StoreSchema(keyPath: string, indexes: seq<IndexSchema>)

  /** The object stores of one database, by name. */
  type Schema = map<string, StoreSchema>

  /** The name a configuration's store is created under. An absent
      `storeName` reaches the engine as `undefined`, which it converts to
      the string "undefined". */
  function StoreNameOf(c: StoreConfig): string {
    c.storeName.GetOr("undefined")
  }

  /** `storeConfig.keyPath || effectiveConfig.keyPath`. */
  function KeyPathOf(c: StoreConfig, fallback: string): string {
    if c.keyPath.Some? && c.keyPath.value != "" then c.keyPath.value else fallback
  }

  /** `createIndex(index.name, index.keyPath, { unique: index.unique })`. */
  function IndexSchemaOf(ix: IndexConfig): IndexSchema {
    IndexSchema(ix.name, ix.keyPath, ix.unique.GetOr(false))
  }

  /** `storeConfig.indexes && storeConfig.indexes.forEach(...)`. */
  function IndexList(c: StoreConfig): seq<IndexConfig> {
    c.indexes.GetOr([])
  }

  /** The indexes created, in list order. */
  function IndexSchemas(ixs: seq<IndexConfig>): (r: seq<IndexSchema>)
    ensures |r| == |ixs|
    ensures forall j :: 0 <= j < |ixs| ==> r[j] == IndexSchemaOf(ixs[j])
  {
    if ixs == [] then []
    else IndexSchemas(ixs[..|ixs| - 1]) + [IndexSchemaOf(ixs[|ixs| - 1])]
  }

  /** The store that the handler creates for configuration `c`. */
  function NewStore(c: StoreConfig, fallback: string): StoreSchema {
    StoreSchema(KeyPathOf(c, fallback), IndexSchemas(IndexList(c)))
  }

  /** One iteration of the handler's `forEach`. */
  function Step(s: Schema, c: StoreConfig, fallback: string): Schema {
    var name := StoreNameOf(c);
    if name in s then s else s[name := NewStore(c, fallback)]
  }

  /** The schema after the handler has walked `configs` in order. */
  function Upgraded(s: Schema, configs: seq<StoreConfig>, fallback: string): Schema
    decreases |configs|
  {
    if configs == [] then s
    else Step(Upgraded(s, configs[..|configs| - 1], fallback), configs[|configs| - 1], fallback)
  }

  /** The store names the configurations mention. */
  function Names(configs: seq<StoreConfig>): set<string> {
    set c | c in configs :: StoreNameOf(c)
  }

  /** A new store gets its own key path when that is truthy and the
      fallback otherwise, and exactly the listed indexes, in order. */
  lemma NewStoreShape(c: StoreConfig, fallback: string)
    ensures NewStore(c, fallback).keyPath ==
      if c.keyPath.Some? && c.keyPath.value != "" then c.keyPath.value else fallback
    ensures c.indexes.None? ==> NewStore(c, fallback).indexes == []
    ensures c.indexes.Some? ==> |NewStore(c, fallback).indexes| == |c.indexes.value|
    ensures c.indexes.Some? ==> forall j :: 0 <= j < |c.indexes.value| ==>
      var ix := c.indexes.value[j];
      NewStore(c, fallback).indexes[j] == IndexSchema(ix.name, ix.keyPath, ix.unique == Some(true))
  {
  }

  /** The names of a list are those of all but its last entry plus the last one's. */
  lemma NamesOfPrefix(configs: seq<StoreConfig>)
    requires configs != []
    ensures Names(configs) == Names(configs[..|configs| - 1]) + {StoreNameOf(configs[|configs| - 1])}
  {
  }

  /** After the upgrade the schema holds exactly the stores it held before
      plus one per configured name. */
  lemma {:induction false} UpgradedKeys(s: Schema, configs: seq<StoreConfig>, fallback: string)
    ensures Upgraded(s, configs, fallback).Keys == s.Keys + Names(configs)
    decreases |configs|
  {
    if configs != [] {
      UpgradedKeys(s, configs[..|configs| - 1], fallback);
      NamesOfPrefix(configs);
    }
  }

  /** Stores that already exist are neither recreated nor given indexes. */
  lemma {:induction false} UpgradedKeepsExisting(s: Schema, configs: seq<StoreConfig>, fallback: string)
    ensures forall n :: n in s ==> n in Upgraded(s, configs, fallback) && Upgraded(s, configs, fallback)[n] == s[n]
    decreases |configs|
  {
    if configs != [] {
      UpgradedKeepsExisting(s, configs[..|configs| - 1], fallback);
    }
  }

  /** With duplicate names the first configuration for a name decides
      the store created under it. */
  lemma {:induction false} FirstConfigWins(s: Schema, configs: seq<StoreConfig>, fallback: string, i: nat)
    requires i < |configs|
    requires StoreNameOf(configs[i]) !in s
    requires forall j :: 0 <= j < i ==> StoreNameOf(configs[j]) != StoreNameOf(configs[i])
    ensures StoreNameOf(configs[i]) in Upgraded(s, configs, fallback)
    ensures Upgraded(s, configs, fallback)[StoreNameOf(configs[i])] == NewStore(configs[i], fallback)
    decreases |configs|
  {
    var init := configs[..|configs| - 1];
    var name := StoreNameOf(configs[i]);
    if i == |configs| - 1 {
      UpgradedKeys(s, init, fallback);
      assert name !in Names(init) by {
        forall c | c in init ensures StoreNameOf(c) != name {
          var j :| 0 <= j < |init| && init[j] == c;
        }
      }
    } else {
      FirstConfigWins(s, init, fallback, i);
    }
  }

  /** Running the handler over configurations whose names all exist
      changes nothing. */
  lemma {:induction false} UpgradedNoOp(s: Schema, configs: seq<StoreConfig>, fallback: string)
    requires Names(configs) <= s.Keys
    ensures Upgraded(s, configs, fallback) == s
    decreases |configs|
  {
    if configs != [] {
      NamesOfPrefix(configs);
      UpgradedNoOp(s, configs[..|configs| - 1], fallback);
    }
  }

  /** Running the upgrade twice gives the schema of running it once. */
  lemma UpgradeIdempotent(s: Schema, configs: seq<StoreConfig>, fallback: string)
    ensures Upgraded(Upgraded(s, configs, fallback), configs, fallback) == Upgraded(s, configs, fallback)
  {
    UpgradedKeys(s, configs, fallback);
    UpgradedNoOp(Upgraded(s, configs, fallback), configs, fallback);
  }

  /** The database handle the engine passes to `onupgradeneeded`; its
      store list is changed in place by `createObjectStore` and
      `createIndex`. */
  class UpgradeTransaction {
    var stores: Schema

    constructor (stores: Schema)
      ensures this.stores == stores
    {
      this.stores := stores;
    }

    /** `db.objectStoreNames.contains(name)`. */
    method Contains(name: string) returns (b: bool)
      ensures b <==> name in stores
    {
      b := name in stores;
    }

    /** `db.createObjectStore(name, { keyPath })`; the handler calls it
        only for a name that is not yet present. */
    method CreateObjectStore(name: string, keyPath: string)
      requires name !in stores
      modifies this
      ensures stores == old(stores)[name := StoreSchema(keyPath, [])]
    {
      stores := stores[name := StoreSchema(keyPath, [])];
    }

    /** `store.createIndex(...)` on the store just created. */
    method CreateIndex(storeName: string, index: IndexSchema)
      requires storeName in stores
      modifies this
      ensures stores == old(stores)[storeName :=
        old(stores)[storeName].(indexes := old(stores)[storeName].indexes + [index])]
    {
      var store := stores[storeName];
      stores := stores[storeName := store.(indexes := store.indexes + [index])];
    }

    /** The handler body: walk every configuration, skipping stores that
        exist and creating the others with their indexes. */
    method OnUpgradeNeeded(configs: seq<StoreConfig>, fallback: string)
      modifies this
      ensures stores == Upgraded(old(stores), configs, fallback)
    {
      var i := 0;
      while i < |configs|
        invariant 0 <= i <= |configs|
        invariant stores == Upgraded(old(stores), configs[..i], fallback)
      {
        var c := configs[i];
        var name := StoreNameOf(c);
        assert configs[..i + 1][..i] == configs[..i];
        var present := Contains(name);
        if !present {
          var keyPath := KeyPathOf(c, fallback);
          CreateObjectStore(name, keyPath);
          var ixs := IndexList(c);
          var j := 0;
          while j < |ixs|
            invariant 0 <= j <= |ixs|
            invariant stores ==
              Upgraded(old(stores), configs[..i], fallback)[name := StoreSchema(keyPath, IndexSchemas(ixs[..j]))]
          {
            assert ixs[..j + 1][..j] == ixs[..j];
            CreateIndex(name, IndexSchemaOf(ixs[j]));
            j := j + 1;
          }
          assert ixs[..|ixs|] == ixs;
        }
        i := i + 1;
      }
      assert configs[..|configs|] == configs;
    }
  }
}
