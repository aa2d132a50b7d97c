/** Store configurations and the effective configuration that
    `openDatabase` derives from them (src/core/database.js:1-6, 14-17). */
module Config {
  import opened Values

  /** One entry of a store's `indexes` list. A missing `unique` flag is
      left to the engine, whose default is `false`. */
  datatype IndexConfig = IndexConfig(name: string, keyPath: string, unique: Option<bool>)

  /** A store configuration object as the caller writes it: every field
      may be absent. */
  datatype StoreConfig = StoreConfig(
    storeName: Option<string>,
    dbName: Option<string>,
    dbVersion: Option<int>,
    keyPath: Option<string>,
    indexes: Option<seq<IndexConfig>>)

  /** `DEFAULT_CONFIG`: every field but `indexes` is present. */
  const DefaultConfig: StoreConfig :=
    StoreConfig(Some("store"), Some("indexedDB"), Some(1), Some("id"), None)

  /** One field of `{ ...base, ...over }`: a field present in `over` wins. */
  function Override<T>(base: Option<T>, over: Option<T>): Option<T> {
    if over.Some? then over else base
  }

  /** The object spread `{ ...base, ...over }`. */
  function Spread(base: StoreConfig, over: StoreConfig): StoreConfig {
    StoreConfig(
      Override(base.storeName, over.storeName),
      Override(base.dbName, over.dbName),
      Override(base.dbVersion, over.dbVersion),
      Override(base.keyPath, over.keyPath),
      Override(base.indexes, over.indexes))
  }

  /** `{ ...DEFAULT_CONFIG, ...storeConfigs[0] }`; an empty list spreads
      `undefined`, which adds nothing. The name, version and key path the
      database is opened with are therefore always defined. */
  function EffectiveConfig(configs: seq<StoreConfig>): (e: StoreConfig)
    ensures e.storeName.Some? && e.dbName.Some? && e.dbVersion.Some? && e.keyPath.Some?
  {
    if |configs| == 0 then DefaultConfig else Spread(DefaultConfig, configs[0])
  }

  function DbName(configs: seq<StoreConfig>): string {
    EffectiveConfig(configs).dbName.value
  }

  function DbVersion(configs: seq<StoreConfig>): int {
    EffectiveConfig(configs).dbVersion.value
  }

  /** The key path a new store falls back to when its own is falsy. */
  function FallbackKeyPath(configs: seq<StoreConfig>): string {
    EffectiveConfig(configs).keyPath.value
  }

  /** `database(storeConfigs = [DEFAULT_CONFIG])`: the factory's default
      argument applies only when no list is passed. */
  function ConfigsOrDefault(arg: Option<seq<StoreConfig>>): (configs: seq<StoreConfig>)
    ensures arg.None? ==> configs == [DefaultConfig]
    ensures arg.Some? ==> configs == arg.value
  {
    arg.GetOr([DefaultConfig])
  }

  /** Each of the three fields the open uses comes from the first
      configuration when that configuration has it, and from
      `DEFAULT_CONFIG` otherwise. */
  lemma EffectiveFieldwise(configs: seq<StoreConfig>)
    ensures DbName(configs) ==
      if |configs| > 0 && configs[0].dbName.Some? then configs[0].dbName.value else "indexedDB"
    ensures DbVersion(configs) ==
      if |configs| > 0 && configs[0].dbVersion.Some? then configs[0].dbVersion.value else 1
    ensures FallbackKeyPath(configs) ==
      if |configs| > 0 && configs[0].keyPath.Some? then configs[0].keyPath.value else "id"
  {
  }

  /** Configurations after the first never influence the effective one. */
  lemma LaterConfigsIgnored(a: seq<StoreConfig>, b: seq<StoreConfig>)
    requires |a| > 0 && |b| > 0 && a[0] == b[0]
    ensures EffectiveConfig(a) == EffectiveConfig(b)
  {
  }

  /** A facade built without arguments, or with an empty list, opens the
      default database. */
  lemma DefaultsWhenUnconfigured()
    ensures EffectiveConfig(ConfigsOrDefault(None)) == DefaultConfig
    ensures EffectiveConfig([]) == DefaultConfig
  {
  }
}
