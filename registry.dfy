/**
 * The process-wide registry of named stores (VardDb.kt): an init gate and
 * a get-or-create map from store name to store, where the first
 * configuration for a name wins.
 */
module Registry {
  import opened Wrappers
  import opened Store

  /** `VardDbNotInitializedException`, with its message. */
  datatype VardDbError = VardDbNotInitializedException(message: string)

  const NotInitialized: VardDbError := VardDbNotInitializedException("Please call init first")

  class VardDb<O> {
    /** The token `MMKV.initialize` returned; None until `init` is called. */
    var initString: Option<string>
    /** The `stores` map, keyed by store name. */
    var stores: map<string, VardStore<O>>
    /** The object codec every store is created with. */
    const fst: ObjectCodec<O>
    /** What each MMKV namespace already holds when a store opens it. */
    const persisted: string -> Engine

    /** Every store is registered under its own configured name. */
    ghost predicate Valid()
      reads this
    {
      forall name :: name in stores ==> stores[name].config.name == name
    }

    constructor(fst: ObjectCodec<O>, persisted: string -> Engine)
      ensures Valid()
      ensures initString == None && stores == map[]
      ensures this.fst == fst && this.persisted == persisted
    {
      initString := None;
      stores := map[];
      this.fst := fst;
      this.persisted := persisted;
    }

    /** Both `init` overloads: record the token MMKV's initialisation returns; a second call overwrites it. */
    method Init(token: string)
      modifies this`initString
      ensures initString == Some(token)
    {
      initString := Some(token);
    }

    /**
     * `store(config)`: fail before initialisation; otherwise the store
     * already registered under `config.name`, or a new one with `config`.
     */
    method Store(config: VardStoreConfig) returns (r: Result<VardStore<O>, VardDbError>)
      requires Valid()
      modifies this`stores
      ensures Valid()
      ensures initString.None? ==> r == Failure(NotInitialized) && stores == old(stores)
      ensures initString.Some? && config.name in old(stores) ==>
        r == Success(old(stores)[config.name]) && stores == old(stores)
      ensures initString.Some? && config.name !in old(stores) ==>
        && r.Success? && fresh(r.value) && r.value.Valid()
        && r.value.config == config && r.value.fst == fst
        && r.value.engine == persisted(config.name) && r.value.liveDataMap == map[]
        && stores == old(stores)[config.name := r.value]
      ensures forall name :: name in old(stores) ==> name in stores && stores[name] == old(stores)[name]
    {
      if initString.None? {
        return Failure(NotInitialized);
      }
      if config.name in stores {
        return Success(stores[config.name]);
      }
      var s := new VardStore(config, fst, persisted(config.name));
      stores := stores[config.name := s];
      r := Success(s);
    }

    /** `store(name, multiProcess, isTTL, coroutineContext, prefillLiveDataAsync)`, with the same defaults. */
    method StoreNamed(name: string := KeyDefault, multiProcess: bool := true, isTTL: bool := false,
                      prefillLiveDataAsync: bool := false)
      returns (r: Result<VardStore<O>, VardDbError>)
      requires Valid()
      modifies this`stores
      ensures Valid()
      ensures initString.None? ==> r == Failure(NotInitialized) && stores == old(stores)
      ensures initString.Some? && name in old(stores) ==> r == Success(old(stores)[name]) && stores == old(stores)
      ensures initString.Some? && name !in old(stores) ==>
        && r.Success? && fresh(r.value) && r.value.Valid()
        && r.value.config == VardStoreConfig(name, multiProcess, isTTL, prefillLiveDataAsync)
        && r.value.engine == persisted(name) && r.value.liveDataMap == map[]
        && stores == old(stores)[name := r.value]
      ensures forall n :: n in old(stores) ==> n in stores && stores[n] == old(stores)[n]
    {
      r := Store(VardStoreConfig(name, multiProcess, isTTL, prefillLiveDataAsync));
    }
  }

  /**
   * A run of the registry: a lookup before `init` fails; after it, the
   * default store is created with the default configuration, and a named
   * store is created once and then returned again by the other overload,
   * whose differing configuration is ignored.
   */
  method FirstConfigurationWins<O>(fst: ObjectCodec<O>, persisted: string -> Engine, token: string, name: string)
    returns (early: Result<VardStore<O>, VardDbError>, default: Result<VardStore<O>, VardDbError>,
             first: Result<VardStore<O>, VardDbError>, second: Result<VardStore<O>, VardDbError>)
    requires name != KeyDefault
    ensures early == Failure(NotInitialized)
    ensures default.Success? && default.value.config == VardStoreConfig()
    ensures first.Success? && second == first && first != default
    ensures first.value.config == VardStoreConfig(name, true, true, false)
    ensures first.value.engine == persisted(name)
  {
    var db := new VardDb(fst, persisted);
    early := db.StoreNamed(name);
    db.Init(token);
    default := db.StoreNamed();
    first := db.StoreNamed(name, isTTL := true);
    second := db.Store(VardStoreConfig(name, false, false, true));
  }
}
