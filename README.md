# VardDB core in Dafny

A verified model of the core of VardDB, a Kotlin key-value library for Android built on MMKV. It has three independent parts.

- **Store** (`store.dfy`, module `Store`) models `VardStore.kt`, together with the `EntityType` enum and the `VardStoreConfig` record.
  - An MMKV namespace is a `map<string, Value>`. The wall clock is a `now` parameter. The FST object codec is a pair of functions in the model.
  - Every MMKV write takes an `accepted` flag that stands for MMKV's success result.
  - TTL bookkeeping: an expiry marker is stored under `key + "_TTL"`. It is written before the value, and `checkKeyAlive` decides whether reads see the key.
  - The typed reads, the overloads that take a default, and `getDataByType` are pure functions of the namespace.
  - The `VardStore` class holds the namespace and `liveDataMap`. Its methods model `save` (both overloads), `setTTL`, `remove`, `clear`, get-or-create of per-key LiveData objects, the synchronous fill of `getFilledLivedData`, and the three notification helpers.
- **Live events** (`live_events.dfy`, module `LiveEvents`) models `LiveDataUtil.kt`.
  - `EventArgs` is a payload with a `handled` flag.
  - `PendingObserver` forwards once per arming.
  - `MutableLiveEvent` keeps the `observers` set of wrappers and arms all of them before each `setValue`.
  - The underlying LiveData is an ordered list of registrations. Each one gets `onChanged` in turn. A user's observer is a log of the events it received.
- **Registry** (`registry.dfy`, module `Registry`) models `VardDb.kt`: an init gate (`initString`) and a get-or-create map from store name to store, in which the first configuration for a name wins.

`wrappers.dfy` holds the `Option` and `Result` types. `Option` is Kotlin's nullable type. `Failure` is a thrown exception.

In these places the code does something other than what its names suggest. The model follows the code:
- A new `PendingObserver` is not pending (LiveDataUtil.kt:55). Attaching does not arm it, so the value replayed on attach is swallowed, and only the next `setValue` reaches it.
- `getFilledLivedData` fills again whenever the LiveData's value is null (VardStore.kt:41). It does not fill just once. For example, it fills again after `clear` has posted null.
- Reading `EventArgs.data` does not consume the event. Only an assignment to `handled` does (LiveDataUtil.kt:71-80).
- `VardStore` creates plain `MutableLiveData` objects, not `MutableLiveEvent` (VardStore.kt:29, 38, 77). The two parts are therefore modelled separately.
- `remove` notifies no LiveData. Its filter compares LiveData objects with key strings (VardStore.kt:306), so nothing ever matches.

## Model

| member | source | states |
|---|---|---|
| Store.AddLong | varddb/src/main/java/com/vardemin/varddb/VardStore.kt:276 | `now + ttl` in a Kotlin `Long`: the result agrees with the true sum modulo 2^64, and is the true sum when that fits in 64 bits |
| Store.CheckKeyAlive | varddb/src/main/java/com/vardemin/varddb/VardStore.kt:263-268 | a key can only be alive if the namespace holds it |
| Store.ReadTTL | varddb/src/main/java/com/vardemin/varddb/VardStore.kt:270-273 | the stored value exactly when the key is alive, null otherwise; without TTL enforcement, non-null exactly when `containsKey` holds |
| Store.ContainsKey | varddb/src/main/java/com/vardemin/varddb/VardStore.kt:251 | physical presence: true whenever the key is alive, with or without TTL enforcement, and false whenever it is not alive without enforcement |
| Store.AliveIff | varddb/src/main/java/com/vardemin/varddb/VardStore.kt:263-268 | `checkKeyAlive` is true iff the key is present and, under TTL enforcement, a Long marker under `key + "_TTL"` is strictly later than `now` (the `-1` default never makes a key alive) |
| Store.ReadBool | varddb/src/main/java/com/vardemin/varddb/VardStore.kt:111-112 | non-null iff the key is alive and holds a Boolean, and then it is that Boolean |
| Store.ReadInt | varddb/src/main/java/com/vardemin/varddb/VardStore.kt:123-124 | non-null iff the key is alive and holds an Int, and then it is that Int |
| Store.ReadLong | varddb/src/main/java/com/vardemin/varddb/VardStore.kt:135-136 | non-null iff the key is alive and holds a Long, and then it is that Long |
| Store.ReadFloat | varddb/src/main/java/com/vardemin/varddb/VardStore.kt:147-148 | non-null iff the key is alive and holds a Float, and then it is that Float |
| Store.ReadDouble | varddb/src/main/java/com/vardemin/varddb/VardStore.kt:159-160 | non-null iff the key is alive and holds a Double, and then it is that Double |
| Store.ReadString | varddb/src/main/java/com/vardemin/varddb/VardStore.kt:171-172 | non-null iff the key is alive and holds a String, and then it is that String |
| Store.ReadByteArray | varddb/src/main/java/com/vardemin/varddb/VardStore.kt:183-184 | non-null iff the key is alive and holds a byte array, and then it is those bytes |
| Store.ReadParcelable | varddb/src/main/java/com/vardemin/varddb/VardStore.kt:196-203 | non-null iff the key is alive, holds a marshalled Parcelable, and the class's `CREATOR` rebuilds an object from it; then it is that rebuilt object |
| Store.ReadStringSet | varddb/src/main/java/com/vardemin/varddb/VardStore.kt:228-229 | non-null iff the key is alive and holds a string set, and then it is that set |
| Store.ReadObject | varddb/src/main/java/com/vardemin/varddb/VardStore.kt:94-100 | null when the key is not alive; otherwise it succeeds iff the stored value is a byte array that FST decodes, and a successful read of a live key is never null: it is FST's decoding of the stored bytes |
| Store.ReadBoolOrDefault | varddb/src/main/java/com/vardemin/varddb/VardStore.kt:117-118 | the stored Boolean when the key is alive and holds one, and `default` in every other case |
| Store.ReadIntOrDefault | varddb/src/main/java/com/vardemin/varddb/VardStore.kt:129-130 | the stored Int when the key is alive and holds one, and `default` in every other case |
| Store.ReadLongOrDefault | varddb/src/main/java/com/vardemin/varddb/VardStore.kt:141-142 | the stored Long when the key is alive and holds one, and `default` in every other case |
| Store.ReadFloatOrDefault | varddb/src/main/java/com/vardemin/varddb/VardStore.kt:153-154 | the stored Float when the key is alive and holds one, and `default` in every other case |
| Store.ReadDoubleOrDefault | varddb/src/main/java/com/vardemin/varddb/VardStore.kt:165-166 | the stored Double when the key is alive and holds one, and `default` in every other case |
| Store.ReadStringOrDefault | varddb/src/main/java/com/vardemin/varddb/VardStore.kt:177-178 | the stored String when the key is alive and holds one, and `default` in every other case |
| Store.ReadByteArrayOrDefault | varddb/src/main/java/com/vardemin/varddb/VardStore.kt:189-190 | the stored bytes when the key is alive and holds a byte array, and `default` in every other case |
| Store.ReadParcelableOrDefault | varddb/src/main/java/com/vardemin/varddb/VardStore.kt:211-217 | the object the `CREATOR` rebuilds from the stored parcel when the key is alive, holds one, and rebuilding succeeds; `default` in every other case |
| Store.ReadStringSetOrDefault | varddb/src/main/java/com/vardemin/varddb/VardStore.kt:237-242 | the stored set when the key is alive and holds one, and `default` in every other case |
| Store.ReadObjectOrDefault | varddb/src/main/java/com/vardemin/varddb/VardStore.kt:105-106 | `default` when the key is not alive; it fails exactly when `readObject` fails; otherwise it is FST's decoding of the stored bytes |
| Store.GetDataByType | varddb/src/main/java/com/vardemin/varddb/VardStore.kt:54-67 | NONE gives null; OBJECT is `readObject`; any other entity type gives the stored value exactly when the key is alive and holds a value of that type |
| Store.NoMarkerHidesKey | varddb/src/main/java/com/vardemin/varddb/VardStore.kt:263-273 | under TTL enforcement a present key without a marker is invisible to every typed read and to `readObject`, while `containsKey` is still true |
| Store.NonPositiveTtlKeepsMarker | varddb/src/main/java/com/vardemin/varddb/VardStore.kt:275-278 | a save with `ttl <= 0` leaves an existing marker exactly as it was, and leaves an absent marker absent |
| Store.MarkerIndependentOfValue | varddb/src/main/java/com/vardemin/varddb/VardStore.kt:275-278 | with `ttl > 0` the marker `now + ttl` is written whether or not the value write then succeeds; a failed value write leaves the old value |
| Store.SaveFrame | varddb/src/main/java/com/vardemin/varddb/VardStore.kt:280-293 | a save changes no key other than the key and its marker |
| Store.ReadAfterSave | varddb/src/main/java/com/vardemin/varddb/VardStore.kt:263-278 | a value of a kind `getDataByType` reads (Boolean, Int, Long, Float, Double, String or byte array) saved at `t0` with `ttl > 0` reads back under TTL enforcement iff `t < t0 + ttl`, and reads back at any time without it |
| Store.ReadParcelableAfterSave | varddb/src/main/java/com/vardemin/varddb/VardStore.kt:195-202 | a Parcelable saved through the generic `save` at `t0` with `ttl > 0` is what `readParcelable` returns, provided the `CREATOR` rebuilds what `writeToParcel` wrote: under TTL enforcement iff `t < t0 + ttl`, and at any time without it |
| Store.ReadStringSetAfterSave | varddb/src/main/java/com/vardemin/varddb/VardStore.kt:83-86 | a set saved through the string-set `save` at `t0` with `ttl > 0` is what `readStringSet` returns, under TTL enforcement iff `t < t0 + ttl`, and at any time without it |
| Store.ReadObjectAfterSave | varddb/src/main/java/com/vardemin/varddb/VardStore.kt:280-293 | a value saved through FST reads back through `readObject` under the same expiry rule, provided FST decodes what it encoded |
| Store.OverflowingTtlExpiresAtOnce | varddb/src/main/java/com/vardemin/varddb/VardStore.kt:276 | when `now + ttl` overflows a Long, the marker is negative, so the freshly saved key is never alive under TTL enforcement |
| Store.RemoveLeavesMarkers | varddb/src/main/java/com/vardemin/varddb/VardStore.kt:255 | `remove` deletes a listed key, but its marker stays unless it is listed too |
| Store.NoKeyIsLiveData | varddb/src/main/java/com/vardemin/varddb/VardStore.kt:304-312 | `keys.contains(liveData)` is false for every LiveData object, so `remove`'s filter selects nothing |
| Store.VardStore.constructor | varddb/src/main/java/com/vardemin/varddb/VardStore.kt:16-24 | a store opens its namespace with the persisted contents and an empty `liveDataMap` |
| Store.VardStore.GetMutableLiveData | varddb/src/main/java/com/vardemin/varddb/VardStore.kt:74-81 | returns the existing LiveData of the key unchanged; otherwise it inserts a fresh, empty one and changes no other entry |
| Store.VardStore.GetLiveData | varddb/src/main/java/com/vardemin/varddb/VardStore.kt:26-33 | the same get-or-create as `getMutableLiveData` |
| Store.VardStore.GetFilledLiveData | varddb/src/main/java/com/vardemin/varddb/VardStore.kt:35-52 | get-or-create; a non-null value is left alone, and a null value is replaced by `getDataByType`, whose decode error propagates; no other LiveData changes |
| Store.VardStore.NotifyLiveData | varddb/src/main/java/com/vardemin/varddb/VardStore.kt:295-302 | the key's LiveData, created if need be, holds `data`; every other LiveData keeps its value |
| Store.VardStore.SetTTL | varddb/src/main/java/com/vardemin/varddb/VardStore.kt:275-278 | the namespace gains the marker `now + ttl` only for a positive ttl |
| Store.VardStore.Encode | varddb/src/main/java/com/vardemin/varddb/VardStore.kt:280-293 | marker first, then the value through the type dispatch (natives as themselves, everything else as FST bytes); the result is the value write's success |
| Store.VardStore.Save | varddb/src/main/java/com/vardemin/varddb/VardStore.kt:90 | `ttl` defaults to `-1`; the namespace after marker and value writes; the key's LiveData holds the value iff the write succeeded, and otherwise `liveDataMap` is untouched |
| Store.VardStore.SaveStringSet | varddb/src/main/java/com/vardemin/varddb/VardStore.kt:83-86 | the same writes, but the key's LiveData holds the set whatever the write returned |
| Store.VardStore.NotifyKeysLiveCleared | varddb/src/main/java/com/vardemin/varddb/VardStore.kt:304-312 | exactly the LiveData objects the filter selects are set to null; all others keep their values |
| Store.VardStore.Remove | varddb/src/main/java/com/vardemin/varddb/VardStore.kt:255 | the listed keys leave the namespace, and every LiveData keeps its value |
| Store.VardStore.NotifyAllLiveCleared | varddb/src/main/java/com/vardemin/varddb/VardStore.kt:314-322 | every LiveData in the map holds null |
| Store.VardStore.Clear | varddb/src/main/java/com/vardemin/varddb/VardStore.kt:259 | the namespace is empty and every LiveData holds null |
| Store.ClearTwice | varddb/src/main/java/com/vardemin/varddb/VardStore.kt:259 | a second `clear` leaves the same state as one |
| Store.SaveThenObserve | varddb/src/main/java/com/vardemin/varddb/VardStore.kt:90 | after a successful save with a positive ttl, the key's LiveData holds the value, and a read sees it exactly until the expiry |
| LiveEvents.EventArgs.constructor | varddb/src/main/java/com/vardemin/varddb/LiveDataUtil.kt:69-71 | an event starts unhandled |
| LiveEvents.EventArgs.Data | varddb/src/main/java/com/vardemin/varddb/LiveDataUtil.kt:73-80 | `data` is the content while unhandled and null once handled; reading it changes nothing |
| LiveEvents.EventArgs.SetHandled | varddb/src/main/java/com/vardemin/varddb/LiveDataUtil.kt:71 | the flag becomes `h`, so `data` is null after `handled = true` and the content after `handled = false` |
| LiveEvents.PendingObserver.constructor | varddb/src/main/java/com/vardemin/varddb/LiveDataUtil.kt:53-55 | a new wrapper is not pending |
| LiveEvents.PendingObserver.OnChanged | varddb/src/main/java/com/vardemin/varddb/LiveDataUtil.kt:57-62 | forwards iff pending and the event is null or unhandled; forwarding disarms; a handled event leaves it armed |
| LiveEvents.PendingObserver.AwaitValue | varddb/src/main/java/com/vardemin/varddb/LiveDataUtil.kt:64-66 | arms the wrapper |
| LiveEvents.Without | varddb/src/main/java/com/vardemin/varddb/LiveDataUtil.kt:34 | unregistering keeps exactly the other registrations |
| LiveEvents.RawObserverHearsEveryValue | varddb/src/main/java/com/vardemin/varddb/LiveDataUtil.kt:21-26 | an observer registered raw by `observeForever` hears every `setValue`, handled or not |
| LiveEvents.HandledReachesOnlyRaw | varddb/src/main/java/com/vardemin/varddb/LiveDataUtil.kt:57-62 | a handled event reaches no observer that is not registered raw |
| LiveEvents.DispatchAll | varddb/src/main/java/com/vardemin/varddb/LiveDataUtil.kt:49 | with every wrapper armed, each observer hears the event once per raw registration and, if it is deliverable, once per registered wrapper around it; registered wrappers end disarmed iff the event was deliverable |
| LiveEvents.MutableLiveEvent.constructor | varddb/src/main/java/com/vardemin/varddb/LiveDataUtil.kt:9-11 | a new event LiveData has an empty `observers` set, no registrations and no value |
| LiveEvents.MutableLiveEvent.Observe | varddb/src/main/java/com/vardemin/varddb/LiveDataUtil.kt:13-19 | one fresh wrapper joins `observers` and is registered; the replay on attach reaches nobody |
| LiveEvents.MutableLiveEvent.ObserveForever | varddb/src/main/java/com/vardemin/varddb/LiveDataUtil.kt:21-26 | a fresh wrapper joins `observers`, but the raw observer is registered, and it hears the current value at once |
| LiveEvents.MutableLiveEvent.RemoveObserver | varddb/src/main/java/com/vardemin/varddb/LiveDataUtil.kt:28-44 | a wrapper leaves both `observers` and the registrations; for a raw observer, some wrapper around it leaves, or nothing changes when there is none; a raw registration is never removed |
| LiveEvents.MutableLiveEvent.ArmAll | varddb/src/main/java/com/vardemin/varddb/LiveDataUtil.kt:48 | every wrapper in `observers` is pending |
| LiveEvents.MutableLiveEvent.SetValue | varddb/src/main/java/com/vardemin/varddb/LiveDataUtil.kt:46-50 | arm all, then dispatch: the value is set, and each observer's log grows by the event, repeated as `Deliveries` counts |
| LiveEvents.SingleDeliveryRun | varddb/src/main/java/com/vardemin/varddb/LiveDataUtil.kt:9-66 | the wrapped observer hears `x` once, skips `x` once it is handled, then hears `y`; the raw observer hears all three deliveries |
| Registry.VardDb.constructor | varddb/src/main/java/com/vardemin/varddb/VardDb.kt:13-14 | no token and no stores |
| Registry.VardDb.Init | varddb/src/main/java/com/vardemin/varddb/VardDb.kt:17-25 | `initString` becomes the token, and a later call overwrites it |
| Registry.VardDb.Store | varddb/src/main/java/com/vardemin/varddb/VardDb.kt:43-51 | fails before `init` and leaves the map unchanged; returns the existing store of `config.name`; otherwise inserts exactly one fresh store with `config`; no entry is ever removed or replaced |
| Registry.VardDb.StoreNamed | varddb/src/main/java/com/vardemin/varddb/VardDb.kt:27-41 | the same as `store(config)` for the configuration built from its arguments, with the same default arguments |
| Registry.FirstConfigurationWins | varddb/src/main/java/com/vardemin/varddb/VardDb.kt:27-51 | lookups fail before `init`; the default store gets the default configuration; two lookups of one name through the two overloads return the same instance with the first configuration |

## Left out

- The `*Async` methods of `VardStore` and `AsyncUtil.kt` are left out. They only dispatch to a coroutine context. One difference is lost with them: `removeAsync` (VardStore.kt:256-257) never notifies, while `remove` runs its notification filter.
- The asynchronous branch of `getFilledLivedData` (VardStore.kt:45-47) is left out because it is concurrency. Store.VardStore.GetFilledLiveData always fills synchronously, and the `asyncFill` argument and `prefillLiveDataAsync` are not consulted.
- Store.ReadBool and the other typed reads: when a live key holds a value of another kind, the model reads null. MMKV would reinterpret the stored bytes or return its decoder's default, and its internals are not modelled.
- Store.ExpiryOf: a marker under `key + "_TTL"` that is not a Long (say, an Int a user saved under that name) reads as the `-1` default. MMKV's `decodeLong` would reinterpret the stored bytes instead.
- Store.ReadObject: the model fails when the stored value is not a byte array. MMKV's `decodeBytes` behaviour on such a value is not modelled.
- The FST configuration and a Parcelable's `CREATOR` are foreign codecs, given as functions (`ObjectCodec`, `ParcelDecoder`). No round-trip is assumed, except as the hypotheses of Store.ReadObjectAfterSave and Store.ReadParcelableAfterSave. A saved Parcelable is identified with the parcel `writeToParcel` produces, so marshalling itself is not a separate function.
- Store.VardStore.Save: a null value is not modelled, because `Data` has no null. In Kotlin, `save(key, null)` FST-encodes null after the marker write and posts null to the key's LiveData; a later `readObject` of the live key returns null and `readObject(key, default)` returns `default`. An exception thrown by FST's `asByteArray` is not modelled either, because the model's encoder is total; in Kotlin it escapes `save` after the marker has been written.
- Store.ReadParcelable takes the decoder of `objClass` as its `decodeParcel` argument rather than the class itself. Its unchecked cast is not modelled.
- Floats and Doubles are opaque bit patterns, because the store does no arithmetic on them.
- `System.currentTimeMillis()` is a `now` parameter. A save and a later read take separate clock values, but two clock reads within one call are taken as equal.
- The unchecked `as T?` casts are not modelled. Values travel as the `Data<O>` type instead.
- The `coroutineContext` of `VardStoreConfig` is not modelled. Each `isTTL` argument that defaults to `config.isTTL` in Kotlin is an explicit parameter of the pure reads.
- MMKV's multi-process mode, `MMKV.initialize` and `mmkvWithID` are not modelled. A store's namespace starts with what the registry's `persisted` function says it holds.
- The `ConcurrentHashMap` races in `VardDb.stores` and `liveDataMap` are left out. The model is sequential.
- Android's LiveData is not fully modelled:
  - Lifecycle owners are not modelled, and every observer counts as active.
  - `postValue` is an immediate `setValue`.
  - The per-observer version check is not modelled.
  - Re-registering an observer that is already registered does nothing.
- LiveEvents.MutableLiveEvent.RemoveObserver: for a raw observer, `removeObserver` removes the first matching wrapper in `ArraySet` order; the model removes some matching wrapper, because that order follows identity hash codes, which the model does not have.
- User observers only record what they receive. One that marks an event handled while the event is being dispatched is not modelled.
- The `try`/`catch` with `printStackTrace` in the notification helpers is left out, because the model's notification steps cannot throw.
- The demo app (`MainActivity.kt`, `App.kt`) is not part of this model.
