/**
 * A named, TTL-aware typed key-value store over an MMKV namespace
 * (VardStore.kt, with EntityType.kt and VardStoreConfig.kt).
 *
 * The MMKV namespace is the map `engine`; the wall clock is a `now`
 * parameter; the FST object codec is a pair of functions; each write to
 * the engine takes an `accepted` flag standing for MMKV's success result.
 */
module Store {
  import opened Wrappers

  // ---------------------------------------------------------------------
  // Integer widths and the clock
  // ---------------------------------------------------------------------

  const MinLong: int := -0x8000_0000_0000_0000
  const MaxLong: int := 0x7FFF_FFFF_FFFF_FFFF
  const TwoTo64: int := 0x1_0000_0000_0000_0000

  /** Kotlin `Long`. */
  type Long = x: int | MinLong <= x <= MaxLong

  /** Kotlin `Int`. */
  type Int32 = x: int | -0x8000_0000 <= x <= 0x7FFF_FFFF

  /** `System.currentTimeMillis()`: milliseconds since the epoch. */
  type Millis = x: int | 0 <= x <= MaxLong

  /** `a + b` on two `Long`s: 64-bit two's-complement, wrapping on overflow. */
  function AddLong(a: Long, b: Long): (r: Long)
    ensures (r - (a + b)) % TwoTo64 == 0
    ensures MinLong <= a + b <= MaxLong ==> r == a + b
  {
    var s := a + b;
    if s > MaxLong then s - TwoTo64
    else if s < MinLong then s + TwoTo64
    else s
  }

  // ---------------------------------------------------------------------
  // Stored values
  // ---------------------------------------------------------------------

  type Bytes = seq<bv8>

  /** A Kotlin `Float`, kept as its bits: the store does no arithmetic on it. */
  datatype Float32 = Float32(bits: bv32)

  /** A Kotlin `Double`, kept as its bits. */
  datatype Float64 = Float64(bits: bv64)

  /** A `Parcelable`, as its `writeToParcel` marshals it: what MMKV stores for it. */
  datatype Parcel = Parcel(payload: Bytes)

  /**
   * MMKV's `decodeParcelable` on a stored parcel: the class's
   * `CREATOR.createFromParcel` rebuilds an object, or None when that fails
   * (MMKV catches the exception and returns null).
   */
  type ParcelDecoder = Parcel -> Option<Parcel>

  /** What MMKV holds under one key. */
  datatype Value =
    | BoolV(b: bool)
    | IntV(i: Int32)
    | LongV(l: Long)
    | FloatV(f: Float32)
    | DoubleV(d: Float64)
    | StringV(s: string)
    | BytesV(bytes: Bytes)
    | StringSetV(strings: set<string>)
    | ParcelV(parcel: Parcel)

  /** One MMKV namespace: key to stored value. */
  type Engine = map<string, Value>

  /**
   * A value handed to `save` or posted to a LiveData: either something MMKV
   * stores natively, or any other object `O`, which only FST can encode.
   */
  datatype Data<O> = Native(v: Value) | ObjectD(obj: O)

  /** The FST configuration: encode any value, decode bytes (None: the decoder throws). */
  datatype ObjectCodec<!O> = ObjectCodec(asByteArray: Data<O> -> Bytes, asObject: Bytes -> Option<Data<O>>)

  /** What `fst.asObject` throws on bytes it cannot decode. */
  datatype DecodeError = DecodeError

  /** EntityType.kt */
  datatype EntityType = NONE | OBJECT | BOOLEAN | STRING | INT | LONG | FLOAT | DOUBLE | BYTE_ARRAY

  /** `VardDb.KEY_DEFAULT`: the name of the store used when none is given. */
  const KeyDefault: string := "VARD_DEFAULT_STORE_KEY"

  /** VardStoreConfig.kt, with its defaults, without the coroutine context. */
  datatype VardStoreConfig = VardStoreConfig(name: string := KeyDefault, multiProcess: bool := true,
                                             isTTL: bool := false, prefillLiveDataAsync: bool := false)

  /** The entity type a typed read must ask for to get `v` back; NONE when no reader of `getDataByType` returns it. */
  function EntityTypeOf(v: Value): EntityType {
    match v
    case BoolV(_) => BOOLEAN
    case IntV(_) => INT
    case LongV(_) => LONG
    case FloatV(_) => FLOAT
    case DoubleV(_) => DOUBLE
    case StringV(_) => STRING
    case BytesV(_) => BYTE_ARRAY
    case StringSetV(_) => NONE
    case ParcelV(_) => NONE
  }

  // ---------------------------------------------------------------------
  // TTL policy
  // ---------------------------------------------------------------------

  const TtlSuffix: string := "_TTL"

  /** The key under which the expiry of `key` is stored. */
  function TtlKey(key: string): string {
    key + TtlSuffix
  }

  /** `mmkv.decodeLong(key + TTL_SUFFIX, -1L)`. */
  function ExpiryOf(db: Engine, key: string): Long {
    if TtlKey(key) in db && db[TtlKey(key)].LongV? then db[TtlKey(key)].l else -1
  }

  /** `checkKeyAlive`: is the value under `key` visible to a read at `now`? */
  function CheckKeyAlive(db: Engine, key: string, isTTL: bool, now: Millis): (alive: bool)
    ensures alive ==> key in db
  {
    key in db && (!isTTL || (isTTL && TtlKey(key) in db && ExpiryOf(db, key) > now))
  }

  /** `readTTL`: the stored value when it is alive, else null; each typed read then decodes it. */
  function ReadTTL(db: Engine, key: string, isTTL: bool, now: Millis): (r: Option<Value>)
    ensures r.Some? <==> CheckKeyAlive(db, key, isTTL, now)
    ensures r.Some? ==> ContainsKey(db, key) && r.value == db[key]
    ensures !isTTL ==> (r.Some? <==> ContainsKey(db, key))
  {
    if CheckKeyAlive(db, key, isTTL, now) then Some(db[key]) else None
  }

  /** `containsKey`: physical presence, whatever the TTL. */
  function ContainsKey(db: Engine, key: string): (present: bool)
    ensures forall isTTL: bool, now: Millis :: CheckKeyAlive(db, key, isTTL, now) ==> present
    ensures present ==> forall now: Millis :: CheckKeyAlive(db, key, false, now)
  {
    key in db
  }

  // ---------------------------------------------------------------------
  // Typed reads
  // ---------------------------------------------------------------------

  function ReadBool(db: Engine, key: string, isTTL: bool, now: Millis): (r: Option<bool>)
    ensures r.Some? <==> CheckKeyAlive(db, key, isTTL, now) && db[key].BoolV?
    ensures r.Some? ==> r.value == db[key].b
  {
    match ReadTTL(db, key, isTTL, now) case Some(BoolV(x)) => Some(x) case _ => None
  }

  function ReadInt(db: Engine, key: string, isTTL: bool, now: Millis): (r: Option<Int32>)
    ensures r.Some? <==> CheckKeyAlive(db, key, isTTL, now) && db[key].IntV?
    ensures r.Some? ==> r.value == db[key].i
  {
    match ReadTTL(db, key, isTTL, now) case Some(IntV(x)) => Some(x) case _ => None
  }

  function ReadLong(db: Engine, key: string, isTTL: bool, now: Millis): (r: Option<Long>)
    ensures r.Some? <==> CheckKeyAlive(db, key, isTTL, now) && db[key].LongV?
    ensures r.Some? ==> r.value == db[key].l
  {
    match ReadTTL(db, key, isTTL, now) case Some(LongV(x)) => Some(x) case _ => None
  }

  function ReadFloat(db: Engine, key: string, isTTL: bool, now: Millis): (r: Option<Float32>)
    ensures r.Some? <==> CheckKeyAlive(db, key, isTTL, now) && db[key].FloatV?
    ensures r.Some? ==> r.value == db[key].f
  {
    match ReadTTL(db, key, isTTL, now) case Some(FloatV(x)) => Some(x) case _ => None
  }

  function ReadDouble(db: Engine, key: string, isTTL: bool, now: Millis): (r: Option<Float64>)
    ensures r.Some? <==> CheckKeyAlive(db, key, isTTL, now) && db[key].DoubleV?
    ensures r.Some? ==> r.value == db[key].d
  {
    match ReadTTL(db, key, isTTL, now) case Some(DoubleV(x)) => Some(x) case _ => None
  }

  function ReadString(db: Engine, key: string, isTTL: bool, now: Millis): (r: Option<string>)
    ensures r.Some? <==> CheckKeyAlive(db, key, isTTL, now) && db[key].StringV?
    ensures r.Some? ==> r.value == db[key].s
  {
    match ReadTTL(db, key, isTTL, now) case Some(StringV(x)) => Some(x) case _ => None
  }

  function ReadByteArray(db: Engine, key: string, isTTL: bool, now: Millis): (r: Option<Bytes>)
    ensures r.Some? <==> CheckKeyAlive(db, key, isTTL, now) && db[key].BytesV?
    ensures r.Some? ==> r.value == db[key].bytes
  {
    match ReadTTL(db, key, isTTL, now) case Some(BytesV(x)) => Some(x) case _ => None
  }

  function ReadParcelable(db: Engine, key: string, isTTL: bool, now: Millis, decodeParcel: ParcelDecoder): (r: Option<Parcel>)
    ensures r.Some? <==> CheckKeyAlive(db, key, isTTL, now) && db[key].ParcelV? && decodeParcel(db[key].parcel).Some?
    ensures r.Some? ==> r == decodeParcel(db[key].parcel)
  {
    match ReadTTL(db, key, isTTL, now) case Some(ParcelV(x)) => decodeParcel(x) case _ => None
  }

  function ReadStringSet(db: Engine, key: string, isTTL: bool, now: Millis): (r: Option<set<string>>)
    ensures r.Some? <==> CheckKeyAlive(db, key, isTTL, now) && db[key].StringSetV?
    ensures r.Some? ==> r.value == db[key].strings
  {
    match ReadTTL(db, key, isTTL, now) case Some(StringSetV(x)) => Some(x) case _ => None
  }

  /**
   * `readObject`: FST-decode the bytes stored under `key`. A value that is
   * not a byte array, or bytes FST cannot decode, make the read throw.
   */
  function ReadObject<O>(db: Engine, key: string, isTTL: bool, now: Millis, fst: ObjectCodec<O>): (r: Result<Option<Data<O>>, DecodeError>)
    ensures !CheckKeyAlive(db, key, isTTL, now) ==> r == Success(None)
    ensures CheckKeyAlive(db, key, isTTL, now) ==>
      (r.Success? <==> db[key].BytesV? && fst.asObject(db[key].bytes).Some?)
    ensures r.Success? && r.value.Some? ==> CheckKeyAlive(db, key, isTTL, now)
    ensures CheckKeyAlive(db, key, isTTL, now) && r.Success? ==>
      r.value.Some? && Some(r.value.value) == fst.asObject(db[key].bytes)
  {
    if !CheckKeyAlive(db, key, isTTL, now) then Success(None)
    else if !db[key].BytesV? then Failure(DecodeError)
    else match fst.asObject(db[key].bytes)
      case Some(d) => Success(Some(d))
      case None => Failure(DecodeError)
  }

  // ---------------------------------------------------------------------
  // Reads with a default (`readX(key, default, isTTL) = readX(key, isTTL) ?: default`)
  // ---------------------------------------------------------------------

  function ReadBoolOrDefault(db: Engine, key: string, default: bool, isTTL: bool, now: Millis): (r: bool)
    ensures CheckKeyAlive(db, key, isTTL, now) && db[key].BoolV? ==> r == db[key].b
    ensures !(CheckKeyAlive(db, key, isTTL, now) && db[key].BoolV?) ==> r == default
  {
    ReadBool(db, key, isTTL, now).GetOr(default)
  }

  function ReadIntOrDefault(db: Engine, key: string, default: Int32, isTTL: bool, now: Millis): (r: Int32)
    ensures CheckKeyAlive(db, key, isTTL, now) && db[key].IntV? ==> r == db[key].i
    ensures !(CheckKeyAlive(db, key, isTTL, now) && db[key].IntV?) ==> r == default
  {
    ReadInt(db, key, isTTL, now).GetOr(default)
  }

  function ReadLongOrDefault(db: Engine, key: string, default: Long, isTTL: bool, now: Millis): (r: Long)
    ensures CheckKeyAlive(db, key, isTTL, now) && db[key].LongV? ==> r == db[key].l
    ensures !(CheckKeyAlive(db, key, isTTL, now) && db[key].LongV?) ==> r == default
  {
    ReadLong(db, key, isTTL, now).GetOr(default)
  }

  function ReadFloatOrDefault(db: Engine, key: string, default: Float32, isTTL: bool, now: Millis): (r: Float32)
    ensures CheckKeyAlive(db, key, isTTL, now) && db[key].FloatV? ==> r == db[key].f
    ensures !(CheckKeyAlive(db, key, isTTL, now) && db[key].FloatV?) ==> r == default
  {
    ReadFloat(db, key, isTTL, now).GetOr(default)
  }

  function ReadDoubleOrDefault(db: Engine, key: string, default: Float64, isTTL: bool, now: Millis): (r: Float64)
    ensures CheckKeyAlive(db, key, isTTL, now) && db[key].DoubleV? ==> r == db[key].d
    ensures !(CheckKeyAlive(db, key, isTTL, now) && db[key].DoubleV?) ==> r == default
  {
    ReadDouble(db, key, isTTL, now).GetOr(default)
  }

  function ReadStringOrDefault(db: Engine, key: string, default: string, isTTL: bool, now: Millis): (r: string)
    ensures CheckKeyAlive(db, key, isTTL, now) && db[key].StringV? ==> r == db[key].s
    ensures !(CheckKeyAlive(db, key, isTTL, now) && db[key].StringV?) ==> r == default
  {
    ReadString(db, key, isTTL, now).GetOr(default)
  }

  function ReadByteArrayOrDefault(db: Engine, key: string, default: Bytes, isTTL: bool, now: Millis): (r: Bytes)
    ensures CheckKeyAlive(db, key, isTTL, now) && db[key].BytesV? ==> r == db[key].bytes
    ensures !(CheckKeyAlive(db, key, isTTL, now) && db[key].BytesV?) ==> r == default
  {
    ReadByteArray(db, key, isTTL, now).GetOr(default)
  }

  function ReadParcelableOrDefault(db: Engine, key: string, default: Parcel, isTTL: bool, now: Millis, decodeParcel: ParcelDecoder): (r: Parcel)
    ensures CheckKeyAlive(db, key, isTTL, now) && db[key].ParcelV? && decodeParcel(db[key].parcel).Some? ==>
      r == decodeParcel(db[key].parcel).value
    ensures !(CheckKeyAlive(db, key, isTTL, now) && db[key].ParcelV? && decodeParcel(db[key].parcel).Some?) ==> r == default
  {
    ReadParcelable(db, key, isTTL, now, decodeParcel).GetOr(default)
  }

  function ReadStringSetOrDefault(db: Engine, key: string, default: set<string>, isTTL: bool, now: Millis): (r: set<string>)
    ensures CheckKeyAlive(db, key, isTTL, now) && db[key].StringSetV? ==> r == db[key].strings
    ensures !(CheckKeyAlive(db, key, isTTL, now) && db[key].StringSetV?) ==> r == default
  {
    ReadStringSet(db, key, isTTL, now).GetOr(default)
  }

  /** The default replaces only a null result; a decode error still propagates. */
  function ReadObjectOrDefault<O>(db: Engine, key: string, default: Data<O>, isTTL: bool, now: Millis, fst: ObjectCodec<O>): (r: Result<Data<O>, DecodeError>)
    ensures !CheckKeyAlive(db, key, isTTL, now) ==> r == Success(default)
    ensures r.Failure? <==> ReadObject(db, key, isTTL, now, fst).Failure?
    ensures CheckKeyAlive(db, key, isTTL, now) && r.Success? ==> Some(r.value) == fst.asObject(db[key].bytes)
  {
    match ReadObject(db, key, isTTL, now, fst)
    case Success(d) => Success(d.GetOr(default))
    case Failure(e) => Failure(e)
  }

  // ---------------------------------------------------------------------
  // getDataByType
  // ---------------------------------------------------------------------

  function Lift<O>(r: Option<Value>): Result<Option<Data<O>>, DecodeError> {
    match r
    case Some(v) => Success(Some(Native(v)))
    case None => Success(None)
  }

  /**
   * `getDataByType`: NONE reads nothing; every other entity type returns the
   * stored value exactly when it is alive and of that type (OBJECT: decoded by FST).
   */
  function GetDataByType<O>(db: Engine, key: string, entityType: EntityType, isTTL: bool, now: Millis, fst: ObjectCodec<O>): (r: Result<Option<Data<O>>, DecodeError>)
    ensures entityType == NONE ==> r == Success(None)
    ensures entityType == OBJECT ==> r == ReadObject(db, key, isTTL, now, fst)
    ensures entityType != NONE && entityType != OBJECT ==>
      r == Success(if CheckKeyAlive(db, key, isTTL, now) && EntityTypeOf(db[key]) == entityType
                   then Some(Native(db[key])) else None)
  {
    match entityType
    case NONE => Success(None)
    case BOOLEAN => Lift(match ReadBool(db, key, isTTL, now) case Some(b) => Some(BoolV(b)) case None => None)
    case BYTE_ARRAY => Lift(match ReadByteArray(db, key, isTTL, now) case Some(b) => Some(BytesV(b)) case None => None)
    case DOUBLE => Lift(match ReadDouble(db, key, isTTL, now) case Some(d) => Some(DoubleV(d)) case None => None)
    case FLOAT => Lift(match ReadFloat(db, key, isTTL, now) case Some(f) => Some(FloatV(f)) case None => None)
    case INT => Lift(match ReadInt(db, key, isTTL, now) case Some(i) => Some(IntV(i)) case None => None)
    case LONG => Lift(match ReadLong(db, key, isTTL, now) case Some(l) => Some(LongV(l)) case None => None)
    case STRING => Lift(match ReadString(db, key, isTTL, now) case Some(s) => Some(StringV(s)) case None => None)
    case OBJECT => ReadObject(db, key, isTTL, now, fst)
  }

  // ---------------------------------------------------------------------
  // Writes, as functions of the engine state
  // ---------------------------------------------------------------------

  /** One `mmkv.encode(key, v)`: stores `v` when MMKV accepts the write. */
  function Put(db: Engine, key: string, v: Value, accepted: bool): Engine {
    if accepted then db[key := v] else db
  }

  /** `setTTL`'s marker write: `now + ttl` under `key + "_TTL"`, only for a positive ttl. */
  function MarkTtl(db: Engine, key: string, ttl: Long, now: Millis, accepted: bool): Engine {
    if ttl > 0 then Put(db, TtlKey(key), LongV(AddLong(now, ttl)), accepted) else db
  }

  /** The `when (value)` dispatch of the private `MMKV.encode`: natives as themselves, everything else through FST. */
  function Encoded<O>(x: Data<O>, fst: ObjectCodec<O>): Value {
    match x
    case Native(v) => if v.StringSetV? then BytesV(fst.asByteArray(x)) else v
    case ObjectD(_) => BytesV(fst.asByteArray(x))
  }

  /** The engine after a save: marker first, then the value. */
  function AfterSave(db: Engine, key: string, v: Value, ttl: Long, now: Millis, markerOk: bool, valueOk: bool): Engine {
    Put(MarkTtl(db, key, ttl, now, markerOk), key, v, valueOk)
  }

  /** The engine after `removeValuesForKeys(keys)`. */
  function Removed(db: Engine, keys: seq<string>): Engine {
    db - (set k | k in keys)
  }

  // ---------------------------------------------------------------------
  // Properties of the TTL policy and the writes
  // ---------------------------------------------------------------------

  lemma TtlKeyDiffers(key: string)
    ensures TtlKey(key) != key
  {
    assert |TtlKey(key)| == |key| + 4;
  }

  /** Liveness without the -1 default: under TTL a key needs a Long marker later than `now`. */
  lemma AliveIff(db: Engine, key: string, isTTL: bool, now: Millis)
    ensures CheckKeyAlive(db, key, isTTL, now) <==>
      key in db && (!isTTL || (TtlKey(key) in db && db[TtlKey(key)].LongV? && db[TtlKey(key)].l > now))
  {
  }

  /** Under TTL enforcement a key without a marker is invisible to every read, yet `containsKey` still sees it. */
  lemma NoMarkerHidesKey<O>(db: Engine, key: string, now: Millis, fst: ObjectCodec<O>, decodeParcel: ParcelDecoder)
    requires key in db && TtlKey(key) !in db
    ensures ContainsKey(db, key)
    ensures !CheckKeyAlive(db, key, true, now)
    ensures ReadBool(db, key, true, now) == None && ReadInt(db, key, true, now) == None
    ensures ReadLong(db, key, true, now) == None && ReadFloat(db, key, true, now) == None
    ensures ReadDouble(db, key, true, now) == None && ReadString(db, key, true, now) == None
    ensures ReadByteArray(db, key, true, now) == None && ReadParcelable(db, key, true, now, decodeParcel) == None
    ensures ReadStringSet(db, key, true, now) == None && ReadObject(db, key, true, now, fst) == Success(None)
  {
  }

  /** A save with `ttl <= 0` leaves any existing marker exactly as it was. */
  lemma NonPositiveTtlKeepsMarker(db: Engine, key: string, v: Value, ttl: Long, now: Millis, markerOk: bool, valueOk: bool)
    requires ttl <= 0
    ensures var db' := AfterSave(db, key, v, ttl, now, markerOk, valueOk);
      (TtlKey(key) in db' <==> TtlKey(key) in db) && (TtlKey(key) in db ==> db'[TtlKey(key)] == db[TtlKey(key)])
  {
    TtlKeyDiffers(key);
  }

  /** A save with `ttl > 0` writes the marker whether or not the value write succeeds. */
  lemma MarkerIndependentOfValue(db: Engine, key: string, v: Value, ttl: Long, now: Millis, valueOk: bool)
    requires ttl > 0
    ensures var db' := AfterSave(db, key, v, ttl, now, true, valueOk);
      TtlKey(key) in db' && db'[TtlKey(key)] == LongV(AddLong(now, ttl))
      && (valueOk ==> key in db' && db'[key] == v)
      && (!valueOk ==> (key in db' <==> key in db) && (key in db ==> db'[key] == db[key]))
  {
    TtlKeyDiffers(key);
  }

  /** A save touches only `key` and its marker. */
  lemma SaveFrame(db: Engine, key: string, v: Value, ttl: Long, now: Millis, markerOk: bool, valueOk: bool, other: string)
    requires other != key && other != TtlKey(key)
    ensures var db' := AfterSave(db, key, v, ttl, now, markerOk, valueOk);
      (other in db' <==> other in db) && (other in db ==> db'[other] == db[other])
  {
  }

  /**
   * Read after save: a native value saved with a positive ttl at `t0` reads
   * back under TTL enforcement before `t0 + ttl` and is null from then on;
   * without enforcement it reads back at any time.
   */
  lemma ReadAfterSave<O>(db: Engine, key: string, v: Value, ttl: Long, t0: Millis, t: Millis, fst: ObjectCodec<O>)
    requires EntityTypeOf(v) != NONE && ttl > 0 && t0 + ttl <= MaxLong
    ensures var db' := AfterSave(db, key, Encoded(Native(v), fst), ttl, t0, true, true);
      && GetDataByType(db', key, EntityTypeOf(v), true, t, fst) == Success(if t < t0 + ttl then Some(Native(v)) else None)
      && GetDataByType(db', key, EntityTypeOf(v), false, t, fst) == Success(Some(Native(v)))
      && ContainsKey(db', key)
  {
    TtlKeyDiffers(key);
  }

  /** Read after save for a value that goes through FST: the read is the codec's decoding of the saved bytes. */
  lemma ReadObjectAfterSave<O>(db: Engine, key: string, x: Data<O>, ttl: Long, t0: Millis, t: Millis, fst: ObjectCodec<O>)
    requires x.ObjectD? || x.v.StringSetV?
    requires ttl > 0 && t0 + ttl <= MaxLong
    requires fst.asObject(fst.asByteArray(x)) == Some(x)
    ensures var db' := AfterSave(db, key, Encoded(x, fst), ttl, t0, true, true);
      && ReadObject(db', key, true, t, fst) == Success(if t < t0 + ttl then Some(x) else None)
      && ReadObject(db', key, false, t, fst) == Success(Some(x))
  {
    TtlKeyDiffers(key);
  }

  /**
   * Read after save for a Parcelable: `save` stores it marshalled, and
   * `readParcelable` gives it back provided its `CREATOR` rebuilds what
   * `writeToParcel` wrote.
   */
  lemma ReadParcelableAfterSave<O>(db: Engine, key: string, p: Parcel, ttl: Long, t0: Millis, t: Millis,
                                   fst: ObjectCodec<O>, decodeParcel: ParcelDecoder)
    requires ttl > 0 && t0 + ttl <= MaxLong
    requires decodeParcel(p) == Some(p)
    ensures var db' := AfterSave(db, key, Encoded(Native(ParcelV(p)), fst), ttl, t0, true, true);
      && ReadParcelable(db', key, true, t, decodeParcel) == (if t < t0 + ttl then Some(p) else None)
      && ReadParcelable(db', key, false, t, decodeParcel) == Some(p)
  {
    TtlKeyDiffers(key);
  }

  /** Read after save for the string-set overload: `readStringSet` returns the saved set. */
  lemma ReadStringSetAfterSave(db: Engine, key: string, strings: set<string>, ttl: Long, t0: Millis, t: Millis)
    requires ttl > 0 && t0 + ttl <= MaxLong
    ensures var db' := AfterSave(db, key, StringSetV(strings), ttl, t0, true, true);
      && ReadStringSet(db', key, true, t) == (if t < t0 + ttl then Some(strings) else None)
      && ReadStringSet(db', key, false, t) == Some(strings)
  {
    TtlKeyDiffers(key);
  }

  /** A 64-bit overflow of `now + ttl` stores a negative marker, so the entry is expired at once. */
  lemma OverflowingTtlExpiresAtOnce(db: Engine, key: string, v: Value, ttl: Long, t0: Millis, t: Millis)
    requires ttl > 0 && t0 + ttl > MaxLong
    ensures var db' := AfterSave(db, key, v, ttl, t0, true, true);
      ContainsKey(db', key) && !CheckKeyAlive(db', key, true, t)
  {
    TtlKeyDiffers(key);
  }

  /** `remove` deletes exactly the listed keys; markers not listed stay behind. */
  lemma RemoveLeavesMarkers(db: Engine, keys: seq<string>, k: string)
    requires k in keys && TtlKey(k) !in keys && TtlKey(k) in db
    ensures k !in Removed(db, keys)
    ensures TtlKey(k) in Removed(db, keys) && Removed(db, keys)[TtlKey(k)] == db[TtlKey(k)]
  {
  }

  // ---------------------------------------------------------------------
  // remove's notification filter: `keys.contains(liveData)`
  // ---------------------------------------------------------------------

  /** A Kotlin `Any` as `keys.contains` sees it: a key string, or a LiveData object. */
  datatype AnyRef<O> = StrRef(s: string) | LiveRef(ld: LiveValue<O>)

  /** `Array<String>.contains(element)`: some key `equals` the element. */
  function Contains<O>(keys: seq<string>, element: AnyRef<O>): bool {
    |keys| > 0 && (StrRef(keys[0]) == element || Contains(keys[1..], element))
  }

  /** A LiveData object is never equal to a key string, so the filter in `remove` selects nothing. */
  lemma {:induction false} NoKeyIsLiveData<O>(keys: seq<string>, ld: LiveValue<O>)
    ensures !Contains(keys, LiveRef(ld))
  {
    if |keys| > 0 {
      NoKeyIsLiveData(keys[1..], ld);
    }
  }

  // ---------------------------------------------------------------------
  // The store object
  // ---------------------------------------------------------------------

  /** A plain `MutableLiveData`: its current value (null: None). */
  class LiveValue<O> {
    var value: Option<Data<O>>

    constructor()
      ensures value == None
    {
      value := None;
    }

    /** `postValue`, taken as an immediate `setValue`. */
    method PostValue(v: Option<Data<O>>)
      modifies this
      ensures value == v
    {
      value := v;
    }
  }

  class VardStore<O> {
    const config: VardStoreConfig
    const fst: ObjectCodec<O>
    /** The MMKV namespace `config.name`. */
    var engine: Engine
    /** One LiveData per key, created on demand and never removed. */
    var liveDataMap: map<string, LiveValue<O>>

    /** No two keys share a LiveData. */
    ghost predicate Valid()
      reads this`liveDataMap
    {
      forall k1, k2 :: k1 in liveDataMap && k2 in liveDataMap && k1 != k2 ==> liveDataMap[k1] != liveDataMap[k2]
    }

    /** Every entry of `before` is still in the map, with the same LiveData object. */
    ghost predicate Keeps(before: map<string, LiveValue<O>>)
      reads this`liveDataMap
    {
      forall k :: k in before ==> k in liveDataMap && liveDataMap[k] == before[k]
    }

    /** `VardStore(config)`, opening a namespace that already holds `persisted`. */
    constructor(config: VardStoreConfig, fst: ObjectCodec<O>, persisted: Engine)
      ensures Valid()
      ensures this.config == config && this.fst == fst
      ensures engine == persisted && liveDataMap == map[]
    {
      this.config := config;
      this.fst := fst;
      engine := persisted;
      liveDataMap := map[];
    }

    /** `getMutableLiveData`: get-or-create the LiveData of `key`. */
    method GetMutableLiveData(key: string) returns (ld: LiveValue<O>)
      requires Valid()
      modifies this`liveDataMap
      ensures Valid()
      ensures key in old(liveDataMap) ==> ld == old(liveDataMap)[key] && liveDataMap == old(liveDataMap)
      ensures key !in old(liveDataMap) ==> fresh(ld) && ld.value == None && liveDataMap == old(liveDataMap)[key := ld]
    {
      if key in liveDataMap {
        ld := liveDataMap[key];
      } else {
        ld := new LiveValue();
        liveDataMap := liveDataMap[key := ld];
      }
    }

    /** `getLiveData`: the same get-or-create, handed out read-only. */
    method GetLiveData(key: string) returns (ld: LiveValue<O>)
      requires Valid()
      modifies this`liveDataMap
      ensures Valid()
      ensures key in old(liveDataMap) ==> ld == old(liveDataMap)[key] && liveDataMap == old(liveDataMap)
      ensures key !in old(liveDataMap) ==> fresh(ld) && ld.value == None && liveDataMap == old(liveDataMap)[key := ld]
    {
      ld := GetMutableLiveData(key);
    }

    /**
     * `getFilledLivedData` with a synchronous fill: get-or-create the LiveData
     * of `key` and, if its value is null, set it to `getDataByType`. A decode
     * error propagates after the LiveData has been created.
     */
    method GetFilledLiveData(key: string, entityType: EntityType, isTTL: bool, now: Millis)
      returns (r: Result<LiveValue<O>, DecodeError>)
      requires Valid()
      modifies this`liveDataMap, liveDataMap.Values
      ensures Valid() && Keeps(old(liveDataMap))
      ensures key in liveDataMap && liveDataMap == old(liveDataMap)[key := liveDataMap[key]]
      ensures key !in old(liveDataMap) ==> fresh(liveDataMap[key])
      ensures forall k :: k in old(liveDataMap) && k != key ==> liveDataMap[k].value == old(liveDataMap[k].value)
      ensures r.Success? ==> r.value == liveDataMap[key]
      ensures key in old(liveDataMap) && old(liveDataMap[key].value).Some? ==>
        r.Success? && liveDataMap[key].value == old(liveDataMap[key].value)
      ensures !(key in old(liveDataMap) && old(liveDataMap[key].value).Some?) ==>
        var fill := GetDataByType(engine, key, entityType, isTTL, now, fst);
        && (r.Success? <==> fill.Success?)
        && liveDataMap[key].value == (if fill.Success? then fill.value else None)
        && (r.Failure? ==> r.error == fill.error)
    {
      var ld := GetMutableLiveData(key);
      if ld.value.None? {
        var fill := GetDataByType(engine, key, entityType, isTTL, now, fst);
        if fill.Failure? {
          return Failure(fill.error);
        }
        ld.PostValue(fill.value);
      }
      r := Success(ld);
    }

    /** `notifyLiveData`: post `data` to the LiveData of `key`, creating it if need be. */
    method NotifyLiveData(key: string, data: Option<Data<O>>)
      requires Valid()
      modifies this`liveDataMap, liveDataMap.Values
      ensures Valid() && Keeps(old(liveDataMap))
      ensures key in liveDataMap && liveDataMap == old(liveDataMap)[key := liveDataMap[key]]
      ensures liveDataMap[key].value == data
      ensures forall k :: k in old(liveDataMap) && k != key ==> liveDataMap[k].value == old(liveDataMap[k].value)
    {
      var ld := GetMutableLiveData(key);
      ld.PostValue(data);
    }

    /** One MMKV `encode`: `accepted` is MMKV's answer. */
    method EngineEncode(key: string, v: Value, accepted: bool) returns (ok: bool)
      modifies this`engine
      ensures ok == accepted
      ensures engine == Put(old(engine), key, v, accepted)
    {
      if accepted {
        engine := engine[key := v];
      }
      ok := accepted;
    }

    /** `setTTL`'s marker write; the caller then runs the value write. */
    method SetTTL(key: string, ttl: Long, now: Millis, markerOk: bool)
      modifies this`engine
      ensures engine == MarkTtl(old(engine), key, ttl, now, markerOk)
    {
      if ttl > 0 {
        var _ := EngineEncode(TtlKey(key), LongV(AddLong(now, ttl)), markerOk);
      }
    }

    /** The private `MMKV.encode(key, value, ttl)`: marker, then the value through the type dispatch. */
    method Encode(key: string, x: Data<O>, ttl: Long, now: Millis, markerOk: bool, valueOk: bool) returns (ok: bool)
      modifies this`engine
      ensures ok == valueOk
      ensures engine == AfterSave(old(engine), key, Encoded(x, fst), ttl, now, markerOk, valueOk)
    {
      SetTTL(key, ttl, now, markerOk);
      ok := EngineEncode(key, Encoded(x, fst), valueOk);
    }

    /** The generic `save`: write, then notify only when the value write succeeded. */
    method Save(key: string, x: Data<O>, ttl: Long := -1, now: Millis, markerOk: bool, valueOk: bool) returns (ok: bool)
      requires Valid()
      modifies this`engine, this`liveDataMap, liveDataMap.Values
      ensures Valid() && Keeps(old(liveDataMap))
      ensures ok == valueOk
      ensures engine == AfterSave(old(engine), key, Encoded(x, fst), ttl, now, markerOk, valueOk)
      ensures ok ==> key in liveDataMap && liveDataMap == old(liveDataMap)[key := liveDataMap[key]] && liveDataMap[key].value == Some(x)
      ensures !ok ==> liveDataMap == old(liveDataMap)
      ensures forall k :: k in old(liveDataMap) && (k != key || !ok) ==> liveDataMap[k].value == old(liveDataMap[k].value)
    {
      ok := Encode(key, x, ttl, now, markerOk, valueOk);
      if ok {
        NotifyLiveData(key, Some(x));
      }
    }

    /** The string-set `save`: write, then notify whatever the write returned. */
    method SaveStringSet(key: string, strings: set<string>, ttl: Long := -1, now: Millis, markerOk: bool, valueOk: bool) returns (ok: bool)
      requires Valid()
      modifies this`engine, this`liveDataMap, liveDataMap.Values
      ensures Valid() && Keeps(old(liveDataMap))
      ensures ok == valueOk
      ensures engine == AfterSave(old(engine), key, StringSetV(strings), ttl, now, markerOk, valueOk)
      ensures key in liveDataMap && liveDataMap == old(liveDataMap)[key := liveDataMap[key]]
      ensures liveDataMap[key].value == Some(Native(StringSetV(strings)))
      ensures forall k :: k in old(liveDataMap) && k != key ==> liveDataMap[k].value == old(liveDataMap[k].value)
    {
      SetTTL(key, ttl, now, markerOk);
      ok := EngineEncode(key, StringSetV(strings), valueOk);
      NotifyLiveData(key, Some(Native(StringSetV(strings))));
    }

    /** The LiveData objects that `keys.contains(it)` selects. */
    function Matching(keys: seq<string>): set<LiveValue<O>>
      reads this`liveDataMap
    {
      set ld | ld in liveDataMap.Values && Contains(keys, LiveRef(ld))
    }

    /** `notifyKeysLiveCleared`: post null to every LiveData the filter selects. */
    method NotifyKeysLiveCleared(keys: seq<string>)
      modifies liveDataMap.Values
      ensures forall ld :: ld in liveDataMap.Values ==>
        ld.value == (if ld in Matching(keys) then None else old(ld.value))
    {
      var todo := Matching(keys);
      while todo != {}
        invariant todo <= Matching(keys)
        invariant forall ld :: ld in liveDataMap.Values ==>
          ld.value == (if ld in Matching(keys) - todo then None else old(ld.value))
        decreases todo
      {
        var ld :| ld in todo;
        ld.PostValue(None);
        todo := todo - {ld};
      }
    }

    /** `remove(keys)`: delete the listed keys (not their markers); no LiveData is posted to. */
    method Remove(keys: seq<string>)
      modifies this`engine, liveDataMap.Values
      ensures engine == Removed(old(engine), keys)
      ensures liveDataMap == old(liveDataMap)
      ensures forall ld :: ld in liveDataMap.Values ==> ld.value == old(ld.value)
    {
      engine := engine - (set k | k in keys);
      NotifyKeysLiveCleared(keys);
      forall ld | ld in liveDataMap.Values
        ensures ld !in Matching(keys)
      {
        NoKeyIsLiveData(keys, ld);
      }
    }

    /** `notifyAllLiveCleared`: post null to every LiveData. */
    method NotifyAllLiveCleared()
      modifies liveDataMap.Values
      ensures forall ld :: ld in liveDataMap.Values ==> ld.value == None
    {
      var todo := liveDataMap.Values;
      while todo != {}
        invariant todo <= liveDataMap.Values
        invariant forall ld :: ld in liveDataMap.Values && ld !in todo ==> ld.value == None
        decreases todo
      {
        var ld :| ld in todo;
        ld.PostValue(None);
        todo := todo - {ld};
      }
    }

    /** `clear()`: empty the namespace and post null to every LiveData. */
    method Clear()
      modifies this`engine, liveDataMap.Values
      ensures engine == map[]
      ensures liveDataMap == old(liveDataMap)
      ensures forall ld :: ld in liveDataMap.Values ==> ld.value == None
    {
      engine := map[];
      NotifyAllLiveCleared();
    }
  }

  /** Two clears in a row leave the same state as one. */
  method ClearTwice<O>(s: VardStore<O>)
    modifies s, s.liveDataMap.Values
    ensures s.engine == map[] && s.liveDataMap == old(s.liveDataMap)
    ensures forall ld :: ld in s.liveDataMap.Values ==> ld.value == None
  {
    s.Clear();
    s.Clear();
  }

  /**
   * A store opened on an empty namespace saves a native value with a
   * positive ttl; its LiveData then holds the value, and a typed read at
   * `t` sees it exactly while `t` is before the expiry.
   */
  method SaveThenObserve<O>(config: VardStoreConfig, fst: ObjectCodec<O>, key: string, v: Value, ttl: Long, t0: Millis, t: Millis)
    returns (observed: Option<Data<O>>, read: Result<Option<Data<O>>, DecodeError>)
    requires config.isTTL && EntityTypeOf(v) != NONE && ttl > 0 && t0 + ttl <= MaxLong
    ensures observed == Some(Native(v))
    ensures read == Success(if t < t0 + ttl then Some(Native(v)) else None)
  {
    var s := new VardStore(config, fst, map[]);
    var ok := s.Save(key, Native(v), ttl, t0, true, true);
    var ld := s.GetLiveData(key);
    observed := ld.value;
    read := GetDataByType(s.engine, key, EntityTypeOf(v), s.config.isTTL, t, fst);
    ReadAfterSave(map[], key, v, ttl, t0, t, fst);
  }
}
