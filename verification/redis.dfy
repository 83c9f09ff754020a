/**
 * The cache-aside adapter over Redis (driver/redis/redis.go). `Client`
 * stands for the Redis server as the go-redis client sees it: a key-value
 * store whose GET, SET and DEL may fail. `RepoProvider` is the adapter:
 * Fetch reads through the cache and repopulates it on a miss, and Del
 * removes keys.
 */
module Redis {
  import opened Wrappers
  import opened Entity
  import opened Errors

  type Bytes = seq<byte>

  /** time.Duration, in nanoseconds. */
  type Duration = int

  /** A stored value and the expiration it was set with; time does not pass in this model. */
  datatype Entry = Entry(value: Bytes, expiration: Duration)

  /** Failures the server reports instead of serving a command, when set. */
  datatype StoreFaults = StoreFaults(getErr: Option<string>, setErr: Option<string>, delErr: Option<string>)

  /** The commands the server receives, in order. */
  datatype StoreOp =
    | GetOp(key: string)
    | SetOp(key: string, value: Bytes, expiration: Duration)
    | DelOp(keys: seq<string>)

  /** The server's answer to GET: the bytes, a failure, or the Nil sentinel for a missing key. */
  function GetResponse(data: map<string, Entry>, faults: StoreFaults, key: string): (r: Result<Bytes, Error>)
    ensures r == Failure(Nil) <==> faults.getErr.None? && key !in data
    ensures r.Success? <==> faults.getErr.None? && key in data
    ensures r.Success? ==> r.value == data[key].value
    ensures faults.getErr.Some? ==> r == Failure(Storage(faults.getErr.value))
  {
    if faults.getErr.Some? then Failure(Storage(faults.getErr.value))
    else if key in data then Success(data[key].value)
    else Failure(Nil)
  }

  /** The server's answer to SET (None is OK). */
  function SetResponse(faults: StoreFaults): Option<Error> {
    if faults.setErr.Some? then Some(Storage(faults.setErr.value)) else None
  }

  /** What the server answers a DEL that names no key. */
  const DelArityError: string := "ERR wrong number of arguments for 'del' command"

  /** The server's answer to DEL (None is OK): a DEL needs at least one key. */
  function DelResponse(faults: StoreFaults, keys: seq<string>): (r: Option<Error>)
    ensures r.None? <==> faults.delErr.None? && keys != []
    ensures faults.delErr.Some? ==> r == Some(Storage(faults.delErr.value))
    ensures faults.delErr.None? && keys == [] ==> r == Some(Storage(DelArityError))
  {
    if faults.delErr.Some? then Some(Storage(faults.delErr.value))
    else if keys == [] then Some(Storage(DelArityError))
    else None
  }

  function KeySet(keys: seq<string>): (s: set<string>)
    ensures forall k :: k in s <==> k in keys
  {
    set k | k in keys
  }

  class Client {
    var data: map<string, Entry>
    var faults: StoreFaults
    ghost var log: seq<StoreOp>

    constructor (data: map<string, Entry>, faults: StoreFaults)
      ensures this.data == data && this.faults == faults && log == []
    {
      this.data := data;
      this.faults := faults;
      log := [];
    }

    method Get(key: string) returns (r: Result<Bytes, Error>)
      modifies this`log
      ensures r == GetResponse(data, faults, key)
      ensures log == old(log) + [GetOp(key)]
    {
      if faults.getErr.Some? {
        r := Failure(Storage(faults.getErr.value));
      } else if key in data {
        r := Success(data[key].value);
      } else {
        r := Failure(Nil);
      }
      log := log + [GetOp(key)];
    }

    method Set(key: string, value: Bytes, expiration: Duration) returns (err: Option<Error>)
      modifies this`data, this`log
      ensures err == SetResponse(faults)
      ensures data == if err.None? then old(data)[key := Entry(value, expiration)] else old(data)
      ensures log == old(log) + [SetOp(key, value, expiration)]
    {
      err := SetResponse(faults);
      if err.None? {
        data := data[key := Entry(value, expiration)];
      }
      log := log + [SetOp(key, value, expiration)];
    }

    /** DEL of several keys at once; keys that are absent are not an error, naming none is. */
    method Del(keys: seq<string>) returns (err: Option<Error>)
      modifies this`data, this`log
      ensures err == DelResponse(faults, keys)
      ensures keys == [] ==> err.Some?
      ensures data == if err.None? then old(data) - KeySet(keys) else old(data)
      ensures log == old(log) + [DelOp(keys)]
    {
      err := DelResponse(faults, keys);
      if err.None? {
        data := data - KeySet(keys);
      }
      log := log + [DelOp(keys)];
    }
  }

  // ---------------------------------------------------------------------
  // JSON, the format between the adapter and the store

  /** encoding/json for one destination type: Marshal may fail, Unmarshal may fail. */
  datatype Json<!V> = Json(marshal: V -> Result<Bytes, Error>, unmarshal: Bytes -> Result<V, Error>)

  /** Unmarshal gives back every value that Marshal accepted. */
  ghost predicate RoundTrips<V(!new)>(json: Json<V>) {
    forall v :: json.marshal(v).Success? ==> json.unmarshal(json.marshal(v).value) == Success(v)
  }

  /** JSON decoding never fails with the store's own Nil sentinel. */
  ghost predicate NeverNil<V>(json: Json<V>) {
    forall b :: json.unmarshal(b) != Failure(Nil)
  }

  /** The package function get: GET the key and, when that worked, unmarshal the bytes. */
  function Decoded<V>(got: Result<Bytes, Error>, json: Json<V>): (r: Result<V, Error>)
    ensures got.Failure? ==> r == Failure(got.error)
    ensures got.Success? ==> r == json.unmarshal(got.value)
  {
    match got
    case Failure(e) => Failure(e)
    case Success(b) => json.unmarshal(b)
  }

  /**
   * What one Fetch does: the error or value it returns, whether it invoked the
   * callback, and the bytes it handed to SET, if it got that far.
   */
  datatype FetchOutcome<V> = FetchOutcome(result: Result<V, Error>, loaderCalled: bool, setBytes: Option<Bytes>)

  /**
   * Fetch, given what get returned (`cached`), what the callback would
   * return (`load`), and the server's answer to SET.
   */
  function FetchSpec<V>(cached: Result<V, Error>, load: Result<V, Error>, json: Json<V>, setErr: Option<Error>): (o: FetchOutcome<V>)
    // a hit, or a failure other than Nil: return it, without the callback or a write
    ensures o.loaderCalled <==> cached == Failure(Nil)
    ensures !o.loaderCalled ==> o.result == cached && o.setBytes.None?
    // a miss whose callback fails: that error, unchanged, and no write
    ensures o.loaderCalled && load.Failure? ==> o.result == load && o.setBytes.None?
    // a miss whose value JSON cannot encode: the encoder's error and no write
    ensures o.loaderCalled && load.Success? && json.marshal(load.value).Failure? ==>
      o.result == Failure(json.marshal(load.value).error) && o.setBytes.None?
    // otherwise SET gets the encoded value, and the result is its error or the decoding of those bytes
    ensures o.setBytes.Some? <==> o.loaderCalled && load.Success? && json.marshal(load.value).Success?
    ensures o.setBytes.Some? ==>
      && o.setBytes == Some(json.marshal(load.value).value)
      && o.result == if setErr.Some? then Failure(setErr.value) else json.unmarshal(o.setBytes.value)
  {
    if cached.Failure? && cached.error != Nil then FetchOutcome(cached, false, None)
    else if cached.Success? then FetchOutcome(cached, false, None)
    else
      match load
      case Failure(e) => FetchOutcome(Failure(e), true, None)
      case Success(v) =>
        match json.marshal(v)
        case Failure(e) => FetchOutcome(Failure(e), true, None)
        case Success(b) =>
          if setErr.Some? then FetchOutcome(Failure(setErr.value), true, Some(b))
          else FetchOutcome(json.unmarshal(b), true, Some(b))
  }

  /** The store after a Fetch with the given outcome. */
  function StoreAfter<V>(data: map<string, Entry>, key: string, expiration: Duration,
                         o: FetchOutcome<V>, setErr: Option<Error>): (d: map<string, Entry>)
    ensures o.setBytes.Some? && setErr.None? ==> d == data[key := Entry(o.setBytes.value, expiration)]
    ensures o.setBytes.None? || setErr.Some? ==> d == data
  {
    if o.setBytes.Some? && setErr.None? then data[key := Entry(o.setBytes.value, expiration)] else data
  }

  /** The commands a Fetch with the given outcome sends to the server. */
  function FetchOps<V>(key: string, expiration: Duration, o: FetchOutcome<V>): seq<StoreOp> {
    [GetOp(key)] + if o.setBytes.Some? then [SetOp(key, o.setBytes.value, expiration)] else []
  }

  /** On a miss that succeeds, the destination holds exactly what the callback produced. */
  lemma MissReturnsLoadedValue<V(!new)>(cached: Result<V, Error>, load: Result<V, Error>, json: Json<V>, setErr: Option<Error>)
    requires RoundTrips(json)
    ensures var o := FetchSpec(cached, load, json, setErr);
      o.loaderCalled && o.result.Success? ==> o.result == load
  {
  }

  /**
   * A second Fetch of the same key, with no DEL in between, does not invoke
   * its callback when the first Fetch succeeded or left the key stored.
   */
  lemma CallbackAtMostOnce<V>(data: map<string, Entry>, faults: StoreFaults, key: string, expiration: Duration,
                              load1: Result<V, Error>, load2: Result<V, Error>, json: Json<V>)
    requires NeverNil(json)
    ensures var o1 := FetchSpec(Decoded(GetResponse(data, faults, key), json), load1, json, SetResponse(faults));
      var data1 := StoreAfter(data, key, expiration, o1, SetResponse(faults));
      var o2 := FetchSpec(Decoded(GetResponse(data1, faults, key), json), load2, json, SetResponse(faults));
      && (o1.result.Success? ==> key in data1)
      && (key in data1 && faults.getErr.None? ==> !o2.loaderCalled)
  {
  }

  /** After a DEL of `keys`, none of them is stored and every other key keeps its entry. */
  lemma DelRemovesExactly(data: map<string, Entry>, keys: seq<string>)
    ensures forall k :: k in keys ==> k !in data - KeySet(keys)
    ensures forall k :: k !in keys ==> (k in data - KeySet(keys) <==> k in data)
    ensures forall k :: k !in keys && k in data ==> (data - KeySet(keys))[k] == data[k]
  {
  }

  /** The adapter (RepoProvider) over one client. */
  class RepoProvider {
    const rds: Client

    /** NewRedisClient. */
    constructor (rds: Client)
      ensures this.rds == rds
    {
      this.rds := rds;
    }

    /**
     * Del: one DEL with the given keys, unchanged and in order; its error is
     * returned. When it succeeds the keys are removed from the store
     * (DelRemovesExactly); when it fails the store is unchanged.
     */
    method Del(keys: seq<string>) returns (err: Option<Error>)
      modifies rds
      ensures err == DelResponse(rds.faults, keys) && rds.faults == old(rds.faults)
      ensures keys == [] ==> err.Some?
      ensures rds.log == old(rds.log) + [DelOp(keys)]
      ensures rds.data == if err.None? then old(rds.data) - KeySet(keys) else old(rds.data)
    {
      var cacheKeys := [] + keys;
      assert cacheKeys == keys;
      err := rds.Del(cacheKeys);
    }

    /** The package function get. */
    method Get<V>(key: string, json: Json<V>) returns (r: Result<V, Error>)
      modifies rds`log
      ensures r == Decoded(GetResponse(rds.data, rds.faults, key), json)
      ensures rds.log == old(rds.log) + [GetOp(key)]
    {
      var got := rds.Get(key);
      match got
      case Failure(e) => r := Failure(e);
      case Success(b) => r := json.unmarshal(b);
    }

    /** The package function set. */
    method Set(key: string, value: Bytes, expiration: Duration) returns (err: Option<Error>)
      modifies rds`data, rds`log
      ensures err == SetResponse(rds.faults)
      ensures rds.data == if err.None? then old(rds.data)[key := Entry(value, expiration)] else old(rds.data)
      ensures rds.log == old(rds.log) + [SetOp(key, value, expiration)]
    {
      err := rds.Set(key, value, expiration);
    }

    /**
     * Fetch: serve the key from the cache; on a miss, call the callback,
     * store its JSON encoding with the given expiration, and return the
     * decoding of those same bytes.
     */
    method Fetch<V>(key: string, expiration: Duration, callback: () -> Result<V, Error>, json: Json<V>)
      returns (r: Result<V, Error>, callbackCalled: bool)
      modifies rds
      ensures rds.faults == old(rds.faults)
      ensures var o := FetchSpec(Decoded(GetResponse(old(rds.data), rds.faults, key), json), callback(), json, SetResponse(rds.faults));
        && r == o.result
        && callbackCalled == o.loaderCalled
        && rds.data == StoreAfter(old(rds.data), key, expiration, o, SetResponse(rds.faults))
        && rds.log == old(rds.log) + FetchOps(key, expiration, o)
    {
      callbackCalled := false;
      var cached := Get(key, json);
      if cached.Failure? && cached.error != Nil {
        return cached, callbackCalled;
      } else if cached.Success? {
        return cached, callbackCalled;
      }

      callbackCalled := true;
      var callbackValue := callback();
      if callbackValue.Failure? {
        return Failure(callbackValue.error), callbackCalled;
      }

      var setBytes := json.marshal(callbackValue.value);
      if setBytes.Failure? {
        return Failure(setBytes.error), callbackCalled;
      }

      var err := Set(key, setBytes.value, expiration);
      if err.Some? {
        return Failure(err.value), callbackCalled;
      }

      r := json.unmarshal(setBytes.value);
    }
  }
}
