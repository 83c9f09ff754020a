/**
 * The tiger sighting service (modules/sighting/v1/service/sighting.go): four
 * use cases over a repository and the cache-aside adapter. Each use case is
 * first described as a value, the ordered calls it makes on its
 * collaborators and the error it returns, given what those collaborators
 * answer; the methods of TigerSightingService are then proved to make exactly
 * those calls and the state changes that follow from them.
 */
module Service {
  import opened Wrappers
  import opened Entity
  import opened Errors
  import Decimal
  import opened Helper
  import opened Redis
  import opened Repository

  // ---------------------------------------------------------------------
  // Cache keys and constants

  const BaseKey: string := ModuleName + ":" + ModuleVersion + ":"
  const GetTigersKey: string := BaseKey + "sighting:get-tigers"
  const SightingsKeyPrefix: string := BaseKey + "sighting:get-sightings-by-tiger:"

  /** One minute, the expiration of both cached lists. */
  const GetTigersRedisTTL: Duration := 60 * 1_000_000_000

  /** The largest accepted distance, in kilometres, from the tiger's last position. */
  const MaxDistance: real := 5.00

  /**
   * The keys spelled out for module "sighting", version "v1" (the per-tiger
   * prefix is BaseKey followed by "sighting:get-sightings-by-tiger:"); the
   * expiration is one minute in nanoseconds.
   */
  lemma KeyLayout()
    ensures BaseKey == "sighting:v1:"
    ensures GetTigersKey == "sighting:v1:sighting:get-tigers"
    ensures GetTigersRedisTTL == 60_000_000_000
  {
    assert BaseKey == "sighting:v1:";
  }

  /** The per-tiger key: the prefix followed by the tiger ID in decimal. */
  function GetSightingsByTigerIDKey(tigerID: int32): (k: string)
    ensures HasPrefix(k, SightingsKeyPrefix)
    ensures Decimal.Parse(k[|SightingsKeyPrefix|..]) == Some(tigerID as int)
    ensures k != GetTigersKey
  {
    var k := SightingsKeyPrefix + Decimal.Format(tigerID as int);
    assert k[..|SightingsKeyPrefix|] == SightingsKeyPrefix;
    assert k[|SightingsKeyPrefix|..] == Decimal.Format(tigerID as int);
    Decimal.FormatRoundTrip(tigerID as int);
    assert |SightingsKeyPrefix| > |GetTigersKey|;
    k
  }

  /** Different tigers never share a sightings key, so invalidating one leaves the others cached. */
  lemma SightingsKeysDistinct(a: int32, b: int32)
    ensures GetSightingsByTigerIDKey(a) == GetSightingsByTigerIDKey(b) ==> a == b
  {
    var ka, kb := GetSightingsByTigerIDKey(a), GetSightingsByTigerIDKey(b);
    if ka == kb {
      assert ka[|SightingsKeyPrefix|..] == kb[|SightingsKeyPrefix|..];
    }
  }

  // ---------------------------------------------------------------------
  // Foreign libraries

  datatype Point = Point(lat: real, lng: real)

  /**
   * The library code the service calls: the great-circle distance in
   * kilometres, the image codecs, and JSON for the two cached lists.
   */
  datatype Libraries = Libraries(
    greatCircleDistance: (Point, Point) -> real,
    codecs: Codecs,
    tigersJson: Json<seq<Tiger>>,
    sightingsJson: Json<seq<Sighting>>)

  /** Distance from the tiger's last position to the sighting. */
  function Distance(libs: Libraries, tiger: Tiger, s: Sighting): real {
    libs.greatCircleDistance(Point(tiger.lastSeenLatitude, tiger.lastSeenLongitude), Point(s.latitude, s.longitude))
  }

  /** The loaded tiger, moved to where and when the sighting saw it. */
  function MovedTiger(tiger: Tiger, s: Sighting): (t: Tiger)
    ensures t.lastSeenTimestamp == s.seenAt && t.lastSeenLatitude == s.latitude && t.lastSeenLongitude == s.longitude
    ensures t.id == tiger.id && t.name == tiger.name && t.dateOfBirth == tiger.dateOfBirth
    ensures t.createdAt == tiger.createdAt && t.updatedAt == tiger.updatedAt
  {
    tiger.(lastSeenTimestamp := s.seenAt, lastSeenLatitude := s.latitude, lastSeenLongitude := s.longitude)
  }

  // ---------------------------------------------------------------------
  // The use cases as values

  /**
   * The queries one use case sends to the repository and the commands it
   * sends to the cache, each in order, and the error it returns (None is
   * Go's nil).
   */
  datatype Plan = Plan(repoCalls: seq<RepoOp>, cacheCalls: seq<StoreOp>, err: Option<Error>)

  /** CreateTiger, given the repository's answer to the insert. */
  function CreateTigerPlan(t: Tiger, insertErr: Option<Error>): (p: Plan)
    // an invalid tiger: the validator's error, and no call on either collaborator
    ensures IsValidTiger(t).Some? <==> p.repoCalls == []
    ensures IsValidTiger(t).Some? ==> p == Plan([], [], Some(Invalid(IsValidTiger(t).value)))
    // a failed insert: its error, unchanged, and no cache call
    ensures IsValidTiger(t).None? && insertErr.Some? ==> p == Plan([CreateTigerOp(t)], [], insertErr)
    // success: the insert, then the tiger list key alone is deleted; nil whatever Del answers
    ensures p.err.None? <==> IsValidTiger(t).None? && insertErr.None?
    ensures p.err.None? ==> p == Plan([CreateTigerOp(t)], [DelOp([GetTigersKey])], None)
  {
    match IsValidTiger(t)
    case Some(rule) => Plan([], [], Some(Invalid(rule)))
    case None =>
      if insertErr.Some? then Plan([CreateTigerOp(t)], [], insertErr)
      else Plan([CreateTigerOp(t)], [DelOp([GetTigersKey])], None)
  }

  /** The sighting as stored: its image replaced by the normalised one. */
  function StoredSighting(s: Sighting, codecs: Codecs): (r: Sighting)
    ensures r.imageData == ResizeBase64Image(s.imageData, codecs).output
    ensures r.(imageData := s.imageData) == s
  {
    s.(imageData := ResizeBase64Image(s.imageData, codecs).output)
  }

  /** Every repository query of a CreateSighting that succeeds, in order. */
  function SightingQueries(s: Sighting, tiger: Tiger, codecs: Codecs): seq<RepoOp> {
    [ GetTigerByIDOp(s.tigerID),
      CreateSightingOp(StoredSighting(s, codecs)),
      UpdateTigerOp(MovedTiger(tiger, StoredSighting(s, codecs))) ]
  }

  /** The cache commands that end a successful CreateSighting. */
  function SightingInvalidation(tigerID: int32): seq<StoreOp> {
    [DelOp([GetSightingsByTigerIDKey(tigerID)]), DelOp([GetTigersKey])]
  }

  /**
   * The write stages of CreateSighting once every check has passed: insert the
   * stored sighting, update the moved tiger, delete both cache keys.
   */
  function WritePlan(stored: Sighting, moved: Tiger, insertErr: Option<Error>, updateErr: Option<Error>): Plan {
    if insertErr.Some? then Plan([CreateSightingOp(stored)], [], insertErr)
    else if updateErr.Some? then Plan([CreateSightingOp(stored), UpdateTigerOp(moved)], [], updateErr)
    else Plan([CreateSightingOp(stored), UpdateTigerOp(moved)], SightingInvalidation(stored.tigerID), None)
  }

  /**
   * CreateSighting, given the repository's answers to the tiger lookup, the
   * sighting insert and the tiger update.
   */
  function CreateSightingPlan(s: Sighting, lookup: Result<Tiger, Error>, libs: Libraries,
                              insertErr: Option<Error>, updateErr: Option<Error>): (p: Plan)
    // 1. validation comes first and calls nothing
    ensures IsValidSighting(s).Some? <==> p.repoCalls == []
    ensures IsValidSighting(s).Some? ==> p == Plan([], [], Some(Invalid(IsValidSighting(s).value)))
    // 2. then the lookup; its error is returned unchanged
    ensures IsValidSighting(s).None? ==> |p.repoCalls| >= 1 && p.repoCalls[0] == GetTigerByIDOp(s.tigerID)
    ensures IsValidSighting(s).None? && lookup.Failure? ==> p == Plan([GetTigerByIDOp(s.tigerID)], [], Some(lookup.error))
    // the queries always follow the order of the full pipeline, and stop at the first failure
    ensures lookup.Success? ==> p.repoCalls <= SightingQueries(s, lookup.value, libs.codecs)
    ensures p.err.None? <==>
      && lookup.Success?
      && p.repoCalls == SightingQueries(s, lookup.value, libs.codecs)
      && p.cacheCalls == SightingInvalidation(s.tigerID)
    // 3. the distance gate is strict: only a distance above 5.00 is rejected, before any write
    ensures IsValidSighting(s).None? && lookup.Success? && Distance(libs, lookup.value, s) > MaxDistance ==>
      p == Plan([GetTigerByIDOp(s.tigerID)], [], Some(DistanceExceeded(Distance(libs, lookup.value, s))))
    ensures IsValidSighting(s).None? && lookup.Success? && |p.repoCalls| == 1 ==>
      (p.err == Some(DistanceExceeded(Distance(libs, lookup.value, s))) <==> Distance(libs, lookup.value, s) > MaxDistance)
    // 4. a failed normalisation is returned before any write
    ensures IsValidSighting(s).None? && lookup.Success? && Distance(libs, lookup.value, s) <= MaxDistance
            && ResizeBase64Image(s.imageData, libs.codecs).err.Some? ==>
      p == Plan([GetTigerByIDOp(s.tigerID)], [], Some(Error.Image(ResizeBase64Image(s.imageData, libs.codecs).err.value)))
    // 5. writes happen exactly when every check has passed
    ensures |p.repoCalls| >= 2 ==>
      && lookup.Success? && Distance(libs, lookup.value, s) <= MaxDistance
      && ResizeBase64Image(s.imageData, libs.codecs).err.None?
    ensures IsValidSighting(s).None? && lookup.Success? && Distance(libs, lookup.value, s) <= MaxDistance
            && ResizeBase64Image(s.imageData, libs.codecs).err.None? ==>
      && |p.repoCalls| >= 2
      && (insertErr.None? ==> |p.repoCalls| == 3)
      && (insertErr.None? && updateErr.None? ==> p.err.None?)
    // 6. a failed insert stops before the update; 7. the update follows a successful insert
    ensures |p.repoCalls| == 2 ==> insertErr.Some? && p.err == insertErr
    ensures |p.repoCalls| == 3 ==> insertErr.None? && p.err == updateErr
    // 8. caches are invalidated only after both writes succeeded
    ensures p.cacheCalls == [] <==> p.err.Some?
  {
    match IsValidSighting(s)
    case Some(rule) => Plan([], [], Some(Invalid(rule)))
    case None =>
      match lookup
      case Failure(e) => Plan([GetTigerByIDOp(s.tigerID)], [], Some(e))
      case Success(tiger) =>
        var d := Distance(libs, tiger, s);
        if d > MaxDistance then Plan([GetTigerByIDOp(s.tigerID)], [], Some(DistanceExceeded(d)))
        else
          var resized := ResizeBase64Image(s.imageData, libs.codecs);
          if resized.err.Some? then Plan([GetTigerByIDOp(s.tigerID)], [], Some(Error.Image(resized.err.value)))
          else
            var stored := StoredSighting(s, libs.codecs);
            var w := WritePlan(stored, MovedTiger(tiger, stored), insertErr, updateErr);
            Plan([GetTigerByIDOp(s.tigerID)] + w.repoCalls, w.cacheCalls, w.err)
  }

  /** A sighting exactly 5.00 km away passes the gate and, with a good image, reaches the insert. */
  lemma GateAdmitsBoundary(s: Sighting, tiger: Tiger, libs: Libraries, insertErr: Option<Error>, updateErr: Option<Error>)
    requires IsValidSighting(s).None? && Distance(libs, tiger, s) == 5.00
    ensures var p := CreateSightingPlan(s, Success(tiger), libs, insertErr, updateErr);
      ResizeBase64Image(s.imageData, libs.codecs).err.None? ==> |p.repoCalls| >= 2 && p.repoCalls[1].CreateSightingOp?
  {
  }

  /** The sighting handed to the insert carries the normalised image, not the caller's. */
  lemma InsertCarriesResizedImage(s: Sighting, lookup: Result<Tiger, Error>, libs: Libraries,
                                  insertErr: Option<Error>, updateErr: Option<Error>)
    ensures var p := CreateSightingPlan(s, lookup, libs, insertErr, updateErr);
      |p.repoCalls| >= 2 ==>
        && p.repoCalls[1].CreateSightingOp?
        && p.repoCalls[1].sighting.imageData == ResizeBase64Image(s.imageData, libs.codecs).output
        && p.repoCalls[1].sighting.(imageData := s.imageData) == s
        && HasPrefix(p.repoCalls[1].sighting.imageData, PrefixOf(DetectFormat(s.imageData)))
  {
    var p := CreateSightingPlan(s, lookup, libs, insertErr, updateErr);
    if |p.repoCalls| >= 2 {
      var r := ResizeBase64Image(s.imageData, libs.codecs);
      if HasPrefix(s.imageData, JpegPrefix) {
        assert HasPrefix(r.output, JpegPrefix);
      }
    }
  }

  /**
   * The tiger handed to the update is the loaded tiger with its last-seen
   * time and position taken from the sighting; nothing else changes.
   */
  lemma UpdateMovesLoadedTiger(s: Sighting, lookup: Result<Tiger, Error>, libs: Libraries,
                               insertErr: Option<Error>, updateErr: Option<Error>)
    ensures var p := CreateSightingPlan(s, lookup, libs, insertErr, updateErr);
      |p.repoCalls| >= 3 ==>
        && lookup.Success? && p.repoCalls[2].UpdateTigerOp?
        && p.repoCalls[2].tiger == lookup.value.(lastSeenTimestamp := s.seenAt, lastSeenLatitude := s.latitude,
                                                 lastSeenLongitude := s.longitude)
  {
  }

  // ---------------------------------------------------------------------
  // Reads through the cache

  /**
   * Right after an invalidation that removed the key, the next read of it
   * goes to the repository: a successful CreateTiger or CreateSighting makes
   * the following list read see the new rows.
   */
  lemma InvalidatedKeyReloads<V>(data: map<string, Entry>, faults: StoreFaults, key: string,
                                 load: Result<V, Error>, json: Json<V>)
    requires key !in data && faults.getErr.None?
    ensures FetchSpec(Decoded(GetResponse(data, faults, key), json), load, json, SetResponse(faults)).loaderCalled
  {
  }

  /**
   * A successful cached read returns either what the cache held or, on a
   * miss, exactly the repository's answer, provided the JSON codec round-trips.
   */
  lemma ReadServesCacheOrRepository<V(!new)>(data: map<string, Entry>, faults: StoreFaults, key: string,
                                             load: Result<V, Error>, json: Json<V>)
    requires RoundTrips(json)
    ensures var cached := Decoded(GetResponse(data, faults, key), json);
      var o := FetchSpec(cached, load, json, SetResponse(faults));
      o.result.Success? ==> (!o.loaderCalled && o.result == cached) || (o.loaderCalled && o.result == load)
  {
    MissReturnsLoadedValue(Decoded(GetResponse(data, faults, key), json), load, json, SetResponse(faults));
  }

  // ---------------------------------------------------------------------
  // The service

  /**
   * TigerSightingService over a repository and the cache adapter. The calls
   * it makes are those the repository and the cache server record in their
   * own logs.
   */
  class TigerSightingService {
    const repo: MemoryRepository
    const redisRepo: RepoProvider
    const libs: Libraries

    /** NewTigerSightingService. */
    constructor (repo: MemoryRepository, redisRepo: RepoProvider, libs: Libraries)
      ensures this.repo == repo && this.redisRepo == redisRepo && this.libs == libs
    {
      this.repo := repo;
      this.redisRepo := redisRepo;
      this.libs := libs;
    }

    /**
     * GetTigers: the tiger list through the cache under GetTigersKey with a
     * one-minute expiration; the repository is queried only on a miss.
     */
    method GetTigers() returns (r: Result<seq<Tiger>, Error>)
      modifies repo`log, redisRepo.rds
      ensures redisRepo.rds.faults == old(redisRepo.rds.faults)
      ensures var rds := redisRepo.rds;
        var o := FetchSpec(Decoded(GetResponse(old(rds.data), rds.faults, GetTigersKey), libs.tigersJson),
                           repo.GetTigersResponse(), libs.tigersJson, SetResponse(rds.faults));
        && r == o.result
        && repo.log == old(repo.log) + (if o.loaderCalled then [GetTigersOp] else [])
        && rds.data == StoreAfter(old(rds.data), GetTigersKey, GetTigersRedisTTL, o, SetResponse(rds.faults))
        && rds.log == old(rds.log) + FetchOps(GetTigersKey, GetTigersRedisTTL, o)
    {
      // a function value cannot issue the logged query, so the callback hands
      // back the answer the query gives, and the query follows when it was needed
      var answer := repo.GetTigersResponse();
      var called;
      r, called := redisRepo.Fetch(GetTigersKey, GetTigersRedisTTL, () => answer, libs.tigersJson);
      if called {
        var _ := repo.GetTigers();
      }
    }

    /**
     * GetSightingsByTigerID: the tiger's sightings through the cache under
     * its per-tiger key with a one-minute expiration.
     */
    method GetSightingsByTigerID(tigerID: int32) returns (r: Result<seq<Sighting>, Error>)
      modifies repo`log, redisRepo.rds
      ensures redisRepo.rds.faults == old(redisRepo.rds.faults)
      ensures var rds := redisRepo.rds;
        var key := GetSightingsByTigerIDKey(tigerID);
        var o := FetchSpec(Decoded(GetResponse(old(rds.data), rds.faults, key), libs.sightingsJson),
                           repo.GetSightingsResponse(tigerID), libs.sightingsJson, SetResponse(rds.faults));
        && r == o.result
        && repo.log == old(repo.log) + (if o.loaderCalled then [GetSightingsOp(tigerID)] else [])
        && rds.data == StoreAfter(old(rds.data), key, GetTigersRedisTTL, o, SetResponse(rds.faults))
        && rds.log == old(rds.log) + FetchOps(key, GetTigersRedisTTL, o)
    {
      var key := GetSightingsByTigerIDKey(tigerID);
      var answer := repo.GetSightingsResponse(tigerID);
      var called;
      r, called := redisRepo.Fetch(key, GetTigersRedisTTL, () => answer, libs.sightingsJson);
      if called {
        var _ := repo.GetSightingsByTigerID(tigerID);
      }
    }

    /**
     * CreateTiger: validate, insert, then delete GetTigersKey, ignoring the
     * deletion's error.
     */
    method CreateTiger(t: Tiger) returns (err: Option<Error>)
      requires repo.Valid()
      modifies repo`tigers, repo`log, redisRepo.rds
      ensures repo.Valid()
      ensures redisRepo.rds.faults == old(redisRepo.rds.faults)
      ensures var p := CreateTigerPlan(t, old(repo.CreateTigerResponse()));
        var rds := redisRepo.rds;
        && err == p.err
        && repo.log == old(repo.log) + p.repoCalls
        && rds.log == old(rds.log) + p.cacheCalls
        && repo.tigers == (if p.err.None? then old(repo.tigers) + [t.(id := NextID(|old(repo.tigers)|).value)]
                           else old(repo.tigers))
        && rds.data == (if p.err.None? && rds.faults.delErr.None? then old(rds.data) - {GetTigersKey}
                        else old(rds.data))
    {
      var invalid := IsValidTiger(t);
      if invalid.Some? {
        return Some(Invalid(invalid.value));
      }
      err := repo.CreateTiger(t);
      if err.Some? {
        return;
      }
      var _ := redisRepo.Del([GetTigersKey]);
      assert KeySet([GetTigersKey]) == {GetTigersKey};
    }

    /** CreateSightingPlan for `s`, with the answers the repository gives in its current state. */
    ghost function SightingPlan(s: Sighting): Plan
      reads repo`tigers, repo`sightings, repo`faults
    {
      CreateSightingPlan(s, repo.GetTigerByIDResponse(s.tigerID), libs,
                         repo.CreateSightingResponse(), repo.UpdateTigerResponse())
    }

    /**
     * CreateSighting: validate, load the tiger, apply the distance gate,
     * normalise the image, then run the write stages. `sighting` is the
     * caller's record afterwards: its image is overwritten as soon as
     * normalisation succeeds, even when a later stage fails.
     */
    method CreateSighting(s: Sighting) returns (err: Option<Error>, sighting: Sighting)
      requires repo.Valid()
      modifies repo`sightings, repo`tigers, repo`log, redisRepo.rds
      ensures repo.Valid()
      ensures redisRepo.rds.faults == old(redisRepo.rds.faults)
      ensures err == old(SightingPlan(s)).err
      ensures repo.log == old(repo.log) + old(SightingPlan(s)).repoCalls
      ensures redisRepo.rds.log == old(redisRepo.rds.log) + old(SightingPlan(s)).cacheCalls
      ensures sighting == if |old(SightingPlan(s)).repoCalls| >= 2 then StoredSighting(s, libs.codecs) else s
      // the sighting is stored once the insert succeeded, even if the tiger update then fails
      ensures repo.sightings == old(repo.sightings)
        + if |old(SightingPlan(s)).repoCalls| == 3
          then [StoredSighting(s, libs.codecs).(id := NextID(|old(repo.sightings)|).value)] else []
      ensures repo.tigers == if old(SightingPlan(s)).err.None?
        then ReplaceTiger(old(repo.tigers), MovedTiger(old(repo.GetTigerByIDResponse(s.tigerID)).value, sighting))
        else old(repo.tigers)
      ensures redisRepo.rds.data == if old(SightingPlan(s)).err.None? && redisRepo.rds.faults.delErr.None?
        then old(redisRepo.rds.data) - KeySet([GetSightingsByTigerIDKey(s.tigerID)]) - KeySet([GetTigersKey])
        else old(redisRepo.rds.data)
    {
      ghost var p := SightingPlan(s);
      sighting := s;
      var invalid := IsValidSighting(sighting);
      if invalid.Some? {
        assert p == Plan([], [], Some(Invalid(invalid.value)));
        return Some(Invalid(invalid.value)), sighting;
      }

      var lookup := repo.GetTigerByID(sighting.tigerID);
      if lookup.Failure? {
        return Some(lookup.error), sighting;
      }
      var tiger := lookup.value;
      var dist := libs.greatCircleDistance(Point(tiger.lastSeenLatitude, tiger.lastSeenLongitude),
                                           Point(sighting.latitude, sighting.longitude));
      if dist > MaxDistance {
        return Some(DistanceExceeded(dist)), sighting;
      }

      var resized := ResizeBase64Image(sighting.imageData, libs.codecs);
      if resized.err.Some? {
        return Some(Error.Image(resized.err.value)), sighting;
      }
      sighting := sighting.(imageData := resized.output);
      err := WriteSighting(sighting, tiger);
    }

    /**
     * The write stages of CreateSighting: insert the sighting, move the
     * tiger to it, then delete the per-tiger key and GetTigersKey, ignoring
     * the deletions' errors. Each failure stops the stages after it.
     */
    method WriteSighting(sighting: Sighting, tiger: Tiger) returns (err: Option<Error>)
      requires repo.Valid()
      modifies repo`sightings, repo`tigers, repo`log, redisRepo.rds
      ensures repo.Valid()
      ensures redisRepo.rds.faults == old(redisRepo.rds.faults)
      ensures var w := WritePlan(sighting, MovedTiger(tiger, sighting),
                                 old(repo.CreateSightingResponse()), old(repo.UpdateTigerResponse()));
        && err == w.err
        && repo.log == old(repo.log) + w.repoCalls
        && redisRepo.rds.log == old(redisRepo.rds.log) + w.cacheCalls
      ensures repo.sightings == old(repo.sightings)
        + if old(repo.CreateSightingResponse()).None? then [sighting.(id := NextID(|old(repo.sightings)|).value)] else []
      ensures repo.tigers == if old(repo.CreateSightingResponse()).None? && old(repo.UpdateTigerResponse()).None?
        then ReplaceTiger(old(repo.tigers), MovedTiger(tiger, sighting)) else old(repo.tigers)
      ensures redisRepo.rds.data == if err.None? && redisRepo.rds.faults.delErr.None?
        then old(redisRepo.rds.data) - KeySet([GetSightingsByTigerIDKey(sighting.tigerID)]) - KeySet([GetTigersKey])
        else old(redisRepo.rds.data)
    {
      err := repo.CreateSighting(sighting);
      if err.Some? {
        return;
      }

      err := repo.UpdateTiger(MovedTiger(tiger, sighting));
      if err.Some? {
        return;
      }

      InvalidateSightingCaches(sighting.tigerID);
    }

    /**
     * The cache invalidation that ends a successful CreateSighting: delete the
     * tiger's sightings key, then GetTigersKey; both errors are ignored.
     */
    method InvalidateSightingCaches(tigerID: int32)
      modifies redisRepo.rds
      ensures redisRepo.rds.faults == old(redisRepo.rds.faults)
      ensures redisRepo.rds.log == old(redisRepo.rds.log) + SightingInvalidation(tigerID)
      ensures redisRepo.rds.data == if redisRepo.rds.faults.delErr.None?
        then old(redisRepo.rds.data) - KeySet([GetSightingsByTigerIDKey(tigerID)]) - KeySet([GetTigersKey])
        else old(redisRepo.rds.data)
    {
      var _ := redisRepo.Del([GetSightingsByTigerIDKey(tigerID)]);
      var _ := redisRepo.Del([GetTigersKey]);
    }
  }
}
