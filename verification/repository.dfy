/**
 * An in-memory implementation of the repository interface the service
 * consumes (TigerSightingRepository in modules/sighting/v1/service/sighting.go).
 * Rows live in two sequences; every operation can be made to fail, as the
 * database can, through `faults`.
 */
module Repository {
  import opened Wrappers
  import opened Entity
  import opened Errors

  /** Failures the database reports instead of serving an operation, when set. */
  datatype RepoFaults = RepoFaults(
    getTigersErr: Option<string>,
    getTigerByIDErr: Option<string>,
    createTigerErr: Option<string>,
    updateTigerErr: Option<string>,
    getSightingsErr: Option<string>,
    createSightingErr: Option<string>)

  const MaxInt32: int := 0x7fff_ffff

  /** The first row with the given ID. */
  function FindTiger(rows: seq<Tiger>, id: int32): (r: Option<Tiger>)
    ensures r.Some? ==> r.value in rows && r.value.id == id
    ensures r.None? <==> forall i :: 0 <= i < |rows| ==> rows[i].id != id
  {
    if rows == [] then None
    else if rows[0].id == id then Some(rows[0])
    else
      assert forall i :: 1 <= i < |rows| ==> rows[i] == rows[1..][i - 1];
      FindTiger(rows[1..], id)
  }

  /** The sightings of one tiger, in row order. */
  function SightingsOf(rows: seq<Sighting>, tigerID: int32): (r: seq<Sighting>)
    ensures forall x :: x in r <==> x in rows && x.tigerID == tigerID
    ensures forall x :: multiset(r)[x] == if x.tigerID == tigerID then multiset(rows)[x] else 0
  {
    if rows == [] then []
    else
      assert rows == [rows[0]] + rows[1..];
      (if rows[0].tigerID == tigerID then [rows[0]] else []) + SightingsOf(rows[1..], tigerID)
  }

  /** UPDATE by primary key: every row with the tiger's ID becomes the tiger. */
  function ReplaceTiger(rows: seq<Tiger>, t: Tiger): (r: seq<Tiger>)
    ensures |r| == |rows|
    ensures forall i :: 0 <= i < |rows| ==> r[i] == if rows[i].id == t.id then t else rows[i]
  {
    seq(|rows|, i requires 0 <= i < |rows| => if rows[i].id == t.id then t else rows[i])
  }

  /** The serial ID the next inserted row gets, or None once int32 is exhausted. */
  function NextID(rowCount: nat): (r: Option<int32>)
    ensures r.Some? <==> rowCount < MaxInt32
    ensures r.Some? ==> r.value as int == rowCount + 1
  {
    if rowCount < MaxInt32 then Some((rowCount + 1) as int32) else None
  }

  function Fault(e: Option<string>): Option<Error> {
    if e.Some? then Some(Storage(e.value)) else None
  }

  /** The queries the database receives, in order. */
  datatype RepoOp =
    | GetTigersOp
    | GetTigerByIDOp(id: int32)
    | CreateTigerOp(tiger: Tiger)
    | UpdateTigerOp(tiger: Tiger)
    | GetSightingsOp(tigerID: int32)
    | CreateSightingOp(sighting: Sighting)

  /** Serial primary keys: the row at index i has ID i + 1. */
  ghost predicate SerialTigers(rows: seq<Tiger>) {
    forall i :: 0 <= i < |rows| ==> rows[i].id as int == i + 1
  }

  ghost predicate SerialSightings(rows: seq<Sighting>) {
    forall i :: 0 <= i < |rows| ==> rows[i].id as int == i + 1
  }

  class MemoryRepository {
    var tigers: seq<Tiger>
    var sightings: seq<Sighting>
    var faults: RepoFaults
    ghost var log: seq<RepoOp>

    /** Both tables carry the IDs their serial columns handed out, with no rows deleted. */
    ghost predicate Valid()
      reads this`tigers, this`sightings
    {
      SerialTigers(tigers) && SerialSightings(sightings)
    }

    constructor (tigers: seq<Tiger>, sightings: seq<Sighting>, faults: RepoFaults)
      requires SerialTigers(tigers) && SerialSightings(sightings)
      ensures this.tigers == tigers && this.sightings == sightings && this.faults == faults
      ensures log == [] && Valid()
    {
      this.tigers := tigers;
      this.sightings := sightings;
      this.faults := faults;
      log := [];
    }

    /** The answer GetTigers gives now: every tiger row. */
    function GetTigersResponse(): (r: Result<seq<Tiger>, Error>)
      reads this`tigers, this`faults
      ensures faults.getTigersErr.None? <==> r == Success(tigers)
      ensures faults.getTigersErr.Some? ==> r == Failure(Storage(faults.getTigersErr.value))
    {
      if faults.getTigersErr.Some? then Failure(Storage(faults.getTigersErr.value)) else Success(tigers)
    }

    /** The answer GetTigerByID gives now: the tiger with that ID, or NoRows. */
    function GetTigerByIDResponse(id: int32): (r: Result<Tiger, Error>)
      reads this`tigers, this`faults
      ensures r.Success? ==> r.value in tigers && r.value.id == id
      ensures r.Success? <==> faults.getTigerByIDErr.None? && exists i :: 0 <= i < |tigers| && tigers[i].id == id
      ensures r == Failure(NoRows) <==> faults.getTigerByIDErr.None? && forall i :: 0 <= i < |tigers| ==> tigers[i].id != id
      ensures faults.getTigerByIDErr.Some? ==> r == Failure(Storage(faults.getTigerByIDErr.value))
    {
      if faults.getTigerByIDErr.Some? then Failure(Storage(faults.getTigerByIDErr.value))
      else match FindTiger(tigers, id)
        case None => Failure(NoRows)
        case Some(t) => Success(t)
    }

    /** The answer GetSightingsByTigerID gives now: the sightings of that tiger, each as often as it is stored. */
    function GetSightingsResponse(tigerID: int32): (r: Result<seq<Sighting>, Error>)
      reads this`sightings, this`faults
      ensures r.Success? ==> forall x :: x in r.value <==> x in sightings && x.tigerID == tigerID
      ensures r.Success? ==> forall x :: multiset(r.value)[x] == if x.tigerID == tigerID then multiset(sightings)[x] else 0
      ensures r.Failure? <==> faults.getSightingsErr.Some?
      ensures faults.getSightingsErr.Some? ==> r == Failure(Storage(faults.getSightingsErr.value))
    {
      if faults.getSightingsErr.Some? then Failure(Storage(faults.getSightingsErr.value))
      else Success(SightingsOf(sightings, tigerID))
    }

    /** The answer CreateTiger would give now. */
    function CreateTigerResponse(): Option<Error>
      reads this`tigers, this`faults
    {
      if faults.createTigerErr.Some? then Fault(faults.createTigerErr)
      else if NextID(|tigers|).None? then Some(Storage("serial out of range"))
      else None
    }

    /** The answer CreateSighting would give now. */
    function CreateSightingResponse(): Option<Error>
      reads this`sightings, this`faults
    {
      if faults.createSightingErr.Some? then Fault(faults.createSightingErr)
      else if NextID(|sightings|).None? then Some(Storage("serial out of range"))
      else None
    }

    /** The answer UpdateTiger gives; a key that matches no row is not an error. */
    function UpdateTigerResponse(): Option<Error>
      reads this`faults
    {
      Fault(faults.updateTigerErr)
    }

    /**
     * Under serial keys an ID names at most one row: a lookup finds the row
     * at index id - 1 exactly when that index exists.
     */
    lemma SerialLookup(id: int32)
      requires Valid() && faults.getTigerByIDErr.None?
      ensures GetTigerByIDResponse(id).Success? <==> 1 <= id as int <= |tigers|
      ensures GetTigerByIDResponse(id).Success? ==> GetTigerByIDResponse(id).value == tigers[id as int - 1]
    {
      if 1 <= id as int <= |tigers| {
        assert tigers[id as int - 1].id == id;
      }
      if GetTigerByIDResponse(id).Success? {
        var i :| 0 <= i < |tigers| && tigers[i].id == id;
        assert i == id as int - 1;
      }
    }

    /** Under serial keys an update rewrites the row at index id - 1, if there is one, and no other. */
    lemma SerialUpdate(t: Tiger)
      requires Valid()
      ensures forall i :: 0 <= i < |tigers| && i != t.id as int - 1 ==> ReplaceTiger(tigers, t)[i] == tigers[i]
      ensures 1 <= t.id as int <= |tigers| ==> ReplaceTiger(tigers, t)[t.id as int - 1] == t
    {
    }

    /** GetTigers. */
    method GetTigers() returns (r: Result<seq<Tiger>, Error>)
      modifies this`log
      ensures r == GetTigersResponse()
      ensures log == old(log) + [GetTigersOp]
    {
      r := GetTigersResponse();
      log := log + [GetTigersOp];
    }

    /** GetTigerByID. */
    method GetTigerByID(id: int32) returns (r: Result<Tiger, Error>)
      modifies this`log
      ensures r == GetTigerByIDResponse(id)
      ensures log == old(log) + [GetTigerByIDOp(id)]
    {
      r := GetTigerByIDResponse(id);
      log := log + [GetTigerByIDOp(id)];
    }

    /** GetSightingsByTigerID. */
    method GetSightingsByTigerID(tigerID: int32) returns (r: Result<seq<Sighting>, Error>)
      modifies this`log
      ensures r == GetSightingsResponse(tigerID)
      ensures log == old(log) + [GetSightingsOp(tigerID)]
    {
      r := GetSightingsResponse(tigerID);
      log := log + [GetSightingsOp(tigerID)];
    }

    /** CreateTiger: insert the tiger under the next serial ID. */
    method CreateTiger(t: Tiger) returns (err: Option<Error>)
      requires Valid()
      modifies this`tigers, this`log
      ensures Valid()
      ensures err == old(CreateTigerResponse())
      ensures err.None? ==> tigers == old(tigers) + [t.(id := NextID(|old(tigers)|).value)]
      ensures err.Some? ==> tigers == old(tigers)
      ensures log == old(log) + [CreateTigerOp(t)]
    {
      err := CreateTigerResponse();
      if err.None? {
        tigers := tigers + [t.(id := NextID(|tigers|).value)];
      }
      log := log + [CreateTigerOp(t)];
    }

    /** CreateSighting: insert the sighting under the next serial ID. */
    method CreateSighting(s: Sighting) returns (err: Option<Error>)
      requires Valid()
      modifies this`sightings, this`log
      ensures Valid()
      ensures err == old(CreateSightingResponse())
      ensures err.None? ==> sightings == old(sightings) + [s.(id := NextID(|old(sightings)|).value)]
      ensures err.Some? ==> sightings == old(sightings)
      ensures log == old(log) + [CreateSightingOp(s)]
    {
      err := CreateSightingResponse();
      if err.None? {
        sightings := sightings + [s.(id := NextID(|sightings|).value)];
      }
      log := log + [CreateSightingOp(s)];
    }

    /** UpdateTiger: overwrite the row with the tiger's ID. */
    method UpdateTiger(t: Tiger) returns (err: Option<Error>)
      requires Valid()
      modifies this`tigers, this`log
      ensures Valid()
      ensures err == UpdateTigerResponse()
      ensures err.None? ==> tigers == ReplaceTiger(old(tigers), t)
      ensures err.Some? ==> tigers == old(tigers)
      ensures log == old(log) + [UpdateTigerOp(t)]
    {
      err := UpdateTigerResponse();
      if err.None? {
        tigers := ReplaceTiger(tigers, t);
      }
      log := log + [UpdateTigerOp(t)];
    }
  }
}
