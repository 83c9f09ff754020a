/**
 * The entities that flow through every layer of the sighting module
 * (modules/sighting/v1/entity/tiger.go), together with the part of Go's
 * time.Time that the validators observe.
 */
module Entity {
  import opened Wrappers

  /** Name and version of the module; both are part of every cache key. */
  const ModuleName: string := "sighting"
  const ModuleVersion: string := "v1"

  /** Go's int32, the type of every identifier. */
  newtype int32 = x: int | -0x8000_0000 <= x < 0x8000_0000

  /** Go's byte. */
  newtype byte = x: int | 0 <= x < 256

  /** Nanoseconds within one second. */
  type Nanos = n: int | 0 <= n < 1_000_000_000

  /**
   * A Go time.Time: the instant, as seconds since January 1 of year 1,
   * 00:00:00 UTC (Go's own origin) plus nanoseconds, and the offset in seconds
   * east of UTC of the location it is displayed in. The location does not
   * change the instant.
   */
  datatype Time = Time(sec: int, nsec: Nanos, zoneOffset: int)

  /** Seconds from January 1 of year 1 to January 1 1970, both at 00:00:00 UTC. */
  const SecondsFromYearOneToUnix: int := 62_135_596_800

  /** time.Unix(sec, nsec), shown in a location with the given offset. */
  function Unix(sec: int, nsec: Nanos, zoneOffset: int): (t: Time)
    ensures t.sec - SecondsFromYearOneToUnix == sec && t.nsec == nsec
  {
    Time(sec + SecondsFromYearOneToUnix, nsec, zoneOffset)
  }

  /** time.Date(1970, 1, 1, 0, 0, 0, 0, time.UTC). */
  const UnixEpochUTC: Time := Unix(0, 0, 0)

  /** time.Time.IsZero: the instant is January 1 of year 1, 00:00:00 UTC, in any location. */
  predicate IsZero(t: Time) {
    t.sec == 0 && t.nsec == 0
  }

  /** time.Time.Equal: the two values denote the same instant, whatever their locations. */
  predicate Equal(a: Time, b: Time) {
    a.sec == b.sec && a.nsec == b.nsec
  }

  /** A nullable database timestamp (sql.NullTime). */
  type NullTime = Option<Time>

  /** A tiger and its last known position. */
  datatype Tiger = Tiger(
    id: int32,
    name: string,
    dateOfBirth: Time,
    lastSeenTimestamp: Time,
    lastSeenLatitude: real,
    lastSeenLongitude: real,
    createdAt: NullTime,
    updatedAt: NullTime)

  /**
   * One sighting of a tiger. The image is a base64 payload, possibly behind a
   * data-URI prefix; it is the field the service reads and writes.
   */
  datatype Sighting = Sighting(
    id: int32,
    tigerID: int32,
    seenAt: Time,
    latitude: real,
    longitude: real,
    imageData: string,
    createdAt: NullTime,
    updatedAt: NullTime)
}
