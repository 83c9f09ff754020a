# Tigerhall Kittens sighting core, in Dafny

Tigerhall Kittens records tigers and their sightings. This project models the
logic that sits between the transport layer and storage:

- **Validators and image normaliser** (`modules/sighting/v1/service/helper.go`).
  - `validateTime` treats Go's zero time and the Unix epoch as "unset".
  - `isValidTiger` and `isValidSighting` are ordered, short-circuiting rule chains.
  - `resizeBase64Image` strips a `data:image/png;base64,` or
    `data:image/jpeg;base64,` prefix and decodes base64. It then decodes the
    image, resizes it, encodes it again in the same format (PNG when there is
    no prefix) and re-attaches the matching prefix.
- **Sighting service** (`modules/sighting/v1/service/sighting.go`). `TigerSightingService` has four use cases:
  - `GetTigers` and `GetSightingsByTigerID` read through the cache.
  - `CreateTiger` validates, inserts, and invalidates the tiger list.
  - `CreateSighting` runs a strictly ordered pipeline: validate → load the
    tiger → 5 km gate → normalise the image → insert the sighting → move the
    tiger → invalidate two cache keys.
- **Cache-aside adapter** (`driver/redis/redis.go`).
  - `Fetch` serves a key from the cache. On a miss it calls a loader, stores
    the loader's JSON with an expiration, and returns the decoding of the
    stored bytes.
  - `Del` removes keys.

## Modules

- `Entity`: the `Tiger` and `Sighting` records and Go's `time.Time`. The time
  is kept as seconds since year 1, nanoseconds and a zone offset, so
  `IsZero`/`Equal` ignore the location as Go does.
- `Errors`: one constructor per error kind a caller can tell apart.
- `Decimal`: the `%d` rendering of integers used in cache keys, with its inverse.
- `Helper`: the validators and the image normaliser, as pure functions.
  - A reference reading of a rule chain (`FirstFailure` over `TigerRules` /
    `SightingRules`) is proved equal to the validators.
  - The codecs (base64 of section 4 of RFC 4648, PNG/JPEG decode and encode,
    resizing) are function-valued fields of `Codecs` that may fail.
- `Redis`: `Client`, a key-value store with expirations, injectable faults
  and a ghost log of commands, and `RepoProvider`, the adapter over it.
  - `FetchSpec` describes one `Fetch` as a value. `RepoProvider.Fetch` is
    proved to return its result and to make its store changes.
  - JSON is a pair of possibly failing functions (`Json`). Its round trip is
    a premise (`RoundTrips`), never an axiom.
- `Repository`: an in-memory implementation of the repository interface the
  service depends on (`MemoryRepository`). Faults are injectable, IDs are
  serial (`Valid`), and a ghost log records every query it receives.
- `Service`: the cache keys and `TigerSightingService`.
  - Each write use case is first a pure plan (`CreateTigerPlan`,
    `CreateSightingPlan`): the ordered queries to the repository, the ordered
    commands to the cache, and the error returned, given the collaborators'
    answers.
  - Each method is proved to leave exactly the planned queries in the
    repository's log and the planned commands in the cache server's log, and
    to make the matching repository and cache changes.

## Model

| member | source | states |
|---|---|---|
| Entity.Unix | modules/sighting/v1/service/sighting_test.go:163 | `time.Unix(sec, nsec)` (the tests' `time.Unix(0, 0)` for an absent time, and the epoch constant `UnixEpochUTC` that `validateTime` compares with) denotes `sec` seconds and `nsec` nanoseconds after 1970-01-01T00:00:00Z, whatever location it is shown in |
| Helper.UnsetInstants | modules/sighting/v1/service/helper.go:18-20 | `validateTime` holds exactly for Go's zero instant and for the Unix epoch, in any location; every other instant counts as set |
| Helper.UnixZeroIsUnset | modules/sighting/v1/service/helper.go:19 | the epoch counts as unset even when shown in a non-UTC location |
| Helper.FirstFailure | modules/sighting/v1/service/helper.go:22-58 | reference reading of a rule chain: no error iff every rule holds; otherwise the error of a failing rule all of whose predecessors hold |
| Helper.FirstFailureStep | modules/sighting/v1/service/helper.go:22-58 | when the first rule holds, the chain's verdict is the verdict of the rest |
| Helper.IsValidTiger | modules/sighting/v1/service/helper.go:22-39 | nil iff the name is non-empty, date of birth and last-seen time are set, latitude lies in [-90,90] and longitude in [-180,180], bounds inclusive |
| Helper.TigerRulesInOrder | modules/sighting/v1/service/helper.go:23-37 | `isValidTiger` returns the error of the first failing check in the order name, date of birth, last-seen time, latitude, longitude |
| Helper.NameCheckedFirst | modules/sighting/v1/service/helper.go:23-24 | an empty name is reported whatever else is wrong (e.g. a bad latitude too) |
| Helper.IsValidSighting | modules/sighting/v1/service/helper.go:41-58 | nil iff tiger ID ≠ 0, seen-at is set, latitude in [-90,90], longitude in [-180,180] and the image is non-empty |
| Helper.SightingRulesInOrder | modules/sighting/v1/service/helper.go:42-56 | `isValidSighting` returns the error of the first failing check in the order tiger ID, seen-at, latitude, longitude, image |
| Helper.Index | modules/sighting/v1/service/helper.go:65 | `strings.Index` for one character: the first position holding it, or -1 when it does not occur |
| Helper.PrefixCommaIsLast | modules/sighting/v1/service/helper.go:61-64 | each data-URI prefix ends in its only comma |
| Helper.FirstCommaEndsPrefix | modules/sighting/v1/service/helper.go:65-68 | behind either prefix, the first comma of the input is the prefix's last character |
| Helper.Payload | modules/sighting/v1/service/helper.go:65-71 | the decoded text is the input minus the PNG or JPEG prefix when it has one, and the whole input otherwise |
| Helper.DetectFormat | modules/sighting/v1/service/helper.go:80-90 | JPEG exactly when the input has the JPEG prefix; PNG for everything else, bare base64 included |
| Helper.Reencode | modules/sighting/v1/service/helper.go:78-107 | fails with the decode error iff the image does not decode, with the encode error iff the resized image does not encode, and otherwise succeeds with the encoder's bytes for the image resized to 250 by 200 (JPEG encoded at quality 80) |
| Helper.ResizeBase64Image | modules/sighting/v1/service/helper.go:60-109 | every failure comes with ""; the base64 error iff the payload is not base64, otherwise the codec's error; succeeds iff the payload decodes and re-encodes, and then the output is the detected format's prefix followed by the base64 of the re-encoded bytes: the JPEG prefix iff the input had it, the PNG prefix otherwise |
| Helper.AttachThenStrip | modules/sighting/v1/service/helper.go:99-106 | a prefix attached on output is detected and stripped again on input: format and payload come back unchanged |
| Helper.NormalisedOutputDecodes | modules/sighting/v1/service/helper.go:60-109 | given a base64 codec that round-trips, a normalised image keeps the detected format and its payload decodes to exactly the bytes the image encoder produced |
| Decimal.NatDigits | modules/sighting/v1/service/sighting.go:24 | `%d` of a natural number is a non-empty string of digits with no leading zero unless the number is 0 |
| Decimal.Format | modules/sighting/v1/service/sighting.go:24 | `%d` of an integer: digits, preceded by `-` exactly for negative numbers |
| Decimal.NatDigitsRoundTrip | modules/sighting/v1/service/sighting.go:24 | the digits of n read back as n |
| Decimal.FormatRoundTrip | modules/sighting/v1/service/sighting.go:24 | parsing the `%d` rendering of any integer gives that integer back |
| Decimal.FormatInjective | modules/sighting/v1/service/sighting.go:24 | distinct integers have distinct renderings |
| Redis.GetResponse | driver/redis/redis.go:70 | GET answers the stored bytes when the key is present, the Nil sentinel exactly when it is absent and the server works, and the server's error otherwise |
| Redis.KeySet | driver/redis/redis.go:34-38 | the keys handed to DEL, as a set |
| Redis.Client.constructor | driver/redis/redis.go:27-31 | a client over the given store and faults, with an empty command log |
| Redis.Client.Get | driver/redis/redis.go:70 | one GET: the answer of `GetResponse`, the store unchanged, the command logged |
| Redis.Client.Set | driver/redis/redis.go:80 | one SET: stores value and expiration under the key unless the server fails, and logs the command |
| Redis.DelResponse | driver/redis/redis.go:34-39 | DEL succeeds exactly when the server works and at least one key is named; a DEL naming no key gets the server's argument-count error |
| Redis.Client.Del | driver/redis/redis.go:38 | one DEL: answers `DelResponse` (an error when no key is named), removes exactly the listed keys unless it failed, and logs the command |
| Redis.Decoded | driver/redis/redis.go:69-77 | `get`: a GET failure (the Nil sentinel included) is returned as is; otherwise the stored bytes are unmarshalled |
| Redis.FetchSpec | driver/redis/redis.go:44-66 | callback invoked iff the get reported the Nil sentinel; a hit or any other get error (a decode failure included) is returned with no write; a callback or marshal error is returned with no write; otherwise SET gets marshal(value) and the result is SET's error or unmarshal of those same bytes |
| Redis.StoreAfter | driver/redis/redis.go:62-64 | after a Fetch the key holds the marshalled bytes with the given expiration iff SET was reached and succeeded; otherwise the store is unchanged |
| Redis.MissReturnsLoadedValue | driver/redis/redis.go:52-66 | with a JSON codec that round-trips, a miss that succeeds returns exactly what the callback produced |
| Redis.CallbackAtMostOnce | driver/redis/redis.go:45-66 | with no DEL in between, a second Fetch of a key that the first Fetch filled (or found) does not invoke its callback |
| Redis.DelRemovesExactly | driver/redis/redis.go:34-39 | after removing a DEL's keys none of them is present, and every other key keeps its entry |
| Redis.RepoProvider.constructor | driver/redis/redis.go:27-31 | `NewRedisClient`: the adapter over the given client |
| Redis.RepoProvider.Del | driver/redis/redis.go:34-39 | passes the keys unchanged and in order to one DEL, returns its error (an error when no key is given), and removes exactly those keys unless it failed |
| Redis.RepoProvider.Get | driver/redis/redis.go:69-77 | `get`: the result of `Decoded` on one GET, store unchanged |
| Redis.RepoProvider.Set | driver/redis/redis.go:79-82 | `set`: one SET of the bytes with the expiration; its error is returned |
| Redis.RepoProvider.Fetch | driver/redis/redis.go:44-67 | returns the `FetchSpec` result, invokes the callback exactly when `FetchSpec` says so, leaves the store as `StoreAfter` says and sends the GET and, when reached, the SET |
| Repository.FindTiger | modules/sighting/v1/service/sighting.go:48-49 | the tiger row with the given ID, or none exactly when no row has it |
| Repository.SightingsOf | modules/sighting/v1/service/sighting.go:55-56 | exactly the stored sightings of the given tiger, each as many times as it is stored |
| Repository.ReplaceTiger | modules/sighting/v1/service/sighting.go:52-53 | the row with the tiger's ID replaced, every other row as before |
| Repository.NextID | modules/sighting/v1/repository/postgres/sighting.go:73-75 | the serial ID a new row receives, one more than the row count, and none once int32 is exhausted |
| Repository.MemoryRepository.constructor | modules/sighting/v1/service/sighting.go:44-59 | a repository over rows carrying serial IDs and the given faults, with an empty query log |
| Repository.MemoryRepository.GetTigersResponse | modules/sighting/v1/service/sighting.go:46-47 | every tiger row when the read works, and the database's error otherwise |
| Repository.MemoryRepository.GetTigerByIDResponse | modules/sighting/v1/service/sighting.go:48-49 | a stored tiger with that ID, found exactly when one exists and the read works; the no-rows error exactly when none exists and the read works; the database's error otherwise |
| Repository.MemoryRepository.GetSightingsResponse | modules/sighting/v1/service/sighting.go:55-56 | exactly the tiger's sightings, each as many times as it is stored; the database's error exactly when the read fails |
| Repository.MemoryRepository.SerialLookup | modules/sighting/v1/service/sighting.go:48-49 | with serial IDs, a lookup that works finds a tiger exactly for the IDs 1 to the row count, and then the row at index id - 1 |
| Repository.MemoryRepository.SerialUpdate | modules/sighting/v1/service/sighting.go:52-53 | with serial IDs, an update rewrites the row at index id - 1, when there is one, and no other row |
| Repository.MemoryRepository.GetTigers | modules/sighting/v1/service/sighting.go:46-47 | one query, logged, answering `GetTigersResponse` |
| Repository.MemoryRepository.GetTigerByID | modules/sighting/v1/service/sighting.go:48-49 | one query, logged, answering `GetTigerByIDResponse` |
| Repository.MemoryRepository.GetSightingsByTigerID | modules/sighting/v1/service/sighting.go:55-56 | one query, logged, answering `GetSightingsResponse` |
| Repository.MemoryRepository.CreateTiger | modules/sighting/v1/service/sighting.go:50-51 | on success the tiger is appended under the next serial ID; on failure nothing changes; the query is logged and IDs stay serial |
| Repository.MemoryRepository.CreateSighting | modules/sighting/v1/service/sighting.go:57-58 | on success the sighting is appended under the next serial ID; on failure nothing changes; the query is logged and IDs stay serial |
| Repository.MemoryRepository.UpdateTiger | modules/sighting/v1/service/sighting.go:52-53 | on success the row with the tiger's ID is replaced; on failure nothing changes; the query is logged and IDs stay serial |
| Service.KeyLayout | modules/sighting/v1/service/sighting.go:18-30 | the base key is `sighting:v1:`, the tiger list key is `sighting:v1:sighting:get-tigers`, and the expiration is one minute |
| Service.GetSightingsByTigerIDKey | modules/sighting/v1/service/sighting.go:24 | the per-tiger key is the prefix followed by a text that parses back to the tiger ID, and never equals the tiger list key |
| Service.SightingsKeysDistinct | modules/sighting/v1/service/sighting.go:24 | different tigers never share a sightings key |
| Service.MovedTiger | modules/sighting/v1/service/sighting.go:176-178 | the tiger's last-seen time, latitude and longitude become the sighting's; ID, name, birth date and audit fields are kept |
| Service.CreateTigerPlan | modules/sighting/v1/service/sighting.go:96-115 | an invalid tiger gives the validator's error and no call at all; a repository error is returned unchanged with no cache call; success means the insert and then a delete of the tiger list key alone, and nil whatever that delete answers |
| Service.StoredSighting | modules/sighting/v1/service/sighting.go:162-167 | the sighting with only its image replaced by the normalised one |
| Service.CreateSightingPlan | modules/sighting/v1/service/sighting.go:139-189 | stages run in order and stop at the first failure, with that failure's error. Validation calls nothing. A lookup error is returned unchanged. Distance > 5.00 and a failed normalisation are rejected before any write. A failed insert stops before the update. A failed update returns its error after the insert (sighting kept, no cache call). Once every check has passed the insert runs, the update follows a successful insert, and two successful writes give nil. Both keys are deleted exactly when the result is nil |
| Service.GateAdmitsBoundary | modules/sighting/v1/service/sighting.go:154-159 | a distance of exactly 5.00 passes the gate and, with a good image, reaches the insert |
| Service.InsertCarriesResizedImage | modules/sighting/v1/service/sighting.go:162-170 | the sighting handed to the insert carries the normalised image, with the prefix of the detected format, and is otherwise the caller's sighting |
| Service.UpdateMovesLoadedTiger | modules/sighting/v1/service/sighting.go:176-179 | the tiger handed to the update is the loaded tiger with only its last-seen time and position replaced by the sighting's |
| Service.InvalidatedKeyReloads | modules/sighting/v1/service/sighting.go:184-186 | right after a successful invalidation, the next read of that key goes to the repository |
| Service.ReadServesCacheOrRepository | modules/sighting/v1/service/sighting.go:76-93 | with a JSON codec that round-trips, a successful read returns either the cached value or, on a miss, exactly the repository's answer |
| Service.TigerSightingService.constructor | modules/sighting/v1/service/sighting.go:67-73 | `NewTigerSightingService`: a service over the given repository and cache |
| Service.TigerSightingService.GetTigers | modules/sighting/v1/service/sighting.go:76-93 | Fetch on the tiger list key with a one-minute expiration; the repository's log gains one tiger-list query exactly when Fetch invoked the callback; returns the error or the value `FetchSpec` gives, and the cache ends as `StoreAfter` says |
| Service.TigerSightingService.GetSightingsByTigerID | modules/sighting/v1/service/sighting.go:118-135 | the same, on the tiger's own key and the repository's sightings of that tiger |
| Service.TigerSightingService.CreateTiger | modules/sighting/v1/service/sighting.go:96-115 | the repository and cache logs gain exactly the queries and commands of `CreateTigerPlan`, and its error is returned; the tiger is stored iff the plan succeeds; IDs stay serial; the tiger list key is removed iff the plan succeeds and DEL works |
| Service.TigerSightingService.CreateSighting | modules/sighting/v1/service/sighting.go:139-189 | the repository and cache logs gain exactly the queries and commands of `CreateSightingPlan`, and its error is returned. IDs stay serial. The caller's record holds the normalised image once normalisation passed. The sighting is stored once the insert succeeded, even when the update then fails. The tiger moves only when both writes succeed. Both keys are removed only on success |
| Service.TigerSightingService.WriteSighting | modules/sighting/v1/service/sighting.go:169-182 | the queries and commands of `WritePlan`: the insert, the update of the moved tiger and the invalidation, each failure stopping the rest |
| Service.TigerSightingService.InvalidateSightingCaches | modules/sighting/v1/service/sighting.go:184-186 | deletes the tiger's sightings key, then the tiger list key, ignoring both errors |

## Notes on the source

- `modules/sighting/v1/entity/tiger.go:37` names the sighting's image field
  `ImageURL`. The service reads and writes `ImageData`
  (`modules/sighting/v1/service/helper.go:54`,
  `modules/sighting/v1/service/sighting.go:162-167`). The model has one field,
  `imageData`, as the service uses it.
- The repository interface's `CreateSighting(ctx, sighting)`
  (`modules/sighting/v1/service/sighting.go:58`) is modelled. The generated
  mock and the Postgres repository take an extra tiger ID; that signature is
  not used.
- The doc comments of `CreateSighting` (`modules/sighting/v1/service/sighting.go:40,137`)
  say a sighting is stored "if not within 5 km". The code (`modules/sighting/v1/service/sighting.go:154-159`)
  rejects a sighting that is more than 5.00 km away. The model follows the code.
- The Postgres repository has no `GetTigerByID` or `UpdateTiger`, and its
  sighting methods panic. The in-memory repository stands in for the
  interface; its serial IDs follow the database's serial column.

## Left out

- Great-circle distance: the haversine computation of a foreign library is an uninterpreted function `Libraries.greatCircleDistance`; only the `> 5.00` comparison is modelled.
- Image codecs: base64, PNG/JPEG decode and encode and the Lanczos-3 resize are uninterpreted functions (`Codecs`), decoders and encoders possibly failing; they receive the width 250, height 200 and JPEG quality 80, but what the libraries do with them, the output size included, is not modelled.
- Floating point: coordinates and distances are `real`, so NaN, infinities and rounding in the range checks are not modelled.
- `Service.TigerSightingService.CreateSighting`: the distance error carries the distance as a `real`; the `%.2f` message text is not modelled.
- `Helper.IsValidTiger` and `Helper.IsValidSighting`: errors are constructors of `ValidationError`, with the Go texts in `Errors.Message`, rather than string values.
- `Repository.SightingsOf` and `Repository.MemoryRepository.GetTigersResponse`: rows come back in insertion order; the ordering the interface documents (tigers by last-seen time, latest sighting first) is not modelled.
- `Repository.MemoryRepository.Valid`: IDs are exactly 1 to the row count; gaps a database sequence leaves after failed inserts, and deleted rows, are not modelled.
- Audit timestamps (`created_at`, `updated_at`) are not set by the in-memory repository, because the model has no clock.
- Transport, handlers, wiring, logging and `context.Context` cancellation are not part of this model.
- `Redis.Client`: the package-global client used by `get`/`set` and the adapter's own client used by `Del` are one store; connection setup is not modelled.
- Key expiration: the expiration is stored with each entry, but time does not pass, so entries never expire.
- Concurrency: concurrent `CreateSighting` calls and their lost-update race are not modelled; every operation runs alone.
- `Redis.Client.Del`: a failing DEL is modelled as deleting nothing.
- `Helper.Index`: counts characters, not UTF-8 bytes; the two agree up to the first comma of either prefix, which is ASCII.
- `Service.TigerSightingService.GetTigers` and `Service.TigerSightingService.GetSightingsByTigerID`: a Dafny function value cannot issue a logged query, so the callback hands `Fetch` the answer the query gives (the side-effect-free `GetTigersResponse` or `GetSightingsResponse`), and the logged query is issued just after `Fetch` returns, exactly when `Fetch` invoked the callback. The repository log then holds the queries Go makes; their position relative to the cache's SET is not recorded, because the two collaborators keep separate logs.
- `Redis.StoreFaults`: a store's faults are fixed, so the two DELs of one `CreateSighting` fail or succeed together; one failing alone is not modelled (the service ignores both errors, so what it returns is unaffected).
- JSON: marshal and unmarshal are uninterpreted, possibly failing functions (`Redis.Json`); their round trip is a premise of the lemmas that need it.
