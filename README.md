# laravel-geoaddress: the geocoding decision logic, in Dafny

laravel-geoaddress stores polymorphic postal addresses for any owner entity.
It geocodes them in a queued job. This project models five parts of it:

- **The address record and its saving hook** (`src/Models/Address.php`). The
  model has these pieces:
  - the default attributes and the eight identity fields;
  - `addressFieldsChanged` and `needsGeocoding`;
  - the query scopes, modelled as filters;
  - the Brazilian-format address string;
  - the saving closure. It consumes a latitude/longitude pair and forces the
    four outcome fields to null on a geocoding-disabled record. The four
    outcome fields are coordinates, `geocoded_at`, `geocoding_failed_at` and
    `geocoding_error`.
- **The observer** (`src/Observers/AddressObserver.php`). `updating`,
  `created`, `updated` and `saved` run in the order the framework runs them
  around a write (module `WritePath`).
  - A create goes: saving hook, insert, `created`, `saved`.
  - An update goes: saving hook, dirty check, `updating`, update, `updated`,
    `saved`.
  - The "coordinates provided in this request" flag belongs to one save.
- **The job** (`src/Jobs/GeocodeAddress.php`). It runs a guard chain on the
  freshly loaded record, makes one call to the injected geocoder, then
  quietly writes either the success or the failure. It has a uniqueness key
  and retry constants.
- **The provider registry** (`src/Services/GeocoderFactory.php`). This is an
  ordered name→class map with a default name. It has a lookup that rejects
  unknown names, and `extend`, which inserts or overwrites.
- **The owner trait** (`src/Traits/Addressable.php`). It covers the owner's
  address set, `addAddress`, `primaryAddress`, `setPrimaryAddress`, the
  full-address view and the geocodable subset.

How state is modelled:

- The mutable state is the `Database.Store` class. It holds the table (a map
  from id to record), the next auto-increment key, and two effect logs: the
  job ids dispatched to the queue and the geocoded events, each event
  carrying the reloaded record.
- Every state-changing operation is a method whose postcondition equates the
  new state with a specification function of the old state (`CreatedSpec`,
  `UpdateSpec`, `HandleSpec`, `SetPrimarySpec`, …).
- The properties are lemmas about those functions.

The two invariants of the design are bundled as `Database.Consistent`:

- a disabled record has no geocoding outcome;
- an owner has at most one primary address.

Every write, the job and `setPrimaryAddress` are proved to preserve
`Consistent`. `Store.Valid()` is `Consistent` of the store's state. The five
complete operations on the store (`WritePath.Insert`, `WritePath.Update`,
`Addressable.AddAddress`, `Addressable.SetPrimaryAddress` and
`GeocodeJob.Handle`) require it and keep it. The observer hooks
(`AddressObserver.Created`, `Updated`, `Saved`) are steps inside a write,
so they do not.

The whole write path, and every lemma about it, uses the corrected saving
closure `AddressModel.SavingHook`. The closure as written
(`AddressModel.SavingHookAsWritten`, see "## Findings") can break the first
invariant on a create. `WritePath.InsertSpecAsWritten` is a create built on
it, and `WritePath.AsWrittenInsertBreaksConsistency` exhibits the broken
table. On an update, the `updating` hook nulls the outcome fields of a
disabled record anyway (`AddressObserver.UpdatingHook`), so only creates
are affected.

The geocoder is a function parameter (`Address -> Option<Point>`), and the
clock is an integer number of seconds passed in as `now`.

One consequence of the job's constants is worth noting. A failed lookup
throws so that the queue retries it: 3 tries, 60 s apart. The retry after a
failure falls inside the one-day cool-down the same job enforces, so it is
skipped without a lookup (`GeocodeJob.RetriesAreSkipped`). A skipped run
returns normally, so the queue does not retry again.

## Model

| member | source | states |
|---|---|---|
| Decimal.NatToString | src/Jobs/GeocodeAddress.php:67 | the decimal rendering of an id is a non-empty digit string, with a leading zero only for 0 |
| Decimal.ParseNatToString | src/Jobs/GeocodeAddress.php:67 | parsing the rendered digits gives back the id |
| Decimal.NatToStringInjective | src/Jobs/GeocodeAddress.php:67 | two ids render the same exactly when they are equal |
| AddressModel.NewAttributes | src/Models/Address.php:64-68 | a new record defaults to geocoding enabled, not primary, country "BR"; given values override the defaults; every other fillable column (kind, nickname, the identity fields, reference point, the four customer fields, notes, metadata, the outcome fields) is taken as given, and the pair is kept for the hook; the owner comes from the relation |
| AddressModel.ClearOutcome | src/Models/Address.php:134-140 | the four outcome fields become null and nothing else changes |
| AddressModel.SavingHook | src/Models/Address.php:109-141 | the flag is set iff both latitude and longitude are present, and then both leave the attribute array; with geocoding enabled the point (lat, lng) is stored and nothing else changes; with geocoding disabled the result has no outcome and nothing else changes; a single coordinate is left in place |
| AddressModel.Saving | src/Models/Address.php:109-141 | the corrected step-by-step closure, without the early return at 125-128 (set flag, unset the pair, assign the point, null the four fields), computes SavingHook |
| AddressModel.SavingHookAsWritten | src/Models/Address.php:125-128 | as written: on a disabled record with a pair, the hook returns with the row untouched; otherwise it agrees with SavingHook |
| AddressModel.AsWrittenKeepsSuppliedOutcome | src/Models/Address.php:125-140 | a disabled record created with a pair and a caller-set error keeps the error as written, and has no outcome after correction |
| AddressModel.AddressFieldsChanged | src/Models/Address.php:193-202 | the early-return loop over ADDRESS_FIELDS answers true iff some identity field differs from its original value |
| AddressModel.NeedsGeocoding | src/Models/Address.php:208-215 | false for a disabled record; otherwise true iff the record has neither coordinates nor a recorded failure |
| AddressModel.ScopeNeedsGeocoding | src/Models/Address.php:308-313 | selects exactly the records for which needsGeocoding holds (enabled, no coordinates, no failure) |
| AddressModel.ScopePrimary | src/Models/Address.php:284-287 | selects exactly the primary records, unchanged |
| AddressModel.ScopeGeocoded | src/Models/Address.php:292-295 | selects exactly the records with a geocoded_at stamp |
| AddressModel.ScopeFailed | src/Models/Address.php:300-303 | selects exactly the records with a recorded failure |
| AddressModel.ScopeGeocodingEnabled | src/Models/Address.php:318-321 | selects exactly the geocoding-enabled records |
| AddressModel.NeedsGeocodingIsGeocodable | src/Models/Address.php:308-321 | every record needing geocoding is in the enabled scope |
| AddressModel.FilterTruthy | src/Models/Address.php:262 | array_filter keeps exactly the truthy strings of the list (a string is in the result iff it is in the list and truthy), never grows the list |
| AddressModel.FilterTruthyAppend | src/Models/Address.php:262 | array_filter keeps the order: filtering a concatenation concatenates the filtered halves |
| AddressModel.FormattedPartsAreTruthy | src/Models/Address.php:225-262 | every appended part is truthy, so the final array_filter removes nothing |
| AddressModel.FormattedAddress | src/Models/Address.php:220-263 | the appending builder yields street[, number], complement, neighbourhood, city[ - state], "CEP " code, country, each only when present, joined by ", " |
| AddressModel.NumberNeedsStreet | src/Models/Address.php:225-231 | without a street, the number never affects the formatted address |
| AddressModel.StateNeedsCity | src/Models/Address.php:244-250 | without a city, the state never affects the formatted address |
| AddressModel.FormattedAddressDependsOnIdentity | src/Models/Address.php:220-263 | two records with the same identity fields format identically |
| AddressModel.FormattedAddressEmpty | src/Models/Address.php:220-263 | a record with no truthy part formats as the empty string |
| AddressModel.FormattedAddressExample | tests/Feature/AddressTest.php:125-144 | the feature test's record yields the six expected parts in order |
| AddressObserver.UpdatingHook | src/Observers/AddressObserver.php:56-78 | before an update only the outcome fields may change; they become null when geocoding is disabled, or when an identity field changed without a pair; otherwise the record is kept |
| AddressObserver.Updating | src/Observers/AddressObserver.php:56-78 | the hook, using AddressFieldsChanged, computes UpdatingHook |
| AddressObserver.Created | src/Observers/AddressObserver.php:28-50 | the store after `created` is CreatedSpec of the old one |
| AddressObserver.Updated | src/Observers/AddressObserver.php:83-107 | the store after `updated` is UpdatedSpec of the old one |
| AddressObserver.DemoteSiblings | src/Observers/AddressObserver.php:115-120 | every other record of the owner becomes non-primary; only is_primary changes; other owners' records and the saved one are untouched |
| AddressObserver.Saved | src/Observers/AddressObserver.php:112-124 | the store after `saved` is SavedSpec of the old one |
| AddressObserver.SavedRestoresOnePrimary | src/Observers/AddressObserver.php:115-120 | after `saved` no owner has two primary records, provided only pairs with the saved record were at fault; the saved record and the logs are unchanged |
| AddressObserver.CreatedKeepsRows | src/Observers/AddressObserver.php:28-50 | `created` changes at most geocoded_at of the new record, and a disabled record not at all |
| AddressObserver.UpdatedKeepsRows | src/Observers/AddressObserver.php:83-107 | `updated` changes at most geocoded_at of the record, and a disabled record not at all |
| WritePath.LeftoverColumn | src/Models/Address.php:111-123 | a non-column key remains exactly when a latitude or longitude is left after the hook |
| WritePath.Insert | src/Observers/AddressObserver.php:28-50 | a create runs hook, insert, `created`, `saved`, as InsertSpec says, and keeps the store consistent |
| WritePath.Update | src/Observers/AddressObserver.php:56-107 | an update runs hook, dirty check, `updating`, write, `updated`, `saved`, as UpdateSpec says, and keeps the store consistent |
| WritePath.HooksRestoreConsistency | src/Observers/AddressObserver.php:112-124 | after a write, the post-write hooks re-establish both invariants |
| WritePath.InsertKeepsConsistent | src/Models/Address.php:134-140 | every create preserves: disabled ⇒ no outcome, and at most one primary per owner |
| WritePath.UpdateKeepsConsistent | src/Observers/AddressObserver.php:56-124 | every update preserves both invariants |
| WritePath.InsertSpecAsWritten | src/Models/Address.php:125-128 | a create with the saving closure as written; it agrees with InsertSpec except for a disabled record given both coordinates |
| WritePath.AsWrittenInsertBreaksConsistency | src/Models/Address.php:125-140 | from the empty table, a disabled create with a pair and a caller-set error stores the error and leaves the table inconsistent as written; the corrected create keeps it consistent |
| WritePath.InsertHalfPairRejected | src/Models/Address.php:111-123 | a create with only one of latitude/longitude is refused and changes nothing |
| WritePath.InsertDisabled | src/Observers/AddressObserver.php:31-33 | a disabled record is created without outcome, no job and no event |
| WritePath.InsertWithCoordinates | src/Observers/AddressObserver.php:36-44 | an enabled record created with a pair is stored at the point, stamped now, announced by one event with the stored record, and no job |
| WritePath.InsertWithoutCoordinates | src/Observers/AddressObserver.php:47-49 | an enabled record created without a pair gets one job for its id iff it needs geocoding, and no event |
| WritePath.UpdateIdentityRequeues | src/Observers/AddressObserver.php:70-106 | changing an identity field without a pair clears the outcome and dispatches exactly one job, and no event |
| WritePath.UpdateOtherFieldsNoJob | src/Observers/AddressObserver.php:70-106 | an edit that keeps every identity field stores the edit as given, with no job and no event |
| WritePath.UpdateWithCoordinates | src/Observers/AddressObserver.php:91-101 | an update with a pair stores the point, stamps geocoded_at only if it was null, and emits one event; if nothing changes, nothing is written and no event fires; never a job |
| WritePath.UpdateDisabled | src/Observers/AddressObserver.php:60-66 | a successful update of a disabled record leaves no outcome, with no job and no event |
| WritePath.UpdatePrimaryFlagOnly | src/Traits/Addressable.php:80 | saving a change of is_primary alone writes it and runs no hook but `saved` |
| Addressable.OwnerAddresses | src/Traits/Addressable.php:38-41 | exactly the owner's records, unchanged |
| Addressable.GeocodableAddresses | src/Traits/Addressable.php:96-99 | exactly the owner's enabled records, a sub-map of the owner's addresses |
| Addressable.AddAddress | src/Traits/Addressable.php:58-61 | creates a record owned by the caller, as InsertSpec says, and keeps the store consistent |
| Addressable.InsertKeepsOwners | src/Traits/Addressable.php:58-61 | a successful create adds the fresh key with the given owner and keeps every other record's owner |
| Addressable.AddAddressGrowsByOne | src/Traits/Addressable.php:58-61 | a successful addAddress grows the owner's set by exactly the new key, leaves other owners' sets alone, and a refused one changes nothing |
| Addressable.PrimaryAddress | src/Traits/Addressable.php:46-51 | returns a primary record of the owner, or none iff the owner has no primary record |
| Addressable.PrimaryAddressUnique | src/Traits/Addressable.php:46-51 | under the one-primary invariant the primary record is unique |
| Addressable.FullAddress | src/Traits/Addressable.php:88-91 | the formatted address of a primary record, or null iff there is none |
| Addressable.SetPrimaryAddress | src/Traits/Addressable.php:66-83 | the store afterwards is SetPrimarySpec of the old one, and stays consistent |
| Addressable.DemoteKeepsConsistent | src/Traits/Addressable.php:74-77 | the bulk demotion of the owner's other records keeps both invariants |
| Addressable.OwnerHasAtMostOnePrimary | src/Models/Address.php:284-287 | under the one-primary invariant, the primary scope of an owner's addresses holds at most one record |
| Addressable.SetPrimaryCorrect | src/Traits/Addressable.php:66-83 | returns false and changes nothing for a record the owner lacks; otherwise true, the record is primary with nothing else changed, the owner's other records are non-primary, other owners untouched, no job, no event |
| Addressable.SetPrimaryKeepsConsistent | src/Traits/Addressable.php:66-83 | setPrimaryAddress preserves both invariants |
| GeocodeJob.UniqueId | src/Jobs/GeocodeAddress.php:65-68 | the key is "geocode-address-" followed by a digit string that parses back to the id |
| GeocodeJob.UniqueIdInjective | src/Jobs/GeocodeAddress.php:65-68 | two jobs share a key exactly when they are for the same address |
| GeocodeJob.SuccessWrite | src/Jobs/GeocodeAddress.php:116-121 | coordinates = the point, geocoded_at = now, both failure fields null, nothing else changes |
| GeocodeJob.FailureWrite | src/Jobs/GeocodeAddress.php:129-132 | geocoding_failed_at = now, error = "Unable to geocode address", coordinates and geocoded_at kept, nothing else changes |
| GeocodeJob.Handle | src/Jobs/GeocodeAddress.php:78-139 | the store after a run is HandleSpec of the old one, and stays consistent |
| GeocodeJob.HandleGuards | src/Jobs/GeocodeAddress.php:81-109 | the geocoder is consulted iff the record exists, is enabled, has no coordinates and did not fail within a day; otherwise the run ignores the geocoder, writes nothing and names the first guard that stopped it |
| GeocodeJob.HandleSuccess | src/Jobs/GeocodeAddress.php:114-126 | a found point is written as SuccessWrite, one event carries the stored record, no job |
| GeocodeJob.HandleFailure | src/Jobs/GeocodeAddress.php:127-137 | no point: FailureWrite, no event, and failure "Geocoding failed for address <id>" |
| GeocodeJob.HandleKeepsConsistent | src/Jobs/GeocodeAddress.php:78-139 | the job preserves both invariants |
| GeocodeJob.RerunAfterSuccessSkipped | src/Jobs/GeocodeAddress.php:98-102 | a second run after a success is skipped and changes nothing |
| GeocodeJob.CoolDownAfterFailure | src/Jobs/GeocodeAddress.php:105-109 | after a failure at t, a run at t' ≥ t reaches the geocoder iff t' ≥ t + one day |
| GeocodeJob.RetriesAreSkipped | src/Jobs/GeocodeAddress.php:38-43 | the retry after a failure (attempt below 3 tries, 60 s backoff) lands in the cool-down and is skipped |
| GeocodeJob.NeedsGeocodingReachesGeocoder | src/Models/Address.php:208-215 | a record needs geocoding iff the job would reach the geocoder for it and it has no recorded failure; a failure older than a day is looked up by the job but never selected by needsGeocoding |
| GeocodeJob.HandleMovesScopes | src/Models/Address.php:292-313 | after a success the record is in the geocoded scope and not the failed one; after a failure it is in the failed scope; either way it leaves the needs-geocoding scope |
| Database.OutcomeScopesAreEnabled | src/Models/Address.php:292-321 | in a consistent table, the geocoded and the failed scopes select only enabled records |
| GeocodeJob.FailureLeavesNeedsGeocoding | src/Models/Address.php:208-215 | a record with a recorded failure no longer needs geocoding |
| GeocoderFactory.UnsupportedMessage | src/Services/GeocoderFactory.php:32 | the error message is the fixed prefix followed by the name |
| GeocoderFactory.ProviderName | src/Services/GeocoderFactory.php:29 | the argument, else the configured name, else "google" |
| GeocoderFactory.Factory.constructor | src/Services/GeocoderFactory.php:18-22 | exactly google, nominatim, mapbox, in that order, with their classes |
| GeocoderFactory.Factory.Make | src/Services/GeocoderFactory.php:27-36 | succeeds iff the resolved name is registered, returning its class; otherwise an invalid-argument error naming it |
| GeocoderFactory.Factory.Extend | src/Services/GeocoderFactory.php:41-44 | the name maps to the class and other entries are unchanged; an existing name keeps its position, a new one goes last |
| GeocoderFactory.Factory.GetProviders | src/Services/GeocoderFactory.php:49-52 | the registered names, without repeats, exactly the map's keys |
| GeocoderFactory.InitialProviders | tests/Unit/GeocoderTest.php:36-43 | a fresh factory lists google, nominatim, mapbox |
| GeocoderFactory.MakeConfigured | tests/Unit/GeocoderTest.php:5-12 | the configured provider (nominatim) is made |
| GeocoderFactory.MakeDefault | tests/Unit/GeocoderTest.php:14-21 | without an argument and with "google" configured, the Google class is made |
| GeocoderFactory.MakeMapbox | tests/Unit/GeocoderTest.php:23-28 | "mapbox" makes the Mapbox class |
| GeocoderFactory.MakeUnknown | tests/Unit/GeocoderTest.php:30-34 | "unknown" is refused with the invalid-argument message |
| GeocoderFactory.ExtendThenList | tests/Unit/GeocoderTest.php:45-52 | after extend the name is listed, after the built-ins, and makes its class |
| GeocoderFactory.OverrideDefault | src/Services/GeocoderFactory.php:41-44 | overwriting "google" keeps the list and makes the new class by default |

## Left out

- The provider classes (Google Maps, Nominatim, Mapbox) make HTTP calls and parse floating point. The geocoder is an abstract function `Address -> Option<Point>`.
- `Point` is an opaque pair of reals. SRID 4326 and the spatial cast are not modelled.
- Wall-clock time is an integer `now` parameter, and one day is 86400 seconds.
- Logging, the job's `failed` handler, and `deleteWhenMissingModels` are out. A missing record is modelled by the `SkippedMissing` outcome.
- The queue runtime is out: queue and connection selection, the uniqueness lock and its 3600 s lifetime (the constant `GeocodeJob.UniqueFor` is kept but nothing uses it), backoff scheduling and at-least-once delivery. The model keeps the constants and the key, and the `jobs` log records every dispatch.
- Database and relation behaviour not modelled:
  - Concurrent writes, including the race between primary demotion and other writes. Writes are sequential.
  - `updated_at` and other timestamps maintained by the framework.
  - The schema's NOT NULL constraints.
  - An owner reference that no longer resolves is modelled as `owner == None`, so `saved` then demotes nothing. Stale in-memory copies are out: an update's original values are the stored row.
  - `primaryAddress` relies on `first()` without an order. `Addressable.PrimaryAddress` returns some primary record and does not pin which one. Under the one-primary invariant there is only one (`PrimaryAddressUnique`).
- `Addressable.FullAddress`: it does not say which primary record it formats when the invariant does not hold. It says only that the record is a primary record of the owner.
- `AddressModel.NewAttributes` treats an explicit `null` in the caller's data as a key that was not given. For the three columns with a default, it therefore keeps the default: `geocoding_enabled` stays true, `is_primary` stays false, `country_code` stays "BR". In the source, `fill()` writes the null over the default. The saving closure then reads a null `geocoding_enabled` as disabled, and the NOT NULL columns refuse the insert. So a create with an explicit null in one of these keys succeeds in the model (and may queue a job) where the source refuses it.
- `AddressModel.SavingHook` treats an explicit `null` latitude or longitude like an absent one. In the source, a null value also fails `isset` but stays in the attribute array.
- `WritePath.Update`: the dirty check compares the whole stored row with the row after the saving hook, by value. Eloquent's `isDirty` compares attribute by attribute, after casts, including the spatial cast of `coordinates`. A write that Eloquent judges dirty or clean only because of a cast is not modelled. `WritePath.UpdateWithCoordinates`' clause "same values: nothing written, no event" rests on this value comparison.
- `WritePath.InsertKeepsConsistent`, like every write-path lemma, is about the corrected saving closure. With the closure as written, a create can break the first invariant (`WritePath.AsWrittenInsertBreaksConsistency`).
- `GeocoderFactory.Factory.Make` returns the class name instead of a container-built instance. Service-container resolution is not part of this model.
- Configuration is out, apart from the default provider name "google". So are the service provider, the install command, the migration, the model factory and the test scaffolding.
- There is no fallback provider, because the code has none.

## Findings

| source | as written | input that shows it | evidently intended | confidence | as-written member | corrected member |
|---|---|---|---|---|---|---|
| src/Models/Address.php:125-128 | On a geocoding-disabled record that is given a latitude/longitude pair, the saving hook returns before the null-forcing at lines 134-140. A create has no observer hook before the insert. | `addAddress(['street' => 'Avenida Paulista', 'city' => 'Sao Paulo', 'state' => 'SP', 'geocoding_enabled' => false, 'latitude' => -23.56, 'longitude' => -46.65, 'geocoding_error' => 'stale'])`: the disabled record is stored with a geocoding error (also with `coordinates` or `geocoded_at` set the same way, since these are fillable). | A disabled record never stores any outcome field, as the class comment and the observer's "already null" remark say. | medium, not executed | AddressModel.SavingHookAsWritten (counterexamples AddressModel.AsWrittenKeepsSuppliedOutcome and, at table level, WritePath.AsWrittenInsertBreaksConsistency) | AddressModel.SavingHook (with WritePath.InsertKeepsConsistent) |
