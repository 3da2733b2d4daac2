/** The queued job of src/Jobs/GeocodeAddress.php: a chain of guards on the
    freshly loaded record, then one call to the injected geocoder and a
    quiet write of the success or the failure. The geocoder is a function
    parameter and the clock an integer number of seconds. */
module GeocodeJob {
  import opened Wrappers
  import opened Decimal
  import opened AddressModel
  import opened Database

  /** Attempts the queue makes, and the seconds it waits between them. */
  const Tries: nat := 3
  const Backoff: nat := 60
  /** Seconds the uniqueness lock is held; the lock itself is not modelled. */
  const UniqueFor: nat := 3600
  /** The cool-down after a failed attempt. */
  const OneDay: nat := 86400

  const UniquePrefix: string := "geocode-address-"
  const FailureMessage: string := "Unable to geocode address"
  const FailurePrefix: string := "Geocoding failed for address "

  /** uniqueId(): the key under which at most one job per address is queued. */
  function UniqueId(id: nat): (key: string)
    ensures |key| > |UniquePrefix| && key[..|UniquePrefix|] == UniquePrefix
    ensures IsDigits(key[|UniquePrefix|..])
    ensures ParseDigits(key[|UniquePrefix|..]) == id
  {
    var key := UniquePrefix + NatToString(id);
    assert key[|UniquePrefix|..] == NatToString(id);
    ParseNatToString(id);
    key
  }

  /** Two jobs share a key exactly when they are for the same address. */
  lemma UniqueIdInjective(a: nat, b: nat)
    ensures UniqueId(a) == UniqueId(b) <==> a == b
  {
    if UniqueId(a) == UniqueId(b) {
      assert NatToString(a) == UniqueId(a)[|UniquePrefix|..];
      assert NatToString(b) == UniqueId(b)[|UniquePrefix|..];
      NatToStringInjective(a, b);
    }
  }

  /** What one run of handle did. `Failed` is the exception that makes the
      queue retry; its message names the address. */
  datatype JobOutcome =
    | SkippedMissing
    | SkippedDisabled
    | SkippedHasCoordinates
    | SkippedRecentlyFailed
    | Geocoded(point: Point)
    | Failed(message: string)

  /** A failure recorded less than one day before `now`. */
  predicate RecentlyFailed(a: Address, now: Timestamp) {
    a.geocodingFailedAt.Some? && a.geocodingFailedAt.value > now - OneDay
  }

  /** The record reaches the geocoder call. */
  predicate Eligible(w: World, id: nat, now: Timestamp) {
    id in w.rows && w.rows[id].geocodingEnabled && w.rows[id].coordinates.None? && !RecentlyFailed(w.rows[id], now)
  }

  /** The quiet write after a successful lookup: the point, the time, and
      the failure fields cleared. */
  function SuccessWrite(a: Address, p: Point, now: Timestamp): (r: Address)
    ensures SameExceptOutcome(a, r)
    ensures r.coordinates == Some(p) && r.geocodedAt == Some(now)
    ensures r.geocodingFailedAt.None? && r.geocodingError.None?
  {
    a.(coordinates := Some(p), geocodedAt := Some(now), geocodingFailedAt := None, geocodingError := None)
  }

  /** The quiet write after a failed lookup: the time and the fixed message;
      coordinates and geocoded_at stay as they were. */
  function FailureWrite(a: Address, now: Timestamp): (r: Address)
    ensures SameExceptOutcome(a, r)
    ensures r.coordinates == a.coordinates && r.geocodedAt == a.geocodedAt
    ensures r.geocodingFailedAt == Some(now) && r.geocodingError == Some(FailureMessage)
  {
    a.(geocodingFailedAt := Some(now), geocodingError := Some(FailureMessage))
  }

  datatype JobRun = JobRun(world: World, outcome: JobOutcome)

  /** handle(): the guards in source order, then the geocoder. */
  function HandleSpec(w: World, id: nat, geocoder: Address -> Option<Point>, now: Timestamp): JobRun {
    if id !in w.rows then JobRun(w, SkippedMissing)
    else
      var a := w.rows[id];
      if !a.geocodingEnabled then JobRun(w, SkippedDisabled)
      else if a.coordinates.Some? then JobRun(w, SkippedHasCoordinates)
      else if RecentlyFailed(a, now) then JobRun(w, SkippedRecentlyFailed)
      else
        match geocoder(a)
        case Some(p) =>
          var done := SuccessWrite(a, p, now);
          JobRun(w.(rows := w.rows[id := done], events := w.events + [done]), Geocoded(p))
        case None =>
          JobRun(w.(rows := w.rows[id := FailureWrite(a, now)]), Failed(FailurePrefix + NatToString(id)))
  }

  method Handle(store: Store, id: nat, geocoder: Address -> Option<Point>, now: Timestamp) returns (outcome: JobOutcome)
    requires store.Valid()
    modifies store
    ensures JobRun(store.State(), outcome) == HandleSpec(old(store.State()), id, geocoder, now)
    ensures store.Valid()
  {
    HandleKeepsConsistent(store.State(), id, geocoder, now);
    if id !in store.rows {
      return SkippedMissing;
    }
    var a := store.rows[id];
    if !a.geocodingEnabled {
      return SkippedDisabled;
    }
    if a.coordinates.Some? {
      return SkippedHasCoordinates;
    }
    if a.geocodingFailedAt.Some? && a.geocodingFailedAt.value > now - OneDay {
      return SkippedRecentlyFailed;
    }
    var coordinates := geocoder(a);
    if coordinates.Some? {
      store.rows := store.rows[id := SuccessWrite(a, coordinates.value, now)];
      store.events := store.events + [store.rows[id]];
      outcome := Geocoded(coordinates.value);
    } else {
      store.rows := store.rows[id := FailureWrite(a, now)];
      outcome := Failed(FailurePrefix + NatToString(id));
    }
  }

  // ---------------------------------------------------------------------
  // Properties of handle

  /** The geocoder is consulted exactly when the record is eligible: an
      ineligible run is the same whatever the geocoder, writes nothing and
      reports the first guard that stopped it. */
  lemma HandleGuards(w: World, id: nat, geocoder: Address -> Option<Point>, other: Address -> Option<Point>, now: Timestamp)
    ensures var run := HandleSpec(w, id, geocoder, now);
            && ((run.outcome.Geocoded? || run.outcome.Failed?) <==> Eligible(w, id, now))
            && (!Eligible(w, id, now) ==>
                  && run == HandleSpec(w, id, other, now)
                  && run.world == w
                  && (run.outcome == SkippedMissing <==> id !in w.rows)
                  && (run.outcome == SkippedDisabled <==> id in w.rows && !w.rows[id].geocodingEnabled)
                  && (run.outcome == SkippedHasCoordinates <==>
                        id in w.rows && w.rows[id].geocodingEnabled && w.rows[id].coordinates.Some?)
                  && (run.outcome == SkippedRecentlyFailed <==>
                        id in w.rows && w.rows[id].geocodingEnabled && w.rows[id].coordinates.None? && RecentlyFailed(w.rows[id], now)))
  {
  }

  /** A successful lookup stores the point with the current time, clears
      the failure fields, touches no other record and no job, and announces
      the stored record once. */
  lemma HandleSuccess(w: World, id: nat, geocoder: Address -> Option<Point>, now: Timestamp)
    requires Eligible(w, id, now) && geocoder(w.rows[id]).Some?
    ensures var run := HandleSpec(w, id, geocoder, now);
            var p := geocoder(w.rows[id]).value;
            && run.outcome == Geocoded(p)
            && run.world.rows == w.rows[id := SuccessWrite(w.rows[id], p, now)]
            && run.world.events == w.events + [run.world.rows[id]]
            && run.world.jobs == w.jobs && run.world.nextId == w.nextId
  {
  }

  /** A failed lookup records the time and the fixed message, keeps the
      coordinates, announces nothing and raises the exception naming the
      address. */
  lemma HandleFailure(w: World, id: nat, geocoder: Address -> Option<Point>, now: Timestamp)
    requires Eligible(w, id, now) && geocoder(w.rows[id]).None?
    ensures var run := HandleSpec(w, id, geocoder, now);
            && run.outcome == Failed("Geocoding failed for address " + NatToString(id))
            && run.world.rows == w.rows[id := FailureWrite(w.rows[id], now)]
            && run.world.events == w.events && run.world.jobs == w.jobs && run.world.nextId == w.nextId
  {
  }

  /** handle keeps the table consistent: it writes only enabled records and
      no is_primary flag or owner. */
  lemma HandleKeepsConsistent(w: World, id: nat, geocoder: Address -> Option<Point>, now: Timestamp)
    requires Consistent(w)
    ensures Consistent(HandleSpec(w, id, geocoder, now).world)
  {
    if Eligible(w, id, now) {
      var a := w.rows[id];
      var written := if geocoder(a).Some? then SuccessWrite(a, geocoder(a).value, now) else FailureWrite(a, now);
      var w' := HandleSpec(w, id, geocoder, now).world;
      assert w'.rows == w.rows[id := written] && w'.nextId == w.nextId;
      OutcomeWriteKeepsConsistent(w, w', id, written);
    }
  }

  /** Writing only outcome fields of an enabled record keeps the table
      consistent. */
  lemma OutcomeWriteKeepsConsistent(w: World, w': World, id: nat, written: Address)
    requires Consistent(w) && id in w.rows && w.rows[id].geocodingEnabled
    requires SameExceptOutcome(w.rows[id], written)
    requires w'.rows == w.rows[id := written] && w'.nextId == w.nextId
    ensures Consistent(w')
  {
    assert written.id == id && written.geocodingEnabled;
    FewerPrimariesKeepInvariant(w.rows, w'.rows);
  }

  /** A second run after a success, at any time and with any geocoder, is
      skipped and changes nothing. */
  lemma RerunAfterSuccessSkipped(w: World, id: nat, geocoder: Address -> Option<Point>, now: Timestamp,
                                 other: Address -> Option<Point>, later: Timestamp)
    requires HandleSpec(w, id, geocoder, now).outcome.Geocoded?
    ensures var w' := HandleSpec(w, id, geocoder, now).world;
            HandleSpec(w', id, other, later) == JobRun(w', SkippedHasCoordinates)
  {
  }

  /** After a failure at `now`, a later run reaches the geocoder exactly when
      at least one day has passed. */
  lemma CoolDownAfterFailure(w: World, id: nat, geocoder: Address -> Option<Point>, now: Timestamp, later: Timestamp)
    requires HandleSpec(w, id, geocoder, now).outcome.Failed?
    requires later >= now
    ensures var w' := HandleSpec(w, id, geocoder, now).world;
            Eligible(w', id, later) <==> later >= now + OneDay
  {
  }

  /** The queue's own retries all fall inside the cool-down: every retry of
      a failed run is skipped without a lookup. */
  lemma RetriesAreSkipped(w: World, id: nat, geocoder: Address -> Option<Point>, now: Timestamp,
                          other: Address -> Option<Point>, attempt: nat)
    requires HandleSpec(w, id, geocoder, now).outcome.Failed?
    requires 1 <= attempt < Tries
    ensures var w' := HandleSpec(w, id, geocoder, now).world;
            HandleSpec(w', id, other, now + attempt * Backoff) == JobRun(w', SkippedRecentlyFailed)
  {
    CoolDownAfterFailure(w, id, geocoder, now, now + attempt * Backoff);
  }

  /** A failed record leaves the needs-geocoding scope, so no save dispatches
      a new job for it until an address field changes. */
  lemma FailureLeavesNeedsGeocoding(a: Address, now: Timestamp)
    ensures !NeedsGeocoding(FailureWrite(a, now))
  {
  }

  /** A record that needs geocoding always reaches the geocoder when its job
      runs; conversely the job also looks up a record whose failure is more
      than a day old, which needsGeocoding (and so no save) ever selects. */
  lemma NeedsGeocodingReachesGeocoder(w: World, id: nat, now: Timestamp)
    requires id in w.rows
    ensures NeedsGeocoding(w.rows[id]) <==> Eligible(w, id, now) && w.rows[id].geocodingFailedAt.None?
  {
  }

  /** A success moves the record into the geocoded scope and out of the
      failed one; a failure moves it into the failed scope; either way it
      leaves the needs-geocoding scope. */
  lemma HandleMovesScopes(w: World, id: nat, geocoder: Address -> Option<Point>, now: Timestamp)
    ensures var run := HandleSpec(w, id, geocoder, now);
            && (run.outcome.Geocoded? ==>
                  id in ScopeGeocoded(run.world.rows) && id !in ScopeFailed(run.world.rows))
            && (run.outcome.Failed? ==> id in ScopeFailed(run.world.rows))
            && ((run.outcome.Geocoded? || run.outcome.Failed?) ==> id !in ScopeNeedsGeocoding(run.world.rows))
  {
  }
}
