/** One save of an address, in the order the framework runs it: the model's
    saving hook, then for a new record the insert, `created` and `saved`, and
    for an existing record the dirty check, `updating`, the update, `updated`
    and `saved`. The "coordinates provided" flag is local to one save; the
    reset at the end of `saved` is what makes it so. */
module WritePath {
  import opened Wrappers
  import opened AddressModel
  import opened Database
  import opened AddressObserver

  /** The database refuses a write naming a column the table does not have. */
  datatype WriteError = UnknownColumn(column: string)

  /** A new world together with what the operation returned. */
  datatype Step<R> = Step(world: World, result: R)

  /** A non-column key left in the attribute array after the saving hook:
      happens when only one of latitude and longitude was assigned. */
  function LeftoverColumn(a: Attributes): (r: Option<string>)
    ensures r.None? <==> a.latitude.None? && a.longitude.None?
    ensures r.Some? ==> r.value == "latitude" || r.value == "longitude"
  {
    if a.latitude.Some? then Some("latitude")
    else if a.longitude.Some? then Some("longitude")
    else None
  }

  // ---------------------------------------------------------------------
  // Create

  /** Creating a record from caller data: the new key is the next
      auto-increment value. */
  function InsertSpec(w: World, owner: Option<Owner>, data: AddressData, now: Timestamp): Step<Result<nat, WriteError>> {
    var id := w.nextId;
    var s := SavingHook(NewAttributes(id, owner, data));
    var leftover := LeftoverColumn(s.attributes);
    if leftover.Some? then Step(w, Err(UnknownColumn(leftover.value)))
    else
      var inserted := w.(rows := w.rows[id := s.attributes.row], nextId := id + 1);
      Step(SavedSpec(CreatedSpec(inserted, id, s.coordinatesProvided, now), id), Ok(id))
  }

  method Insert(store: Store, owner: Option<Owner>, data: AddressData, now: Timestamp) returns (result: Result<nat, WriteError>)
    requires store.Valid()
    modifies store
    ensures Step(store.State(), result) == InsertSpec(old(store.State()), owner, data, now)
    ensures store.Valid()
  {
    InsertKeepsConsistent(store.State(), owner, data, now);
    var id := store.nextId;
    var s := Saving(NewAttributes(id, owner, data));
    var leftover := LeftoverColumn(s.attributes);
    if leftover.Some? {
      return Err(UnknownColumn(leftover.value));
    }
    store.rows := store.rows[id := s.attributes.row];
    store.nextId := id + 1;
    Created(store, id, s.coordinatesProvided, now);
    Saved(store, id);
    result := Ok(id);
  }

  // ---------------------------------------------------------------------
  // Update

  /** Saving the loaded record `id` after the caller assigned `next` (and
      possibly a latitude/longitude pair). Without a dirty attribute nothing
      is written and only `saved` runs. */
  function UpdateSpec(w: World, id: nat, next: Address, latitude: Option<real>, longitude: Option<real>, now: Timestamp): Step<Outcome<WriteError>>
    requires id in w.rows && next.id == id
  {
    var original := w.rows[id];
    var s := SavingHook(Attributes(next, latitude, longitude));
    var leftover := LeftoverColumn(s.attributes);
    if s.attributes.row == original && leftover.None? then Step(SavedSpec(w, id), Pass)
    else if leftover.Some? then Step(w, Fail(UnknownColumn(leftover.value)))
    else
      var row := UpdatingHook(original, s.attributes.row, s.coordinatesProvided);
      var written := w.(rows := w.rows[id := row]);
      Step(SavedSpec(UpdatedSpec(written, id, original, s.coordinatesProvided, now), id), Pass)
  }

  method Update(store: Store, id: nat, next: Address, latitude: Option<real>, longitude: Option<real>, now: Timestamp) returns (result: Outcome<WriteError>)
    requires store.Valid() && id in store.rows && next.id == id
    modifies store
    ensures Step(store.State(), result) == UpdateSpec(old(store.State()), id, next, latitude, longitude, now)
    ensures store.Valid()
  {
    UpdateKeepsConsistent(store.State(), id, next, latitude, longitude, now);
    var original := store.rows[id];
    var s := Saving(Attributes(next, latitude, longitude));
    var leftover := LeftoverColumn(s.attributes);
    if s.attributes.row == original && leftover.None? {
      Saved(store, id);
      return Pass;
    }
    var row := Updating(original, s.attributes.row, s.coordinatesProvided);
    if leftover.Some? {
      return Fail(UnknownColumn(leftover.value));
    }
    store.rows := store.rows[id := row];
    Updated(store, id, original, s.coordinatesProvided, now);
    Saved(store, id);
    result := Pass;
  }

  // ---------------------------------------------------------------------
  // Invariants

  /** The state right after record `id` was written: keys match ids below
      the next key, disabled records hold no outcome, and only pairs with
      `id` may break the primary rule. */
  predicate WrittenAt(w: World, id: nat) {
    && id in w.rows
    && (forall k :: k in w.rows ==> w.rows[k].id == k && k < w.nextId)
    && (forall k :: k in w.rows ==> DisabledHasNoOutcome(w.rows[k]))
    && AtMostOnePrimaryExcept(w.rows, id)
  }

  /** A hook that at most stamps geocoded_at of the enabled record `id`
      keeps that state. */
  lemma StampKeepsWrittenAt(w: World, w1: World, id: nat)
    requires WrittenAt(w, id)
    requires w1.rows.Keys == w.rows.Keys && w1.nextId == w.nextId
    requires forall k :: k in w.rows && k != id ==> w1.rows[k] == w.rows[k]
    requires w1.rows[id] == w.rows[id].(geocodedAt := w1.rows[id].geocodedAt)
    requires !w.rows[id].geocodingEnabled ==> w1.rows[id] == w.rows[id]
    ensures WrittenAt(w1, id)
  {
    forall j, k | j in w1.rows && k in w1.rows && j != k && j != id && k != id
      && w1.rows[j].isPrimary && w1.rows[k].isPrimary && w1.rows[j].owner.Some?
      ensures w1.rows[j].owner != w1.rows[k].owner
    {
      assert w.rows[j] == w1.rows[j] && w.rows[k] == w1.rows[k];
    }
  }

  /** `saved` turns that state into a consistent one. */
  lemma SavedRestoresConsistency(w: World, id: nat)
    requires WrittenAt(w, id)
    ensures Consistent(SavedSpec(w, id))
  {
    SavedRestoresOnePrimary(w, id);
  }

  /** After a write of record `id`, the hooks that follow re-establish both
      invariants. */
  lemma HooksRestoreConsistency(w: World, id: nat, original: Address, provided: bool, now: Timestamp, created: bool)
    requires WrittenAt(w, id)
    ensures var w1 := if created then CreatedSpec(w, id, provided, now) else UpdatedSpec(w, id, original, provided, now);
            Consistent(SavedSpec(w1, id))
  {
    if created {
      CreatedKeepsRows(w, id, provided, now);
      StampKeepsWrittenAt(w, CreatedSpec(w, id, provided, now), id);
      SavedRestoresConsistency(CreatedSpec(w, id, provided, now), id);
    } else {
      UpdatedKeepsRows(w, id, original, provided, now);
      StampKeepsWrittenAt(w, UpdatedSpec(w, id, original, provided, now), id);
      SavedRestoresConsistency(UpdatedSpec(w, id, original, provided, now), id);
    }
  }

  /** Creating a record keeps the table consistent. */
  lemma InsertKeepsConsistent(w: World, owner: Option<Owner>, data: AddressData, now: Timestamp)
    requires Consistent(w)
    ensures Consistent(InsertSpec(w, owner, data, now).world)
  {
    var id := w.nextId;
    var s := SavingHook(NewAttributes(id, owner, data));
    if LeftoverColumn(s.attributes).None? {
      var inserted := w.(rows := w.rows[id := s.attributes.row], nextId := id + 1);
      AtMostOnePrimaryWeakens(w.rows, id);
      WriteKeepsOtherPairs(w.rows, id, s.attributes.row);
      HooksRestoreConsistency(inserted, id, s.attributes.row, s.coordinatesProvided, now, true);
    }
  }

  /** Saving a loaded record keeps the table consistent. */
  lemma UpdateKeepsConsistent(w: World, id: nat, next: Address, latitude: Option<real>, longitude: Option<real>, now: Timestamp)
    requires Consistent(w) && id in w.rows && next.id == id
    ensures Consistent(UpdateSpec(w, id, next, latitude, longitude, now).world)
  {
    var original := w.rows[id];
    var s := SavingHook(Attributes(next, latitude, longitude));
    var leftover := LeftoverColumn(s.attributes);
    AtMostOnePrimaryWeakens(w.rows, id);
    if s.attributes.row == original && leftover.None? {
      SavedRestoresOnePrimary(w, id);
    } else if leftover.None? {
      var row := UpdatingHook(original, s.attributes.row, s.coordinatesProvided);
      WriteKeepsOtherPairs(w.rows, id, row);
      HooksRestoreConsistency(w.(rows := w.rows[id := row]), id, original, s.coordinatesProvided, now, false);
    }
  }

  // ---------------------------------------------------------------------
  // Create with the saving hook as the source writes it

  /** A create whose saving hook is SavingHookAsWritten; it differs from
      InsertSpec only for a disabled record given both coordinates. */
  function InsertSpecAsWritten(w: World, owner: Option<Owner>, data: AddressData, now: Timestamp): (st: Step<Result<nat, WriteError>>)
    ensures !(data.geocodingEnabled == Some(false) && data.latitude.Some? && data.longitude.Some?) ==>
              st == InsertSpec(w, owner, data, now)
  {
    var id := w.nextId;
    var s := SavingHookAsWritten(NewAttributes(id, owner, data));
    var leftover := LeftoverColumn(s.attributes);
    if leftover.Some? then Step(w, Err(UnknownColumn(leftover.value)))
    else
      var inserted := w.(rows := w.rows[id := s.attributes.row], nextId := id + 1);
      Step(SavedSpec(CreatedSpec(inserted, id, s.coordinatesProvided, now), id), Ok(id))
  }

  /** Caller data that assigns nothing. */
  function NoData(): AddressData {
    AddressData(None, None, None, None, None, None, None, None, None, None, None, None, None,
                None, None, None, None, None, None, None, None, None, None, None, None)
  }

  /** From the empty table, creating a disabled record with the required
      street, city and state, a pair and a stale error message: as written the table is no longer consistent,
      with the corrected hook it is. */
  lemma AsWrittenInsertBreaksConsistency()
    ensures var w := World(map[], 1, [], []);
            var data := NoData().(street := Some("Avenida Paulista"), city := Some("Sao Paulo"), state := Some("SP"),
                                  geocodingEnabled := Some(false), latitude := Some(-23.56), longitude := Some(-46.65),
                                  geocodingError := Some("stale"));
            && Consistent(w)
            && InsertSpecAsWritten(w, None, data, 0).result == Ok(1)
            && InsertSpecAsWritten(w, None, data, 0).world.rows[1].geocodingError == Some("stale")
            && !Consistent(InsertSpecAsWritten(w, None, data, 0).world)
            && Consistent(InsertSpec(w, None, data, 0).world)
  {
    var w := World(map[], 1, [], []);
    var data := NoData().(street := Some("Avenida Paulista"), city := Some("Sao Paulo"), state := Some("SP"),
                          geocodingEnabled := Some(false), latitude := Some(-23.56), longitude := Some(-46.65),
                          geocodingError := Some("stale"));
    InsertKeepsConsistent(w, None, data, 0);
    var st := InsertSpecAsWritten(w, None, data, 0);
    assert st.world.rows[1] == NewAttributes(1, None, data).row;
    assert !DisabledHasNoOutcome(st.world.rows[1]);
  }

  // ---------------------------------------------------------------------
  // Create: the three branches of `created`

  /** Only one of latitude and longitude: the insert is refused and nothing
      changes. */
  lemma InsertHalfPairRejected(w: World, owner: Option<Owner>, data: AddressData, now: Timestamp)
    requires data.latitude.Some? != data.longitude.Some?
    ensures InsertSpec(w, owner, data, now).world == w
    ensures InsertSpec(w, owner, data, now).result.Err?
  {
  }

  /** A geocoding-disabled record is stored without any outcome field, and
      neither a job nor an event is produced. */
  lemma InsertDisabled(w: World, owner: Option<Owner>, data: AddressData, now: Timestamp)
    requires data.geocodingEnabled == Some(false)
    requires data.latitude.Some? == data.longitude.Some?
    ensures var st := InsertSpec(w, owner, data, now);
            && st.result == Ok(w.nextId)
            && NoOutcome(st.world.rows[w.nextId])
            && st.world.jobs == w.jobs && st.world.events == w.events
  {
  }

  /** An enabled record created with a latitude/longitude pair is stored at
      that point, stamped with the current time and announced by one event
      carrying the stored record; no job is dispatched. */
  lemma InsertWithCoordinates(w: World, owner: Option<Owner>, data: AddressData, now: Timestamp)
    requires data.geocodingEnabled.GetOr(true)
    requires data.latitude.Some? && data.longitude.Some?
    ensures var st := InsertSpec(w, owner, data, now);
            && st.result == Ok(w.nextId)
            && st.world.rows[w.nextId].coordinates == Some(Point(data.latitude.value, data.longitude.value))
            && st.world.rows[w.nextId].geocodedAt == Some(now)
            && st.world.events == w.events + [st.world.rows[w.nextId]]
            && st.world.jobs == w.jobs
  {
  }

  /** An enabled record created without a pair gets a job for its id exactly
      when it needs geocoding, and no event. */
  lemma InsertWithoutCoordinates(w: World, owner: Option<Owner>, data: AddressData, now: Timestamp)
    requires data.geocodingEnabled.GetOr(true)
    requires data.latitude.None? && data.longitude.None?
    ensures var st := InsertSpec(w, owner, data, now);
            && st.result == Ok(w.nextId)
            && st.world.rows[w.nextId].coordinates == data.coordinates
            && st.world.events == w.events
            && (st.world.jobs == w.jobs + [w.nextId] <==> NeedsGeocoding(st.world.rows[w.nextId]))
            && (st.world.jobs == w.jobs <==> !NeedsGeocoding(st.world.rows[w.nextId]))
  {
  }

  // ---------------------------------------------------------------------
  // Update: `updating` and `updated` together

  /** Changing an identity field of an enabled record without a pair clears
      the stale outcome and dispatches exactly one job for the record. */
  lemma UpdateIdentityRequeues(w: World, id: nat, next: Address, now: Timestamp)
    requires id in w.rows && next.id == id
    requires next.geocodingEnabled && !SameIdentity(w.rows[id], next)
    ensures var st := UpdateSpec(w, id, next, None, None, now);
            && st.result == Pass
            && st.world.rows[id] == ClearOutcome(next)
            && st.world.jobs == w.jobs + [id]
            && st.world.events == w.events
  {
  }

  /** Editing only non-identity fields (a customer name, say) of an enabled
      record without a pair stores the edit as given and dispatches nothing. */
  lemma UpdateOtherFieldsNoJob(w: World, id: nat, next: Address, now: Timestamp)
    requires id in w.rows && next.id == id
    requires next.geocodingEnabled && SameIdentity(w.rows[id], next)
    ensures var st := UpdateSpec(w, id, next, None, None, now);
            && st.result == Pass
            && st.world.rows[id] == next
            && st.world.jobs == w.jobs
            && st.world.events == w.events
  {
  }

  /** Saving a record whose only change is its is_primary flag writes the
      flag and runs no hook but `saved`. */
  lemma UpdatePrimaryFlagOnly(w: World, id: nat, next: Address, now: Timestamp)
    requires id in w.rows && next.id == id
    requires next == w.rows[id].(isPrimary := next.isPrimary) && DisabledHasNoOutcome(next)
    ensures UpdateSpec(w, id, next, None, None, now) == Step(SavedSpec(w.(rows := w.rows[id := next]), id), Pass)
  {
    var original := w.rows[id];
    assert SavingHook(Attributes(next, None, None)).attributes.row == next;
    if next == original {
      assert w.(rows := w.rows[id := next]) == w;
    } else {
      assert SameIdentity(original, next);
      assert UpdatingHook(original, next, false) == next;
    }
  }

  /** Updating an enabled record with a pair stores the point, stamps the
      time only when none was set, and announces the stored record, unless
      the pair changes nothing at all, in which case nothing is written. */
  lemma UpdateWithCoordinates(w: World, id: nat, next: Address, latitude: real, longitude: real, now: Timestamp)
    requires id in w.rows && next.id == id && next.geocodingEnabled
    ensures var st := UpdateSpec(w, id, next, Some(latitude), Some(longitude), now);
            var placed := next.(coordinates := Some(Point(latitude, longitude)));
            var stamped := if next.geocodedAt.None? then placed.(geocodedAt := Some(now)) else placed;
            && st.result == Pass
            && st.world.jobs == w.jobs
            && (placed != w.rows[id] ==> st.world.rows[id] == stamped && st.world.events == w.events + [stamped])
            && (placed == w.rows[id] ==> st.world.rows[id] == w.rows[id] && st.world.events == w.events)
  {
  }

  /** Updating a disabled record leaves it without any outcome field and
      produces neither a job nor an event. */
  lemma UpdateDisabled(w: World, id: nat, next: Address, latitude: Option<real>, longitude: Option<real>, now: Timestamp)
    requires id in w.rows && next.id == id
    requires !next.geocodingEnabled
    ensures var st := UpdateSpec(w, id, next, latitude, longitude, now);
            && (st.result.Pass? ==> NoOutcome(st.world.rows[id]))
            && st.world.jobs == w.jobs && st.world.events == w.events
  {
  }
}
