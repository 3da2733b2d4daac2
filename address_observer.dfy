/** The hooks of src/Observers/AddressObserver.php: `updating` before an
    update is written, `created` and `updated` after the row is written, and
    `saved` after every save. Each hook is a function of the world (its
    specification) and a method that performs it on the store. */
module AddressObserver {
  import opened Wrappers
  import opened AddressModel
  import opened Database

  // ---------------------------------------------------------------------
  // updating

  /** updating: on a disabled record the four outcome fields are forced to
      null; on an enabled one they are cleared when an identity field is
      dirty and no coordinates came with this write, and kept otherwise. */
  function UpdatingHook(original: Address, current: Address, provided: bool): (r: Address)
    ensures SameExceptOutcome(current, r)
    ensures r == current || NoOutcome(r)
    ensures !current.geocodingEnabled || (!SameIdentity(original, current) && !provided) ==> NoOutcome(r)
    ensures current.geocodingEnabled && (SameIdentity(original, current) || provided) ==> r == current
  {
    if !current.geocodingEnabled then ClearOutcome(current)
    else if !SameIdentity(original, current) && !provided then ClearOutcome(current)
    else current
  }

  method Updating(original: Address, current: Address, provided: bool) returns (r: Address)
    ensures r == UpdatingHook(original, current, provided)
  {
    r := current;
    if !r.geocodingEnabled {
      r := r.(coordinates := None, geocodedAt := None, geocodingFailedAt := None, geocodingError := None);
      return;
    }
    var changed := AddressFieldsChanged(original, r);
    if changed && !provided {
      r := r.(coordinates := None, geocodedAt := None, geocodingFailedAt := None, geocodingError := None);
    }
  }

  // ---------------------------------------------------------------------
  // created

  /** created: nothing for a disabled record; for coordinates given in this
      write, stamp geocoded_at quietly and emit the event with the fresh
      record; otherwise dispatch a job when the record needs geocoding. */
  function CreatedSpec(w: World, id: nat, provided: bool, now: Timestamp): World
    requires id in w.rows
  {
    var a := w.rows[id];
    if !a.geocodingEnabled then w
    else if provided && a.coordinates.Some? then
      var stamped := a.(geocodedAt := Some(now));
      w.(rows := w.rows[id := stamped], events := w.events + [stamped])
    else if NeedsGeocoding(a) then w.(jobs := w.jobs + [id])
    else w
  }

  method Created(store: Store, id: nat, provided: bool, now: Timestamp)
    requires id in store.rows
    modifies store
    ensures store.State() == CreatedSpec(old(store.State()), id, provided, now)
  {
    var a := store.rows[id];
    if !a.geocodingEnabled {
      return;
    }
    if provided && a.coordinates.Some? {
      store.rows := store.rows[id := a.(geocodedAt := Some(now))];
      store.events := store.events + [store.rows[id]];
      return;
    }
    if NeedsGeocoding(a) {
      store.jobs := store.jobs + [id];
    }
  }

  // ---------------------------------------------------------------------
  // updated

  /** updated: nothing for a disabled record; for coordinates given in this
      write, stamp geocoded_at only if it is null and emit the event;
      otherwise dispatch a job when an identity field was changed by this
      write and the record needs geocoding. */
  function UpdatedSpec(w: World, id: nat, original: Address, provided: bool, now: Timestamp): World
    requires id in w.rows
  {
    var a := w.rows[id];
    if !a.geocodingEnabled then w
    else if provided && a.coordinates.Some? then
      var stamped := if a.geocodedAt.None? then a.(geocodedAt := Some(now)) else a;
      w.(rows := w.rows[id := stamped], events := w.events + [stamped])
    else if !SameIdentity(original, a) && NeedsGeocoding(a) then w.(jobs := w.jobs + [id])
    else w
  }

  method Updated(store: Store, id: nat, original: Address, provided: bool, now: Timestamp)
    requires id in store.rows
    modifies store
    ensures store.State() == UpdatedSpec(old(store.State()), id, original, provided, now)
  {
    var a := store.rows[id];
    if !a.geocodingEnabled {
      return;
    }
    if provided && a.coordinates.Some? {
      if a.geocodedAt.None? {
        store.rows := store.rows[id := a.(geocodedAt := Some(now))];
      }
      store.events := store.events + [store.rows[id]];
      return;
    }
    var changed := AddressFieldsChanged(original, a);
    if changed && NeedsGeocoding(a) {
      store.jobs := store.jobs + [id];
    }
  }

  // ---------------------------------------------------------------------
  // saved

  /** The bulk update of saved: every other primary record of the owner
      becomes non-primary, and nothing else changes. */
  function DemoteSiblings(rows: map<nat, Address>, id: nat, o: Owner): (r: map<nat, Address>)
    ensures r.Keys == rows.Keys
    ensures forall k :: k in rows ==> r[k] == rows[k].(isPrimary := r[k].isPrimary)
    ensures forall k :: k in rows && k != id && OwnedBy(rows[k], o) ==> !r[k].isPrimary
    ensures forall k :: k in rows && (k == id || !OwnedBy(rows[k], o)) ==> r[k] == rows[k]
  {
    map k | k in rows :: if k != id && OwnedBy(rows[k], o) && rows[k].isPrimary then rows[k].(isPrimary := false) else rows[k]
  }

  /** saved: a primary record with a resolvable owner demotes its siblings. */
  function SavedSpec(w: World, id: nat): World
    requires id in w.rows
  {
    var a := w.rows[id];
    if a.isPrimary && a.owner.Some? then w.(rows := DemoteSiblings(w.rows, id, a.owner.value)) else w
  }

  method Saved(store: Store, id: nat)
    requires id in store.rows
    modifies store
    ensures store.State() == SavedSpec(old(store.State()), id)
  {
    var a := store.rows[id];
    if a.isPrimary && a.owner.Some? {
      store.rows := DemoteSiblings(store.rows, id, a.owner.value);
    }
  }

  // ---------------------------------------------------------------------
  // Properties of the hooks

  /** saved restores "at most one primary per owner" when only the pairs
      involving the saved record could break it; it changes nothing but
      is_primary flags of other records and no log. */
  lemma SavedRestoresOnePrimary(w: World, id: nat)
    requires id in w.rows
    requires AtMostOnePrimaryExcept(w.rows, id)
    ensures AtMostOnePrimary(SavedSpec(w, id).rows)
    ensures SavedSpec(w, id).rows.Keys == w.rows.Keys && SavedSpec(w, id).rows[id] == w.rows[id]
    ensures SavedSpec(w, id).(rows := w.rows) == w
  {
    var a := w.rows[id];
    var r := SavedSpec(w, id).rows;
    if a.isPrimary && a.owner.Some? {
      forall j, k | j in r && k in r && j != k && r[j].isPrimary && r[k].isPrimary && r[j].owner.Some?
        ensures r[j].owner != r[k].owner
      {
        if j == id {
          assert !OwnedBy(w.rows[k], a.owner.value);
        } else if k == id {
          assert !OwnedBy(w.rows[j], a.owner.value);
        } else {
          assert w.rows[j].isPrimary && w.rows[k].isPrimary;
        }
      }
    } else {
      forall j, k | j in r && k in r && j != k && r[j].isPrimary && r[k].isPrimary && r[j].owner.Some?
        ensures r[j].owner != r[k].owner
      {
        if j != id && k != id {
          assert w.rows[j].isPrimary && w.rows[k].isPrimary;
        }
      }
    }
  }

  /** created changes only the stamp of an enabled record and the logs. */
  lemma CreatedKeepsRows(w: World, id: nat, provided: bool, now: Timestamp)
    requires id in w.rows
    ensures var w' := CreatedSpec(w, id, provided, now);
            && w'.rows.Keys == w.rows.Keys && w'.nextId == w.nextId
            && (forall k :: k in w.rows && k != id ==> w'.rows[k] == w.rows[k])
            && w'.rows[id] == w.rows[id].(geocodedAt := w'.rows[id].geocodedAt)
            && (!w.rows[id].geocodingEnabled ==> w' == w)
  {
  }

  /** updated changes only the stamp of an enabled record and the logs. */
  lemma UpdatedKeepsRows(w: World, id: nat, original: Address, provided: bool, now: Timestamp)
    requires id in w.rows
    ensures var w' := UpdatedSpec(w, id, original, provided, now);
            && w'.rows.Keys == w.rows.Keys && w'.nextId == w.nextId
            && (forall k :: k in w.rows && k != id ==> w'.rows[k] == w.rows[k])
            && w'.rows[id] == w.rows[id].(geocodedAt := w'.rows[id].geocodedAt)
            && (!w.rows[id].geocodingEnabled ==> w' == w)
  {
  }
}
