/** The address operations an owner entity gains from src/Traits/Addressable.php:
    its address set, its primary address, adding an address, choosing the
    primary address, the full-address view and the geocodable subset. */
module Addressable {
  import opened Wrappers
  import opened AddressModel
  import opened Database
  import opened AddressObserver
  import opened WritePath

  /** addresses(): the owner's records. */
  function OwnerAddresses(rows: map<nat, Address>, o: Owner): (r: map<nat, Address>)
    ensures SubTable(r, rows)
    ensures forall k :: k in r <==> k in rows && OwnedBy(rows[k], o)
  {
    map k | k in rows && OwnedBy(rows[k], o) :: rows[k]
  }

  /** geocodableAddresses(): the owner's records with geocoding enabled. */
  function GeocodableAddresses(rows: map<nat, Address>, o: Owner): (r: map<nat, Address>)
    ensures SubTable(r, OwnerAddresses(rows, o))
    ensures forall k :: k in r <==> k in rows && OwnedBy(rows[k], o) && rows[k].geocodingEnabled
  {
    ScopeGeocodingEnabled(OwnerAddresses(rows, o))
  }

  // ---------------------------------------------------------------------
  // addAddress

  /** addAddress(data): create a record owned by the caller. */
  method AddAddress(store: Store, owner: Owner, data: AddressData, now: Timestamp) returns (result: Result<nat, WriteError>)
    requires store.Valid()
    modifies store
    ensures Step(store.State(), result) == InsertSpec(old(store.State()), Some(owner), data, now)
    ensures store.Valid()
  {
    result := Insert(store, Some(owner), data, now);
  }

  /** A successful insert adds the fresh key, owned by the given owner, and
      keeps the owner of every existing record. */
  lemma InsertKeepsOwners(w: World, owner: Option<Owner>, data: AddressData, now: Timestamp)
    requires Consistent(w)
    requires InsertSpec(w, owner, data, now).result.Ok?
    ensures var rows' := InsertSpec(w, owner, data, now).world.rows;
            && w.nextId !in w.rows
            && rows'.Keys == w.rows.Keys + {w.nextId}
            && rows'[w.nextId].owner == owner
            && forall k :: k in w.rows ==> rows'[k].owner == w.rows[k].owner
  {
    var id := w.nextId;
    var s := SavingHook(NewAttributes(id, owner, data));
    var inserted := w.(rows := w.rows[id := s.attributes.row], nextId := id + 1);
    CreatedKeepsRows(inserted, id, s.coordinatesProvided, now);
  }

  /** Adding one key owned by `owner` grows that owner's set by exactly that
      key and leaves the key set of every other owner alone. */
  lemma OwnerKeysGrowByOne(rows: map<nat, Address>, rows': map<nat, Address>, id: nat, owner: Owner)
    requires id !in rows && rows'.Keys == rows.Keys + {id} && rows'[id].owner == Some(owner)
    requires forall k :: k in rows ==> rows'[k].owner == rows[k].owner
    ensures OwnerAddresses(rows', owner).Keys == OwnerAddresses(rows, owner).Keys + {id}
    ensures |OwnerAddresses(rows', owner)| == |OwnerAddresses(rows, owner)| + 1
    ensures forall o :: o != owner ==> OwnerAddresses(rows', o).Keys == OwnerAddresses(rows, o).Keys
  {
    var before := OwnerAddresses(rows, owner).Keys;
    var after := OwnerAddresses(rows', owner).Keys;
    assert forall k :: k in after <==> k in before || k == id;
    assert after == before + {id};
    assert |before + {id}| == |before| + 1;
  }

  /** A successful addAddress adds exactly one record to the owner's set,
      under the fresh key, and leaves the sets of other owners alone; a
      refused one changes nothing. */
  lemma AddAddressGrowsByOne(w: World, owner: Owner, data: AddressData, now: Timestamp)
    requires Consistent(w)
    ensures var st := InsertSpec(w, Some(owner), data, now);
            && (st.result.Ok? ==>
                  && st.result.value == w.nextId
                  && OwnerAddresses(st.world.rows, owner).Keys == OwnerAddresses(w.rows, owner).Keys + {w.nextId}
                  && |OwnerAddresses(st.world.rows, owner)| == |OwnerAddresses(w.rows, owner)| + 1
                  && (forall o :: o != owner ==> OwnerAddresses(st.world.rows, o).Keys == OwnerAddresses(w.rows, o).Keys))
            && (st.result.Err? ==> st.world == w)
  {
    var st := InsertSpec(w, Some(owner), data, now);
    if st.result.Ok? {
      InsertKeepsOwners(w, Some(owner), data, now);
      OwnerKeysGrowByOne(w.rows, st.world.rows, w.nextId, owner);
    }
  }

  // ---------------------------------------------------------------------
  // primaryAddress and the full-address view

  /** primaryAddress(): some primary record of the owner, or none when the
      owner has no primary record. */
  method PrimaryAddress(store: Store, owner: Owner) returns (r: Option<Address>)
    ensures r.Some? ==> r.value in store.rows.Values && OwnedBy(r.value, owner) && r.value.isPrimary
    ensures r.None? <==> forall k :: k in store.rows ==> !(OwnedBy(store.rows[k], owner) && store.rows[k].isPrimary)
  {
    var keys := store.rows.Keys;
    while keys != {}
      invariant keys <= store.rows.Keys
      invariant forall k :: k in store.rows && k !in keys ==> !(OwnedBy(store.rows[k], owner) && store.rows[k].isPrimary)
      decreases keys
    {
      var k :| k in keys;
      if OwnedBy(store.rows[k], owner) && store.rows[k].isPrimary {
        return Some(store.rows[k]);
      }
      keys := keys - {k};
    }
    return None;
  }

  /** With at most one primary per owner, the primary address is determined:
      any two primary records of one owner are the same record. */
  lemma PrimaryAddressUnique(rows: map<nat, Address>, o: Owner, a: Address, b: Address)
    requires AtMostOnePrimary(rows)
    requires a in rows.Values && OwnedBy(a, o) && a.isPrimary
    requires b in rows.Values && OwnedBy(b, o) && b.isPrimary
    ensures a == b
  {
    var j :| j in rows && rows[j] == a;
    var k :| k in rows && rows[k] == b;
  }

  /** getFullAddressAttribute: the formatted address of the primary record,
      or null when the owner has none. */
  method FullAddress(store: Store, owner: Owner) returns (s: Option<string>)
    ensures s.None? <==> forall k :: k in store.rows ==> !(OwnedBy(store.rows[k], owner) && store.rows[k].isPrimary)
    ensures s.Some? ==> exists a :: a in store.rows.Values && OwnedBy(a, owner) && a.isPrimary && s.value == FormattedAddressOf(a)
  {
    var primary := PrimaryAddress(store, owner);
    if primary.None? {
      return None;
    }
    var text := FormattedAddress(primary.value);
    s := Some(text);
  }

  // ---------------------------------------------------------------------
  // setPrimaryAddress

  /** setPrimaryAddress(id): when `id` is one of the owner's records, every
      other record of the owner is made non-primary in bulk (no hooks run),
      then the record loaded before that bulk write is saved as primary. */
  function SetPrimarySpec(w: World, o: Owner, id: nat, now: Timestamp): Step<bool> {
    if !(id in w.rows && OwnedBy(w.rows[id], o)) then Step(w, false)
    else
      var loaded := w.rows[id];
      var demoted := w.(rows := DemoteSiblings(w.rows, id, o));
      Step(UpdateSpec(demoted, id, loaded.(id := id, isPrimary := true), None, None, now).world, true)
  }

  method SetPrimaryAddress(store: Store, owner: Owner, id: nat, now: Timestamp) returns (ok: bool)
    requires store.Valid()
    modifies store
    ensures Step(store.State(), ok) == SetPrimarySpec(old(store.State()), owner, id, now)
    ensures store.Valid()
  {
    SetPrimaryKeepsConsistent(store.State(), owner, id, now);
    if !(id in store.rows && OwnedBy(store.rows[id], owner)) {
      return false;
    }
    var loaded := store.rows[id];
    DemoteKeepsConsistent(store.State(), id, owner);
    store.rows := DemoteSiblings(store.rows, id, owner);
    var _ := Update(store, id, loaded.(id := id, isPrimary := true), None, None, now);
    ok := true;
  }

  /** Demoting the owner's other records, writing record `id`, and demoting
      again: the record is as written, the owner's other records are
      non-primary and otherwise unchanged, other owners are untouched. */
  lemma DemoteWriteDemote(rows: map<nat, Address>, id: nat, o: Owner, next: Address)
    requires id in rows && OwnedBy(rows[id], o)
    ensures var r := DemoteSiblings(DemoteSiblings(rows, id, o)[id := next], id, o);
            && r.Keys == rows.Keys
            && r[id] == next
            && (forall k :: k in rows && k != id && OwnedBy(rows[k], o) ==> r[k] == rows[k].(isPrimary := false))
            && (forall k :: k in rows && !OwnedBy(rows[k], o) ==> r[k] == rows[k])
  {
    var d := DemoteSiblings(rows, id, o);
    var r := DemoteSiblings(d[id := next], id, o);
    forall k | k in rows && k != id && OwnedBy(rows[k], o)
      ensures r[k] == rows[k].(isPrimary := false)
    {
      assert d[id := next][k] == d[k];
    }
  }

  /** setPrimaryAddress refuses a record the owner does not have, changing
      nothing; otherwise the record becomes the owner's only primary one,
      nothing else about it changes, the records of other owners are
      untouched and neither a job nor an event is produced. */
  lemma SetPrimaryCorrect(w: World, o: Owner, id: nat, now: Timestamp)
    requires Consistent(w)
    ensures var st := SetPrimarySpec(w, o, id, now);
            && (st.result <==> id in w.rows && OwnedBy(w.rows[id], o))
            && (!st.result ==> st.world == w)
            && (st.result ==>
                  && st.world.rows.Keys == w.rows.Keys
                  && st.world.rows[id] == w.rows[id].(isPrimary := true)
                  && (forall k :: k in w.rows && k != id && OwnedBy(w.rows[k], o) ==> st.world.rows[k] == w.rows[k].(isPrimary := false))
                  && (forall k :: k in w.rows && !OwnedBy(w.rows[k], o) ==> st.world.rows[k] == w.rows[k])
                  && st.world.jobs == w.jobs && st.world.events == w.events)
  {
    if id in w.rows && OwnedBy(w.rows[id], o) {
      var next := w.rows[id].(id := id, isPrimary := true);
      var demoted := w.(rows := DemoteSiblings(w.rows, id, o));
      UpdatePrimaryFlagOnly(demoted, id, next, now);
      var written := demoted.(rows := demoted.rows[id := next]);
      assert SetPrimarySpec(w, o, id, now).world == SavedSpec(written, id)
        == written.(rows := DemoteSiblings(written.rows, id, o));
      DemoteWriteDemote(w.rows, id, o, next);
    }
  }

  /** setPrimaryAddress keeps the table consistent. */
  lemma SetPrimaryKeepsConsistent(w: World, o: Owner, id: nat, now: Timestamp)
    requires Consistent(w)
    ensures Consistent(SetPrimarySpec(w, o, id, now).world)
  {
    if id in w.rows && OwnedBy(w.rows[id], o) {
      var demoted := w.(rows := DemoteSiblings(w.rows, id, o));
      DemoteKeepsConsistent(w, id, o);
      UpdateKeepsConsistent(demoted, id, w.rows[id].(id := id, isPrimary := true), None, None, now);
    }
  }

  /** The bulk demotion of the owner's other records keeps the table
      consistent. */
  lemma DemoteKeepsConsistent(w: World, id: nat, o: Owner)
    requires Consistent(w)
    ensures Consistent(w.(rows := DemoteSiblings(w.rows, id, o)))
  {
    FewerPrimariesKeepInvariant(w.rows, DemoteSiblings(w.rows, id, o));
  }

  /** Under the one-primary invariant, the primary scope of an owner's
      addresses holds at most one record. */
  lemma OwnerHasAtMostOnePrimary(rows: map<nat, Address>, o: Owner)
    requires AtMostOnePrimary(rows)
    ensures |ScopePrimary(OwnerAddresses(rows, o))| <= 1
  {
    var m := ScopePrimary(OwnerAddresses(rows, o));
    if m != map[] {
      var j :| j in m;
      assert m.Keys == {j};
    }
  }
}
