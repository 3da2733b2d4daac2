/** The addresses table together with the two effect logs of the write path
    and the job: the GeocodeAddress jobs dispatched to the queue, by address
    id, and the AddressGeocoded events dispatched to the event bus, each
    carrying the freshly reloaded record. */
module Database {
  import opened Wrappers
  import opened AddressModel

  /** The record belongs to the owner. */
  predicate OwnedBy(a: Address, o: Owner) {
    a.owner == Some(o)
  }

  /** No resolvable owner has two primary records. */
  predicate AtMostOnePrimary(rows: map<nat, Address>) {
    forall j, k :: j in rows && k in rows && j != k && rows[j].isPrimary && rows[k].isPrimary && rows[j].owner.Some?
      ==> rows[j].owner != rows[k].owner
  }

  /** The same, for every pair of records that does not involve `id`. */
  predicate AtMostOnePrimaryExcept(rows: map<nat, Address>, id: nat) {
    forall j, k :: j in rows && k in rows && j != k && j != id && k != id
      && rows[j].isPrimary && rows[k].isPrimary && rows[j].owner.Some?
      ==> rows[j].owner != rows[k].owner
  }

  /** The table, the next auto-increment key, and the two logs. */
  datatype World = World(rows: map<nat, Address>, nextId: nat, jobs: seq<nat>, events: seq<Address>)

  /** What every write preserves: keys match ids and lie below the next key,
      disabled records hold no geocoding outcome, and each owner has at most
      one primary record. */
  predicate Consistent(w: World) {
    && (forall k :: k in w.rows ==> w.rows[k].id == k && k < w.nextId)
    && (forall k :: k in w.rows ==> DisabledHasNoOutcome(w.rows[k]))
    && AtMostOnePrimary(w.rows)
  }

  lemma AtMostOnePrimaryWeakens(rows: map<nat, Address>, id: nat)
    requires AtMostOnePrimary(rows)
    ensures AtMostOnePrimaryExcept(rows, id)
  {
  }

  /** Overwriting one record keeps the invariant for every other pair. */
  lemma WriteKeepsOtherPairs(rows: map<nat, Address>, id: nat, a: Address)
    requires AtMostOnePrimaryExcept(rows, id)
    ensures AtMostOnePrimaryExcept(rows[id := a], id)
  {
  }

  /** A write that makes no record primary and moves no record to another
      owner keeps the invariant. */
  lemma FewerPrimariesKeepInvariant(rows: map<nat, Address>, rows': map<nat, Address>)
    requires AtMostOnePrimary(rows)
    requires rows'.Keys == rows.Keys
    requires forall k :: k in rows ==> (rows'[k].isPrimary ==> rows[k].isPrimary) && rows'[k].owner == rows[k].owner
    ensures AtMostOnePrimary(rows')
  {
  }

  /** In a consistent table the geocoded and the failed scopes select only
      enabled records: a disabled record has neither stamp. */
  lemma OutcomeScopesAreEnabled(w: World)
    requires Consistent(w)
    ensures ScopeGeocoded(w.rows).Keys <= ScopeGeocodingEnabled(w.rows).Keys
    ensures ScopeFailed(w.rows).Keys <= ScopeGeocodingEnabled(w.rows).Keys
  {
  }

  /** The state the write path and the job act on. */
  class Store {
    var rows: map<nat, Address>
    var nextId: nat
    var jobs: seq<nat>
    var events: seq<Address>

    /** An empty table whose first key is 1. */
    constructor ()
      ensures State() == World(map[], 1, [], [])
      ensures Valid()
    {
      rows, nextId, jobs, events := map[], 1, [], [];
    }

    function State(): World
      reads this
    {
      World(rows, nextId, jobs, events)
    }

    ghost predicate Valid()
      reads this
    {
      Consistent(State())
    }
  }
}
