/** The address record of src/Models/Address.php: its columns and defaults,
    the saving hook that consumes explicit latitude/longitude, the check for
    changed identity fields, geocoding eligibility, the formatted address and
    the query scopes. */
module AddressModel {
  import opened Wrappers

  /** A geographic point; the model treats it as an opaque pair. */
  datatype Point = Point(latitude: real, longitude: real)

  /** The polymorphic owner reference: the owner's type tag and key. */
  datatype Owner = Owner(kind: string, key: int)

  /** Seconds on an integer clock. */
  type Timestamp = int

  /** One row of the addresses table. `owner` is None when the owner reference
      does not resolve to an existing entity. */
  datatype Address = Address(
    id: nat,
    owner: Option<Owner>,
    kind: Option<string>,
    nickname: Option<string>,
    isPrimary: bool,
    geocodingEnabled: bool,
    street: Option<string>,
    number: Option<string>,
    complement: Option<string>,
    neighbourhood: Option<string>,
    city: Option<string>,
    state: Option<string>,
    postalCode: Option<string>,
    countryCode: Option<string>,
    referencePoint: Option<string>,
    customerName: Option<string>,
    customerPhone: Option<string>,
    customerCountryCodePhone: Option<string>,
    customerDocument: Option<string>,
    notes: Option<string>,
    metadata: Option<map<string, string>>,
    coordinates: Option<Point>,
    geocodedAt: Option<Timestamp>,
    geocodingFailedAt: Option<Timestamp>,
    geocodingError: Option<string>)

  /** The mass-assignable data a caller passes when creating an address;
      None means the key was not given (or was given as null). */
  datatype AddressData = AddressData(
    kind: Option<string>,
    nickname: Option<string>,
    isPrimary: Option<bool>,
    geocodingEnabled: Option<bool>,
    street: Option<string>,
    number: Option<string>,
    complement: Option<string>,
    neighbourhood: Option<string>,
    city: Option<string>,
    state: Option<string>,
    postalCode: Option<string>,
    countryCode: Option<string>,
    referencePoint: Option<string>,
    customerName: Option<string>,
    customerPhone: Option<string>,
    customerCountryCodePhone: Option<string>,
    customerDocument: Option<string>,
    notes: Option<string>,
    metadata: Option<map<string, string>>,
    latitude: Option<real>,
    longitude: Option<real>,
    coordinates: Option<Point>,
    geocodedAt: Option<Timestamp>,
    geocodingFailedAt: Option<Timestamp>,
    geocodingError: Option<string>)

  /** The model's attribute array at save time: the columns, plus the two
      non-column keys `latitude` and `longitude` a caller may have assigned. */
  datatype Attributes = Attributes(row: Address, latitude: Option<real>, longitude: Option<real>)

  const DefaultCountryCode: string := "BR"

  /** A fresh model: every column null except the three default attributes. */
  function Defaults(id: nat, owner: Option<Owner>): Address {
    Address(id, owner, None, None, false, true,
            None, None, None, None, None, None, None, Some(DefaultCountryCode),
            None, None, None, None, None, None, None,
            None, None, None, None)
  }

  /** `new Address($data)` for an owner: the defaults, overridden by what
      the data gives. */
  function NewAttributes(id: nat, owner: Option<Owner>, data: AddressData): (a: Attributes)
    ensures a.row.id == id && a.row.owner == owner
    ensures a.row.geocodingEnabled == data.geocodingEnabled.GetOr(true)
    ensures a.row.isPrimary == data.isPrimary.GetOr(false)
    ensures a.row.countryCode == Some(data.countryCode.GetOr(DefaultCountryCode))
    ensures a.row.kind == data.kind && a.row.nickname == data.nickname
    ensures a.row.street == data.street && a.row.number == data.number
    ensures a.row.complement == data.complement && a.row.neighbourhood == data.neighbourhood
    ensures a.row.city == data.city && a.row.state == data.state && a.row.postalCode == data.postalCode
    ensures a.row.referencePoint == data.referencePoint
    ensures a.row.customerName == data.customerName && a.row.customerPhone == data.customerPhone
    ensures a.row.customerCountryCodePhone == data.customerCountryCodePhone
    ensures a.row.customerDocument == data.customerDocument
    ensures a.row.notes == data.notes && a.row.metadata == data.metadata
    ensures a.row.coordinates == data.coordinates && a.row.geocodedAt == data.geocodedAt
    ensures a.row.geocodingFailedAt == data.geocodingFailedAt && a.row.geocodingError == data.geocodingError
    ensures a.latitude == data.latitude && a.longitude == data.longitude
  {
    var d := Defaults(id, owner);
    var row := d.(
      kind := data.kind,
      nickname := data.nickname,
      isPrimary := data.isPrimary.GetOr(d.isPrimary),
      geocodingEnabled := data.geocodingEnabled.GetOr(d.geocodingEnabled),
      street := data.street,
      number := data.number,
      complement := data.complement,
      neighbourhood := data.neighbourhood,
      city := data.city,
      state := data.state,
      postalCode := data.postalCode,
      countryCode := if data.countryCode.Some? then data.countryCode else d.countryCode,
      referencePoint := data.referencePoint,
      customerName := data.customerName,
      customerPhone := data.customerPhone,
      customerCountryCodePhone := data.customerCountryCodePhone,
      customerDocument := data.customerDocument,
      notes := data.notes,
      metadata := data.metadata,
      coordinates := data.coordinates,
      geocodedAt := data.geocodedAt,
      geocodingFailedAt := data.geocodingFailedAt,
      geocodingError := data.geocodingError);
    Attributes(row, data.latitude, data.longitude)
  }

  // ---------------------------------------------------------------------
  // The four geocoding-outcome fields

  /** Coordinates, both timestamps and the error message are all null. */
  predicate NoOutcome(a: Address) {
    a.coordinates.None? && a.geocodedAt.None? && a.geocodingFailedAt.None? && a.geocodingError.None?
  }

  /** The two records agree on every column except the four outcome fields. */
  predicate SameExceptOutcome(a: Address, b: Address) {
    a.(coordinates := None, geocodedAt := None, geocodingFailedAt := None, geocodingError := None)
      == b.(coordinates := None, geocodedAt := None, geocodingFailedAt := None, geocodingError := None)
  }

  /** The invariant of a geocoding-disabled record. */
  predicate DisabledHasNoOutcome(a: Address) {
    !a.geocodingEnabled ==> NoOutcome(a)
  }

  /** Sets the four outcome fields to null. */
  function ClearOutcome(a: Address): (r: Address)
    ensures NoOutcome(r) && SameExceptOutcome(a, r)
  {
    a.(coordinates := None, geocodedAt := None, geocodingFailedAt := None, geocodingError := None)
  }

  // ---------------------------------------------------------------------
  // The saving hook

  datatype SavingResult = SavingResult(attributes: Attributes, coordinatesProvided: bool)

  /** The saving hook, with the null-forcing applied after the explicit pair
      is consumed on a disabled record too (see SavingHookAsWritten). */
  function SavingHook(a: Attributes): (r: SavingResult)
    ensures r.coordinatesProvided <==> a.latitude.Some? && a.longitude.Some?
    ensures r.coordinatesProvided ==> r.attributes.latitude.None? && r.attributes.longitude.None?
    ensures !r.coordinatesProvided ==> r.attributes.latitude == a.latitude && r.attributes.longitude == a.longitude
    ensures r.attributes.row.geocodingEnabled == a.row.geocodingEnabled
    ensures DisabledHasNoOutcome(r.attributes.row)
    ensures !a.row.geocodingEnabled ==> SameExceptOutcome(a.row, r.attributes.row)
    ensures a.row.geocodingEnabled && r.coordinatesProvided ==>
      r.attributes.row == a.row.(coordinates := Some(Point(a.latitude.value, a.longitude.value)))
    ensures a.row.geocodingEnabled && !r.coordinatesProvided ==> r.attributes.row == a.row
  {
    if a.latitude.Some? && a.longitude.Some? then
      var row := if a.row.geocodingEnabled
                 then a.row.(coordinates := Some(Point(a.latitude.value, a.longitude.value)))
                 else ClearOutcome(a.row);
      SavingResult(Attributes(row, None, None), true)
    else
      var row := if a.row.geocodingEnabled then a.row else ClearOutcome(a.row);
      SavingResult(Attributes(row, a.latitude, a.longitude), false)
  }

  /** The corrected saving hook step by step, without the early return for
      a disabled record (see SavingHookAsWritten): mark the flag, take the pair out of the
      attribute array, store the point, force the outcome fields to null
      when geocoding is disabled. */
  method Saving(a: Attributes) returns (r: SavingResult)
    ensures r == SavingHook(a)
  {
    var row := a.row;
    var latitude, longitude := a.latitude, a.longitude;
    var provided := false;
    if latitude.Some? && longitude.Some? {
      provided := true;
      var lat, lng := latitude.value, longitude.value;
      latitude, longitude := None, None;
      if row.geocodingEnabled {
        row := row.(coordinates := Some(Point(lat, lng)));
      }
    }
    if !row.geocodingEnabled {
      row := row.(coordinates := None, geocodedAt := None, geocodingFailedAt := None, geocodingError := None);
    }
    r := SavingResult(Attributes(row, latitude, longitude), provided);
  }

  /** The saving hook as the source writes it: on a disabled record with an
      explicit pair it returns before the null-forcing, so outcome fields the
      caller assigned in the same write are kept. */
  function SavingHookAsWritten(a: Attributes): (r: SavingResult)
    ensures r.coordinatesProvided <==> a.latitude.Some? && a.longitude.Some?
    ensures !a.row.geocodingEnabled && r.coordinatesProvided ==> r.attributes.row == a.row
    ensures !(!a.row.geocodingEnabled && r.coordinatesProvided) ==> r == SavingHook(a)
  {
    if a.latitude.Some? && a.longitude.Some? && !a.row.geocodingEnabled then
      SavingResult(Attributes(a.row, None, None), true)
    else
      SavingHook(a)
  }

  /** A billing address created with coordinates and a caller-assigned error
      message keeps the message as written, and loses it once corrected. */
  lemma AsWrittenKeepsSuppliedOutcome()
    ensures var a := Attributes(Defaults(1, None).(geocodingEnabled := false, geocodingError := Some("stale")),
                                Some(-23.561414), Some(-46.656689));
            && !SavingHookAsWritten(a).attributes.row.geocodingEnabled
            && !NoOutcome(SavingHookAsWritten(a).attributes.row)
            && NoOutcome(SavingHook(a).attributes.row)
  {
  }

  // ---------------------------------------------------------------------
  // Identity fields

  /** The address fields that locate the address (ADDRESS_FIELDS). */
  datatype IdentityField = Street | Number | Complement | Neighbourhood | City | State | PostalCode | CountryCode

  const AddressFields: seq<IdentityField> :=
    [Street, Number, Complement, Neighbourhood, City, State, PostalCode, CountryCode]

  function FieldValue(a: Address, f: IdentityField): Option<string> {
    match f
    case Street => a.street
    case Number => a.number
    case Complement => a.complement
    case Neighbourhood => a.neighbourhood
    case City => a.city
    case State => a.state
    case PostalCode => a.postalCode
    case CountryCode => a.countryCode
  }

  /** The two records agree on every identity field. */
  predicate SameIdentity(a: Address, b: Address) {
    && a.street == b.street
    && a.number == b.number
    && a.complement == b.complement
    && a.neighbourhood == b.neighbourhood
    && a.city == b.city
    && a.state == b.state
    && a.postalCode == b.postalCode
    && a.countryCode == b.countryCode
  }

  /** addressFieldsChanged: walks ADDRESS_FIELDS and stops at the first
      field whose current value differs from the original one. */
  method AddressFieldsChanged(original: Address, current: Address) returns (changed: bool)
    ensures changed <==> !SameIdentity(original, current)
  {
    var i := 0;
    while i < |AddressFields|
      invariant 0 <= i <= |AddressFields|
      invariant forall j :: 0 <= j < i ==> FieldValue(original, AddressFields[j]) == FieldValue(current, AddressFields[j])
    {
      if FieldValue(original, AddressFields[i]) != FieldValue(current, AddressFields[i]) {
        return true;
      }
      i := i + 1;
    }
    assert FieldValue(original, AddressFields[0]) == FieldValue(current, AddressFields[0]);
    assert FieldValue(original, AddressFields[1]) == FieldValue(current, AddressFields[1]);
    assert FieldValue(original, AddressFields[2]) == FieldValue(current, AddressFields[2]);
    assert FieldValue(original, AddressFields[3]) == FieldValue(current, AddressFields[3]);
    assert FieldValue(original, AddressFields[4]) == FieldValue(current, AddressFields[4]);
    assert FieldValue(original, AddressFields[5]) == FieldValue(current, AddressFields[5]);
    assert FieldValue(original, AddressFields[6]) == FieldValue(current, AddressFields[6]);
    assert FieldValue(original, AddressFields[7]) == FieldValue(current, AddressFields[7]);
    return false;
  }

  // ---------------------------------------------------------------------
  // Eligibility and scopes

  /** needsGeocoding: a disabled record never needs it; an enabled one
      needs it while it has neither coordinates nor a recorded failure. */
  predicate NeedsGeocoding(a: Address)
    ensures NeedsGeocoding(a) <==> a.geocodingEnabled && a.coordinates.None? && a.geocodingFailedAt.None?
  {
    if !a.geocodingEnabled then false else a.coordinates.None? && a.geocodingFailedAt.None?
  }

  /** A sub-map of rows: the rows it keeps are unchanged. */
  predicate SubTable(r: map<nat, Address>, rows: map<nat, Address>) {
    forall k :: k in r ==> k in rows && r[k] == rows[k]
  }

  /** scopeNeedsGeocoding: exactly the records that need geocoding. */
  function ScopeNeedsGeocoding(rows: map<nat, Address>): (r: map<nat, Address>)
    ensures SubTable(r, rows)
    ensures forall k :: k in rows ==> (k in r <==> NeedsGeocoding(rows[k]))
  {
    map k | k in rows && rows[k].geocodingEnabled && rows[k].coordinates.None? && rows[k].geocodingFailedAt.None? :: rows[k]
  }

  /** scopePrimary: exactly the primary records. */
  function ScopePrimary(rows: map<nat, Address>): (r: map<nat, Address>)
    ensures SubTable(r, rows)
    ensures forall k :: k in rows ==> (k in r <==> rows[k].isPrimary)
  {
    map k | k in rows && rows[k].isPrimary :: rows[k]
  }

  /** scopeGeocodingEnabled: exactly the records with geocoding enabled. */
  function ScopeGeocodingEnabled(rows: map<nat, Address>): (r: map<nat, Address>)
    ensures SubTable(r, rows)
    ensures forall k :: k in rows ==> (k in r <==> rows[k].geocodingEnabled)
  {
    map k | k in rows && rows[k].geocodingEnabled :: rows[k]
  }

  /** scopeGeocoded: exactly the records with a geocoded_at stamp. */
  function ScopeGeocoded(rows: map<nat, Address>): (r: map<nat, Address>)
    ensures SubTable(r, rows)
    ensures forall k :: k in rows ==> (k in r <==> rows[k].geocodedAt.Some?)
  {
    map k | k in rows && rows[k].geocodedAt.Some? :: rows[k]
  }

  /** scopeFailed: exactly the records with a recorded failure. */
  function ScopeFailed(rows: map<nat, Address>): (r: map<nat, Address>)
    ensures SubTable(r, rows)
    ensures forall k :: k in rows ==> (k in r <==> rows[k].geocodingFailedAt.Some?)
  {
    map k | k in rows && rows[k].geocodingFailedAt.Some? :: rows[k]
  }

  /** A record that needs geocoding is selected by the enabled scope too. */
  lemma NeedsGeocodingIsGeocodable(rows: map<nat, Address>)
    ensures ScopeNeedsGeocoding(rows).Keys <= ScopeGeocodingEnabled(rows).Keys
  {
  }

  // ---------------------------------------------------------------------
  // The formatted address

  /** PHP truthiness of a nullable string: null, "" and "0" are false. */
  predicate Truthy(s: Option<string>) {
    s.Some? && s.value != "" && s.value != "0"
  }

  /** The one-element list holding a present part, or the empty list. */
  function Part(o: Option<string>): seq<string> {
    if o.Some? then [o.value] else []
  }

  /** A field, as a part of its own when it is truthy. */
  function Plain(s: Option<string>): Option<string> {
    if Truthy(s) then s else None
  }

  /** The street, followed by ", number" only when both are truthy. */
  function StreetPart(a: Address): Option<string> {
    if !Truthy(a.street) then None
    else if Truthy(a.number) then Some(a.street.value + ", " + a.number.value)
    else a.street
  }

  /** The city, followed by " - state" only when both are truthy. */
  function CityPart(a: Address): Option<string> {
    if !Truthy(a.city) then None
    else if Truthy(a.state) then Some(a.city.value + " - " + a.state.value)
    else a.city
  }

  /** "CEP " followed by the postal code, when the code is truthy. */
  function PostalPart(a: Address): Option<string> {
    if Truthy(a.postalCode) then Some("CEP " + a.postalCode.value) else None
  }

  /** The parts of the formatted address, in order, each present only when
      its fields are. */
  function FormattedParts(a: Address): seq<string> {
    Part(StreetPart(a)) + Part(Plain(a.complement)) + Part(Plain(a.neighbourhood))
      + Part(CityPart(a)) + Part(PostalPart(a)) + Part(Plain(a.countryCode))
  }

  /** implode: the parts separated by sep. */
  function Join(parts: seq<string>, sep: string): string
    decreases |parts|
  {
    if |parts| == 0 then "" else if |parts| == 1 then parts[0] else parts[0] + sep + Join(parts[1..], sep)
  }

  /** array_filter: drops the falsy strings. */
  function FilterTruthy(parts: seq<string>): (r: seq<string>)
    ensures |r| <= |parts|
    ensures forall i :: 0 <= i < |r| ==> Truthy(Some(r[i]))
    ensures forall x :: x in r <==> x in parts && Truthy(Some(x))
    decreases |parts|
  {
    if parts == [] then []
    else if Truthy(Some(parts[0])) then [parts[0]] + FilterTruthy(parts[1..])
    else FilterTruthy(parts[1..])
  }

  /** The formatted address of a record. */
  function FormattedAddressOf(a: Address): string {
    Join(FormattedParts(a), ", ")
  }

  lemma {:induction false} FilterTruthyKeepsTruthy(parts: seq<string>)
    requires forall i :: 0 <= i < |parts| ==> Truthy(Some(parts[i]))
    ensures FilterTruthy(parts) == parts
    decreases |parts|
  {
    if parts != [] {
      FilterTruthyKeepsTruthy(parts[1..]);
    }
  }

  /** array_filter keeps the relative order: filtering a concatenation is
      concatenating the filtered halves. */
  lemma {:induction false} FilterTruthyAppend(xs: seq<string>, ys: seq<string>)
    ensures FilterTruthy(xs + ys) == FilterTruthy(xs) + FilterTruthy(ys)
    decreases |xs|
  {
    if xs != [] {
      assert (xs + ys)[1..] == xs[1..] + ys;
      FilterTruthyAppend(xs[1..], ys);
    } else {
      assert xs + ys == ys;
    }
  }

  /** A truthy string stays truthy when a suffix is appended. */
  lemma AppendKeepsTruthy(s: string, t: string)
    requires Truthy(Some(s))
    ensures Truthy(Some(s + t))
  {
  }

  /** Every part is truthy, so the final array_filter drops nothing. */
  lemma FormattedPartsAreTruthy(a: Address)
    ensures forall i :: 0 <= i < |FormattedParts(a)| ==> Truthy(Some(FormattedParts(a)[i]))
    ensures FilterTruthy(FormattedParts(a)) == FormattedParts(a)
  {
    if Truthy(a.street) && Truthy(a.number) {
      AppendKeepsTruthy(a.street.value, ", " + a.number.value);
      assert a.street.value + ", " + a.number.value == a.street.value + (", " + a.number.value);
    }
    if Truthy(a.city) && Truthy(a.state) {
      AppendKeepsTruthy(a.city.value, " - " + a.state.value);
      assert a.city.value + " - " + a.state.value == a.city.value + (" - " + a.state.value);
    }
    if Truthy(a.postalCode) {
      assert ("CEP " + a.postalCode.value)[0] == 'C';
    }
    forall i | 0 <= i < |FormattedParts(a)| ensures Truthy(Some(FormattedParts(a)[i])) {
      var p1 := Part(StreetPart(a));
      var p2 := p1 + Part(Plain(a.complement));
      var p3 := p2 + Part(Plain(a.neighbourhood));
      var p4 := p3 + Part(CityPart(a));
      var p5 := p4 + Part(PostalPart(a));
      assert FormattedParts(a) == p5 + Part(Plain(a.countryCode));
    }
    FilterTruthyKeepsTruthy(FormattedParts(a));
  }

  /** getFormattedAddressAttribute: appends each present part to a list
      and joins the truthy ones with ", ". */
  method FormattedAddress(a: Address) returns (s: string)
    ensures s == FormattedAddressOf(a)
  {
    var parts: seq<string> := [];
    if Truthy(a.street) {
      var streetPart := a.street.value;
      if Truthy(a.number) {
        streetPart := streetPart + ", " + a.number.value;
      }
      parts := parts + [streetPart];
    }
    assert parts == Part(StreetPart(a));
    if Truthy(a.complement) {
      parts := parts + [a.complement.value];
    }
    ghost var done := Part(StreetPart(a)) + Part(Plain(a.complement));
    assert parts == done;
    if Truthy(a.neighbourhood) {
      parts := parts + [a.neighbourhood.value];
    }
    done := done + Part(Plain(a.neighbourhood));
    assert parts == done;
    if Truthy(a.city) {
      var cityPart := a.city.value;
      if Truthy(a.state) {
        cityPart := cityPart + " - " + a.state.value;
      }
      parts := parts + [cityPart];
    }
    done := done + Part(CityPart(a));
    assert parts == done;
    if Truthy(a.postalCode) {
      parts := parts + ["CEP " + a.postalCode.value];
    }
    done := done + Part(PostalPart(a));
    assert parts == done;
    if Truthy(a.countryCode) {
      parts := parts + [a.countryCode.value];
    }
    done := done + Part(Plain(a.countryCode));
    assert parts == done == FormattedParts(a);
    FormattedPartsAreTruthy(a);
    s := Join(FilterTruthy(parts), ", ");
  }

  /** A number without a street never shows: changing it changes nothing. */
  lemma NumberNeedsStreet(a: Address, n: Option<string>)
    requires !Truthy(a.street)
    ensures FormattedAddressOf(a.(number := n)) == FormattedAddressOf(a)
  {
  }

  /** A state without a city never shows: changing it changes nothing. */
  lemma StateNeedsCity(a: Address, s: Option<string>)
    requires !Truthy(a.city)
    ensures FormattedAddressOf(a.(state := s)) == FormattedAddressOf(a)
  {
  }

  /** Only the eight identity fields enter the formatted address. */
  lemma FormattedAddressDependsOnIdentity(a: Address, b: Address)
    requires SameIdentity(a, b)
    ensures FormattedAddressOf(a) == FormattedAddressOf(b)
  {
    assert StreetPart(a) == StreetPart(b) && CityPart(a) == CityPart(b) && PostalPart(a) == PostalPart(b);
    assert FormattedParts(a) == FormattedParts(b);
  }

  /** A record whose parts are all falsy formats as the empty string. */
  lemma FormattedAddressEmpty(a: Address)
    requires !Truthy(a.street) && !Truthy(a.complement) && !Truthy(a.neighbourhood)
    requires !Truthy(a.city) && !Truthy(a.postalCode) && !Truthy(a.countryCode)
    ensures FormattedAddressOf(a) == ""
  {
  }

  /** The fully populated record of the feature test. */
  function PaulistaSample(): Address {
    Defaults(1, None).(
      street := Some("Avenida Paulista"), number := Some("1578"), complement := Some("Apto 101"),
      neighbourhood := Some("Bela Vista"), city := Some("Sao Paulo"), state := Some("SP"),
      postalCode := Some("01310-200"), countryCode := Some("BR"))
  }

  /** The feature test's record: its parts, in the fixed order, which the
      formatted address joins with ", ". */
  lemma FormattedAddressExample()
    ensures FormattedParts(PaulistaSample())
            == ["Avenida Paulista, 1578", "Apto 101", "Bela Vista", "Sao Paulo - SP", "CEP 01310-200", "BR"]
  {
    var a := PaulistaSample();
    assert a.street.value + ", " + a.number.value == "Avenida Paulista" + ", " + "1578" == "Avenida Paulista, 1578";
    assert a.city.value + " - " + a.state.value == "Sao Paulo" + " - " + "SP" == "Sao Paulo - SP";
    assert "CEP " + a.postalCode.value == "CEP " + "01310-200" == "CEP 01310-200";
  }
}
