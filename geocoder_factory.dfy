/** The provider registry of src/Services/GeocoderFactory.php: an ordered
    map from provider name to geocoder class name. Resolving the class into
    an instance belongs to the service container, so `Make` returns the
    class name it would resolve. */
module GeocoderFactory {
  import opened Wrappers

  const GoogleGeocoder: string := "Multek\\LaravelGeoaddress\\Services\\GoogleMapsGeocoder"
  const NominatimGeocoder: string := "Multek\\LaravelGeoaddress\\Services\\NominatimGeocoder"
  const MapboxGeocoder: string := "Multek\\LaravelGeoaddress\\Services\\MapboxGeocoder"

  /** The provider used when none is asked for and none is configured. */
  const DefaultProvider: string := "google"

  datatype FactoryError = InvalidArgument(message: string)

  const UnsupportedPrefix: string := "Unsupported geocoding provider: "

  /** The message of the error for an unregistered name: a fixed prefix,
      then the name. */
  function UnsupportedMessage(name: string): (m: string)
    ensures |m| == |UnsupportedPrefix| + |name|
    ensures m[..|UnsupportedPrefix|] == UnsupportedPrefix && m[|UnsupportedPrefix|..] == name
  {
    UnsupportedPrefix + name
  }

  /** The name `make` looks up: the argument, else the configured
      provider, else the default. */
  function ProviderName(provider: Option<string>, configured: Option<string>): (name: string)
    ensures provider.Some? ==> name == provider.value
    ensures provider.None? && configured.Some? ==> name == configured.value
    ensures provider.None? && configured.None? ==> name == DefaultProvider
  {
    provider.GetOr(configured.GetOr(DefaultProvider))
  }

  /** No name occurs twice. */
  predicate Distinct(names: seq<string>) {
    forall i, j :: 0 <= i < j < |names| ==> names[i] != names[j]
  }

  class Factory {
    /** The registered names in insertion order, as array_keys lists them. */
    var names: seq<string>
    /** Name to class name. */
    var classes: map<string, string>

    ghost predicate Valid()
      reads this
    {
      Distinct(names) && (forall n :: n in classes <==> n in names)
    }

    /** The three built-in providers. */
    constructor ()
      ensures Valid()
      ensures names == ["google", "nominatim", "mapbox"]
      ensures classes == map["google" := GoogleGeocoder, "nominatim" := NominatimGeocoder, "mapbox" := MapboxGeocoder]
    {
      names := ["google", "nominatim", "mapbox"];
      classes := map["google" := GoogleGeocoder, "nominatim" := NominatimGeocoder, "mapbox" := MapboxGeocoder];
    }

    /** make(provider): the class registered under the resolved name, or an
        invalid-argument error naming it. */
    method Make(provider: Option<string>, configured: Option<string>) returns (r: Result<string, FactoryError>)
      ensures var name := ProviderName(provider, configured);
              && (r.Ok? <==> name in classes)
              && (r.Ok? ==> r.value == classes[name])
              && (r.Err? ==> r.error == InvalidArgument(UnsupportedMessage(name)))
    {
      var name := ProviderName(provider, configured);
      if name !in classes {
        return Err(InvalidArgument(UnsupportedPrefix + name));
      }
      r := Ok(classes[name]);
    }

    /** extend(name, class): register or overwrite; an overwritten name keeps
        its place in the order, a new one goes last. */
    method Extend(name: string, cls: string)
      requires Valid()
      modifies this
      ensures Valid()
      ensures classes == old(classes)[name := cls]
      ensures names == if name in old(names) then old(names) else old(names) + [name]
    {
      if name !in classes {
        names := names + [name];
      }
      classes := classes[name := cls];
    }

    /** getProviders(): the registered names. */
    method GetProviders() returns (r: seq<string>)
      requires Valid()
      ensures r == names
      ensures Distinct(r) && forall n :: n in r <==> n in classes
    {
      r := names;
    }
  }

  // ---------------------------------------------------------------------
  // Uses of a fresh factory

  /** A fresh factory lists exactly the built-in providers. */
  method InitialProviders() returns (listed: seq<string>)
    ensures listed == ["google", "nominatim", "mapbox"]
  {
    var factory := new Factory();
    listed := factory.GetProviders();
  }

  /** A built-in provider asked for by name is made. */
  method MakeMapbox() returns (r: Result<string, FactoryError>)
    ensures r == Ok(MapboxGeocoder)
  {
    var factory := new Factory();
    r := factory.Make(Some("mapbox"), None);
  }

  /** The configured provider is the one made. */
  method MakeConfigured() returns (r: Result<string, FactoryError>)
    ensures r == Ok(NominatimGeocoder)
  {
    var factory := new Factory();
    r := factory.Make(None, Some("nominatim"));
  }

  /** Without an argument, the configured default "google" makes the
      Google class. */
  method MakeDefault() returns (r: Result<string, FactoryError>)
    ensures r == Ok(GoogleGeocoder)
  {
    var factory := new Factory();
    r := factory.Make(None, Some(DefaultProvider));
  }

  /** A name outside the registry is refused. */
  method MakeUnknown() returns (r: Result<string, FactoryError>)
    ensures r == Err(InvalidArgument("Unsupported geocoding provider: unknown"))
  {
    var factory := new Factory();
    r := factory.Make(Some("unknown"), None);
    assert UnsupportedMessage("unknown") == "Unsupported geocoding provider: unknown";
  }

  /** After extend, the new name is listed last and resolves to its class;
      the built-in names are still listed first. */
  method ExtendThenList(name: string, cls: string) returns (listed: seq<string>, made: Result<string, FactoryError>)
    ensures name in listed && made == Ok(cls)
    ensures |listed| >= 3 && listed[..3] == ["google", "nominatim", "mapbox"]
    ensures name !in ["google", "nominatim", "mapbox"] ==> listed == ["google", "nominatim", "mapbox", name]
  {
    var factory := new Factory();
    factory.Extend(name, cls);
    listed := factory.GetProviders();
    made := factory.Make(Some(name), None);
  }

  /** Extending with a built-in name replaces its class in place: the list
      of names is unchanged and the default now makes the new class. */
  method OverrideDefault(cls: string) returns (listed: seq<string>, made: Result<string, FactoryError>)
    ensures listed == ["google", "nominatim", "mapbox"] && made == Ok(cls)
  {
    var factory := new Factory();
    factory.Extend("google", cls);
    listed := factory.GetProviders();
    made := factory.Make(None, None);
  }
}
