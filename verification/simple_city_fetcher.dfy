/** The city fetcher: geocode a city name with Nominatim and insert a city
    document keyed by a slug derived from the name alone. The geocoder is a
    parameter from the request parameters to the decoded JSON list, `None`
    when the request raised. */
module Cities {
  import opened Docs
  import MongoUtils

  /** `str.lower()` on ASCII letters. */
  function LowerChar(c: char): char {
    if 'A' <= c <= 'Z' then (c as int + 32) as char else c
  }

  /** `city_name.lower().replace(' ', '-')`. The country plays no part. */
  function Slugify(name: string): (r: string)
    ensures |r| == |name|
    ensures forall i :: 0 <= i < |r| ==> r[i] == if name[i] == ' ' then '-' else LowerChar(name[i])
  {
    seq(|name|, i requires 0 <= i < |name| => if name[i] == ' ' then '-' else LowerChar(name[i]))
  }

  /** A slug has no spaces and no upper-case ASCII letters. */
  predicate IsSlug(s: string) {
    forall i :: 0 <= i < |s| ==> s[i] != ' ' && !('A' <= s[i] <= 'Z')
  }

  lemma SlugifyMakesSlugs(name: string)
    ensures IsSlug(Slugify(name))
  {
  }

  /** A slug is its own slug, so slugifying twice is slugifying once. */
  lemma SlugifyIsIdempotent(name: string)
    ensures Slugify(Slugify(name)) == Slugify(name)
  {
    var once := Slugify(name);
    assert forall i :: 0 <= i < |once| ==> Slugify(once)[i] == once[i];
  }

  /** Names that differ only in letter case or in spaces against hyphens
      collide on one slug. */
  lemma SlugIgnoresCaseAndSpaces()
    ensures Slugify("New York") == Slugify("new-york")
  {
    assert Slugify("New York") == "new-york";
    assert Slugify("new-york") == "new-york";
  }

  /** The Nominatim query: one result, with address details. */
  function GeocodeParams(cityName: string, country: string): Doc {
    map["city" := Str(cityName), "country" := Str(country), "format" := Str("json"),
        "limit" := Int(1), "addressdetails" := Int(1)]
  }

  /** Why a city was not added. */
  datatype Reason =
    | RequestFailed          // the geocoding request raised
    | NoResults              // the geocoder found nothing
    | AlreadyExists          // a city with the slug is stored
    | Raised(error: Error)   // any other exception, caught and reported

  /** The (success, message, slug) triple, with the city collection after
      the call; `slug` is returned on success and for an existing city. */
  datatype Fetched =
    | Added(cities: Collection, slug: string)
    | NotAdded(reason: Reason, knownSlug: Option<string>)

  /** `float(x)`: None, a list or a dict cannot be converted. The numeric
      value itself is not modelled: the stored coordinate is the value the
      geocoder returned. */
  function Coordinate(v: Value, key: string): Result<Value> {
    if v.Null? || v.List? || v.Obj? then Err(WrongType(key)) else Ok(v)
  }

  /** The document inserted for a new city; it has no `state_code`. */
  function CityDoc(cityName: string, slug: string, state: Value, country: string,
                   lon: Value, lat: Value, id: Value, now: Value): (r: Doc)
    ensures r.Keys == {"_id", "name", "slug", "state", "country", "location", "created_at", "updated_at"}
    ensures r["slug"] == Str(slug) && r["name"] == Str(cityName) && r["_id"] == id
    ensures r["country"] == Str(country)
    ensures r["location"] == Obj(map["type" := Str("Point"), "coordinates" := List([lon, lat])])
  {
    map["_id" := id, "name" := Str(cityName), "slug" := Str(slug), "state" := state, "country" := Str(country),
        "location" := Obj(map["type" := Str("Point"), "coordinates" := List([lon, lat])]),
        "created_at" := now, "updated_at" := now]
  }

  /** fetch_and_add_city. The geocoder is asked first, the slug is checked
      after; `id` is the ObjectId the insert assigns. */
  function FetchAndAddCity(cities: Collection, geocode: Doc -> Option<Value>, cityName: string, country: string,
                           id: Value, now: Value): (r: Fetched)
    ensures geocode(GeocodeParams(cityName, country)).None? ==> r == NotAdded(RequestFailed, None)
    ensures geocode(GeocodeParams(cityName, country)).Some? && !Truthy(geocode(GeocodeParams(cityName, country)).value) ==>
      r == NotAdded(NoResults, None)
    ensures r.NotAdded? ==> r.reason != AlreadyExists ==> r.knownSlug.None?
    ensures r.Added? <==>
      && geocode(GeocodeParams(cityName, country)).Some?
      && var results := geocode(GeocodeParams(cityName, country)).value;
      && Truthy(results)
      && ResultShapeOk(results)
      && MongoUtils.ValidateCity(cities, Slugify(cityName)).None?
      && Coordinate(Get(results.items[0].fields, "lon", Null), "lon").Ok?
      && Coordinate(Get(results.items[0].fields, "lat", Null), "lat").Ok?
    ensures r.Added? ==> r.slug == Slugify(cityName)
    ensures r.Added? ==> MongoUtils.ValidateCity(cities, Slugify(cityName)).None?
    ensures r.Added? ==> |r.cities| == |cities| + 1 && r.cities[..|cities|] == cities
    ensures r.Added? ==> "state_code" !in r.cities[|cities|]
    ensures r.Added? ==> "slug" in r.cities[|cities|] && r.cities[|cities|]["slug"] == Str(r.slug)
    ensures r.Added? ==> "_id" in r.cities[|cities|] && r.cities[|cities|]["_id"] == id
    ensures r.Added? ==> "name" in r.cities[|cities|] && r.cities[|cities|]["name"] == Str(cityName)
    ensures r.Added? ==> "country" in r.cities[|cities|] && r.cities[|cities|]["country"] == Str(country)
    ensures r.Added? ==>
      && ResultShapeOk(geocode(GeocodeParams(cityName, country)).value)
      && var first := geocode(GeocodeParams(cityName, country)).value.items[0].fields;
      && "lon" in first && "lat" in first && "location" in r.cities[|cities|]
      && r.cities[|cities|]["location"] == Obj(map["type" := Str("Point"), "coordinates" := List([first["lon"], first["lat"]])])
    ensures r == NotAdded(AlreadyExists, Some(Slugify(cityName))) <==>
      && geocode(GeocodeParams(cityName, country)).Some?
      && Truthy(geocode(GeocodeParams(cityName, country)).value)
      && ResultShapeOk(geocode(GeocodeParams(cityName, country)).value)
      && MongoUtils.ValidateCity(cities, Slugify(cityName)).Some?
  {
    match geocode(GeocodeParams(cityName, country))
    case None => NotAdded(RequestFailed, None)
    case Some(results) =>
      if !Truthy(results) then NotAdded(NoResults, None)
      else if !ResultShapeOk(results) then NotAdded(Raised(WrongType("results")), None)
      else
        var address := Get(results.items[0].fields, "address", Obj(map[]));
        var state := Get(address.fields, "state", Null);
        var slug := Slugify(cityName);
        if MongoUtils.ValidateCity(cities, slug).Some? then NotAdded(AlreadyExists, Some(slug))
        else
          match Coordinate(Get(results.items[0].fields, "lon", Null), "lon")
          case Err(e) => NotAdded(Raised(e), None)
          case Ok(lon) =>
            match Coordinate(Get(results.items[0].fields, "lat", Null), "lat")
            case Err(e) => NotAdded(Raised(e), None)
            case Ok(lat) => Added(cities + [CityDoc(cityName, slug, state, country, lon, lat, id, now)], slug)
  }

  /** `results[0]` is a dict whose `address`, if present, is a dict too. */
  predicate ResultShapeOk(results: Value) {
    && results.List? && results.items != [] && results.items[0].Obj?
    && Get(results.items[0].fields, "address", Obj(map[])).Obj?
  }

  /** No two stored cities share a slug: the invariant the unique index on
      `slug` enforces. */
  predicate UniqueSlugs(cities: Collection) {
    forall i, j :: 0 <= i < j < |cities| && "slug" in cities[i] && "slug" in cities[j] ==>
      cities[i]["slug"] != cities[j]["slug"]
  }

  /** Adding a city keeps slugs unique, and validate_city then finds the
      new city under the returned slug. */
  lemma AddedCityIsFound(cities: Collection, geocode: Doc -> Option<Value>, cityName: string, country: string,
                         id: Value, now: Value)
    requires FetchAndAddCity(cities, geocode, cityName, country, id, now).Added?
    ensures var r := FetchAndAddCity(cities, geocode, cityName, country, id, now);
      && MongoUtils.ValidateCity(r.cities, r.slug) == Some(r.cities[|cities|])
      && (UniqueSlugs(cities) ==> UniqueSlugs(r.cities))
  {
    var r := FetchAndAddCity(cities, geocode, cityName, country, id, now);
    var q := MongoUtils.SlugQuery(r.slug);
    assert q[0] == ("slug", Str(r.slug));
    assert forall j :: 0 <= j < |cities| ==> !Matches(cities[j], q);
    assert Matches(r.cities[|cities|], q);
    assert forall j :: 0 <= j < |cities| ==> r.cities[j] == cities[j];
    assert FindFirst(r.cities, q) == Some(|cities|);
    if UniqueSlugs(cities) {
      forall i, j | 0 <= i < j < |r.cities| && "slug" in r.cities[i] && "slug" in r.cities[j]
        ensures r.cities[i]["slug"] != r.cities[j]["slug"]
      {
        if j == |cities| {
          assert r.cities[i] == cities[i];
          assert !Matches(cities[i], q);
        } else {
          assert r.cities[i] == cities[i] && r.cities[j] == cities[j];
        }
      }
    }
  }
}
