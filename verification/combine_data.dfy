/** The processing step: raw Google records are loaded, normalised into one
    fixed record shape, de-duplicated on exact (name, coordinates) equality
    and appended to the processed collection without any merging. */
module CombineData {
  import opened Docs

  // ---------------------------------------------------------------------------
  // The normalised record

  /** A GeoJSON position: longitude first, then latitude. */
  datatype Point = Point(lng: Value, lat: Value)

  datatype Place = Place(
    name: Value,
    address: Value,
    citySlug: Value,
    cityName: Value,
    state: Value,
    stateCode: Value,
    zipCode: Value,
    country: Value,
    location: Point,
    phone: Value,
    website: Value,
    rating: Value,
    reviewCount: Value,
    priceLevel: string,
    category: string,
    categories: string,
    imageUrl: Value,
    isClosed: bool,
    hours: Value,
    sourceIds: map<string, Value>,
    sources: seq<string>,
    createdAt: Value,
    updatedAt: Value)

  /** The float 0.0, the default rating. */
  const FloatZero: Value := Opaque(0)

  function StrList(xs: seq<string>): seq<Value> {
    seq(|xs|, i requires 0 <= i < |xs| => Str(xs[i]))
  }

  /** The processed document written for a record, with the field names of
      the processed collection. */
  function ToDoc(p: Place): Doc {
    map[
      "name" := p.name,
      "address" := p.address,
      "city_slug" := p.citySlug,
      "city_name" := p.cityName,
      "state" := p.state,
      "state_code" := p.stateCode,
      "zip_code" := p.zipCode,
      "country" := p.country,
      "location" := Obj(map["type" := Str("Point"), "coordinates" := List([p.location.lng, p.location.lat])]),
      "phone" := p.phone,
      "website" := p.website,
      "rating" := p.rating,
      "review_count" := p.reviewCount,
      "price_level" := Str(p.priceLevel),
      "category" := Str(p.category),
      "categories" := Str(p.categories),
      "image_url" := p.imageUrl,
      "is_closed" := Bool(p.isClosed),
      "hours" := p.hours,
      "source_ids" := Obj(p.sourceIds),
      "sources" := List(StrList(p.sources)),
      "created_at" := p.createdAt,
      "updated_at" := p.updatedAt
    ]
  }

  // ---------------------------------------------------------------------------
  // normalize_google_data

  /** `'$' * n`; Python repeats a string zero times for n <= 0. */
  function Dollars(n: int): (r: string)
    ensures |r| == if n > 0 then n else 0
    ensures forall i :: 0 <= i < |r| ==> r[i] == '$'
    decreases if n > 0 then n else 0
  {
    if n <= 0 then "" else Dollars(n - 1) + "$"
  }

  /** `'$' * price_level if price_level else ''`: a falsy level (0, 0.0,
      None, False) is no tier,
      an integer (or True) is that many dollar signs, any other truthy value
      raises a TypeError. */
  function PriceSymbols(v: Value): Result<string> {
    if !Truthy(v) then Ok("")
    else if v.Int? then Ok(Dollars(v.i))
    else if v.Bool? then Ok("$")
    else Err(WrongType("price_level"))
  }

  /** The number of dollar signs a price level stands for. */
  function PriceTier(v: Value): nat {
    if v.Int? && v.i > 0 then v.i
    else if v == Bool(true) then 1
    else 0
  }

  /** `d.get(key, {})` used as a dict: any other value raises. */
  function SubDoc(d: Doc, key: string): Result<Doc> {
    var v := Get(d, key, Obj(map[]));
    if v.Obj? then Ok(v.fields) else Err(WrongType(key))
  }

  /** The names `', '.join(types)` iterates over: the strings of a list,
      the characters of a string, the (absent) keys of an empty dict. */
  function TypeNames(v: Value): Result<seq<string>> {
    match v
    case List(xs) =>
      if forall i :: 0 <= i < |xs| ==> xs[i].Str?
      then Ok(seq(|xs|, i requires 0 <= i < |xs| && xs[i].Str? => xs[i].s))
      else Err(WrongType("types"))
    case Str(s) => Ok(seq(|s|, i requires 0 <= i < |s| => [s[i]]))
    case Obj(m) => if m == map[] then Ok([]) else Err(WrongType("types"))
    case _ => Err(WrongType("types"))
  }

  function Join(xs: seq<string>, sep: string): string
    decreases |xs|
  {
    if xs == [] then ""
    else if |xs| == 1 then xs[0]
    else xs[0] + sep + Join(xs[1..], sep)
  }

  /** `photos[0].get('photo_reference') if photos else ''`. */
  function ImageUrl(photos: Value): Result<Value> {
    if !Truthy(photos) then Ok(Str(""))
    else if photos.List? && photos.items[0].Obj? then Ok(Get(photos.items[0].fields, "photo_reference", Null))
    else Err(WrongType("photos"))
  }

  /** The shapes on which the normaliser does not raise. `types` may be
      a list of strings, a string (joined character by character) or an
      empty dict; `', '.join` takes a dict of strings too, but then
      `types[0]` looks up a key that is not there. */
  predicate WellShaped(place: Doc) {
    && ("price_level" in place ==> !Truthy(place["price_level"]) || place["price_level"].Int? || place["price_level"].Bool?)
    && ("geometry" in place ==> place["geometry"].Obj?)
    && ("geometry" in place && "location" in place["geometry"].fields ==> place["geometry"].fields["location"].Obj?)
    && ("opening_hours" in place ==> place["opening_hours"].Obj?)
    && ("types" in place ==>
          || (place["types"].List? && forall i :: 0 <= i < |place["types"].items| ==> place["types"].items[i].Str?)
          || place["types"].Str?
          || place["types"] == Obj(map[]))
    && ("photos" in place && Truthy(place["photos"]) ==> place["photos"].List? && place["photos"].items[0].Obj?)
  }

  /** `place['geometry']['location'][axis]`, 0 wherever a level is missing. */
  function Coordinate(place: Doc, axis: string): Value {
    if "geometry" in place && place["geometry"].Obj? && "location" in place["geometry"].fields
       && place["geometry"].fields["location"].Obj? && axis in place["geometry"].fields["location"].fields
    then place["geometry"].fields["location"].fields[axis]
    else Int(0)
  }

  /** The categories are the type names joined with ", ", and the
      category is the first of them, or empty when there are none. */
  predicate CategoriesFromTypes(place: Doc, p: Place) {
    && TypeNames(Get(place, "types", List([]))).Ok?
    && var names := TypeNames(Get(place, "types", List([]))).value;
    && p.categories == Join(names, ", ")
    && p.category == (if names == [] then "" else names[0])
  }

  /** Address, phone, website and review count are copied, or default. */
  predicate CopiesDetails(place: Doc, p: Place) {
    && p.address == Get(place, "formatted_address", Str(""))
    && p.phone == Get(place, "formatted_phone_number", Str(""))
    && p.website == Get(place, "website", Str(""))
    && p.reviewCount == Get(place, "user_ratings_total", Int(0))
  }

  /** The city fields the raw record carries are copied, or default to "". */
  predicate CopiesCity(place: Doc, p: Place) {
    && p.citySlug == Get(place, "city_slug", Str(""))
    && p.cityName == Get(place, "city_name", Str(""))
    && p.state == Get(place, "state", Str(""))
    && p.stateCode == Get(place, "state_code", Str(""))
    && p.zipCode == Get(place, "zip_code", Str(""))
    && p.country == Get(place, "country", Str(""))
  }

  /** The hours are the opening hours' `weekday_text`, or `[]`; the image
      is the first photo's reference, or "" without photos. */
  predicate HoursAndImage(place: Doc, p: Place) {
    && ("opening_hours" !in place ==> p.hours == List([]))
    && ("opening_hours" in place ==>
          place["opening_hours"].Obj? && p.hours == Get(place["opening_hours"].fields, "weekday_text", List([])))
    && (!Truthy(Get(place, "photos", List([]))) ==> p.imageUrl == Str(""))
    && (Truthy(Get(place, "photos", List([]))) ==>
          && place["photos"].List? && place["photos"].items[0].Obj?
          && p.imageUrl == Get(place["photos"].items[0].fields, "photo_reference", Null))
  }

  /** Hours and image, as read from the opening hours and the photos. */
  lemma HoursAndImageRead(place: Doc, openingHours: Doc, imageUrl: Value, p: Place)
    requires SubDoc(place, "opening_hours") == Ok(openingHours)
    requires ImageUrl(Get(place, "photos", List([]))) == Ok(imageUrl)
    requires p.hours == Get(openingHours, "weekday_text", List([])) && p.imageUrl == imageUrl
    ensures HoursAndImage(place, p)
  {
  }

  /** The normalised record, once the fields that can raise are read:
      every other field is copied from the place or takes its default. */
  function Assemble(place: Doc, priceSymbols: string, location: Doc, openingHours: Doc, types: seq<string>,
                    imageUrl: Value, now: Value): (p: Place)
    ensures p.name == Get(place, "name", Str("")) && p.rating == Get(place, "rating", FloatZero)
    ensures CopiesDetails(place, p) && CopiesCity(place, p)
    ensures p.location == Point(Get(location, "lng", Int(0)), Get(location, "lat", Int(0)))
    ensures p.priceLevel == priceSymbols && p.imageUrl == imageUrl
    ensures p.hours == Get(openingHours, "weekday_text", List([]))
    ensures p.categories == Join(types, ", ") && p.category == (if types == [] then "" else types[0])
    ensures p.isClosed <==> "business_status" in place && place["business_status"] == Str("CLOSED_PERMANENTLY")
    ensures p.sources == ["google"] && p.sourceIds == map["google" := Get(place, "place_id", Str(""))]
    ensures p.createdAt == now && p.updatedAt == now
  {
    Place(
      name := Get(place, "name", Str("")),
      address := Get(place, "formatted_address", Str("")),
      citySlug := Get(place, "city_slug", Str("")),
      cityName := Get(place, "city_name", Str("")),
      state := Get(place, "state", Str("")),
      stateCode := Get(place, "state_code", Str("")),
      zipCode := Get(place, "zip_code", Str("")),
      country := Get(place, "country", Str("")),
      location := Point(Get(location, "lng", Int(0)), Get(location, "lat", Int(0))),
      phone := Get(place, "formatted_phone_number", Str("")),
      website := Get(place, "website", Str("")),
      rating := Get(place, "rating", FloatZero),
      reviewCount := Get(place, "user_ratings_total", Int(0)),
      priceLevel := priceSymbols,
      category := if types == [] then "" else types[0],
      categories := Join(types, ", "),
      imageUrl := imageUrl,
      isClosed := Get(place, "business_status", Null) == Str("CLOSED_PERMANENTLY"),
      hours := Get(openingHours, "weekday_text", List([])),
      sourceIds := map["google" := Get(place, "place_id", Str(""))],
      sources := ["google"],
      createdAt := now,
      updatedAt := now)
  }

  /** normalize_google_data. */
  function NormalizeGoogle(place: Doc, now: Value): (r: Result<Place>)
    ensures WellShaped(place) ==> r.Ok?
    ensures r.Ok? ==> |r.value.priceLevel| == PriceTier(Get(place, "price_level", Int(0)))
    ensures r.Ok? ==> forall i :: 0 <= i < |r.value.priceLevel| ==> r.value.priceLevel[i] == '$'
    ensures r.Ok? ==> r.value.location == Point(Coordinate(place, "lng"), Coordinate(place, "lat"))
    ensures r.Ok? ==> (r.value.isClosed <==> "business_status" in place && place["business_status"] == Str("CLOSED_PERMANENTLY"))
    ensures r.Ok? ==> r.value.sources == ["google"]
    ensures r.Ok? ==> r.value.sourceIds == map["google" := Get(place, "place_id", Str(""))]
    ensures r.Ok? && "types" !in place ==> r.value.category == "" && r.value.categories == ""
    ensures r.Ok? && "types" in place && place["types"].List? && place["types"].items != [] ==>
      Str(r.value.category) == place["types"].items[0]
    ensures r.Ok? && "types" in place && place["types"] == List([]) ==> r.value.category == "" && r.value.categories == ""
    ensures r.Ok? ==> CategoriesFromTypes(place, r.value)
    ensures r.Ok? ==> r.value.name == Get(place, "name", Str("")) && r.value.rating == Get(place, "rating", FloatZero)
    ensures r.Ok? ==> CopiesDetails(place, r.value) && CopiesCity(place, r.value)
    ensures r.Ok? ==> HoursAndImage(place, r.value)
    ensures r.Ok? ==> r.value.createdAt == now && r.value.updatedAt == now
  {
    var priceSymbols :- PriceSymbols(Get(place, "price_level", Int(0)));
    var geometry :- SubDoc(place, "geometry");
    var location :- SubDoc(geometry, "location");
    var openingHours :- SubDoc(place, "opening_hours");
    var types :- TypeNames(Get(place, "types", List([])));
    var imageUrl :- ImageUrl(Get(place, "photos", List([])));
    var p := Assemble(place, priceSymbols, location, openingHours, types, imageUrl, now);
    HoursAndImageRead(place, openingHours, imageUrl, p);
    Ok(p)
  }

  /** The record a Google document with no fields at all normalises to. */
  function DefaultPlace(now: Value): Place {
    Place(Str(""), Str(""), Str(""), Str(""), Str(""), Str(""), Str(""), Str(""), Point(Int(0), Int(0)),
          Str(""), Str(""), FloatZero, Int(0), "", "", "", Str(""), false, List([]),
          map["google" := Str("")], ["google"], now, now)
  }

  /** Every missing field takes its documented default. */
  lemma EmptyRecordNormalizesToDefaults(now: Value)
    ensures NormalizeGoogle(map[], now) == Ok(DefaultPlace(now))
  {
  }

  /** The primary category is the first type, and the categories are all
      the types joined with ", ". */
  lemma TypesBecomeCategories(place: Doc, now: Value)
    requires WellShaped(place)
    requires "types" in place && place["types"] == List([Str("park"), Str("museum")])
    ensures var r := NormalizeGoogle(place, now);
      r.Ok? && r.value.category == "park" && r.value.categories == "park, museum"
  {
    var r := NormalizeGoogle(place, now);
    TwoTypeNames();
    assert CategoriesFromTypes(place, r.value);
    JoinPair("park", "museum", ", ");
    assert "park" + ", " + "museum" == "park, museum";
  }

  /** The normaliser succeeds exactly on the well-shaped records. */
  lemma NormalizesExactlyWhenWellShaped(place: Doc, now: Value)
    ensures NormalizeGoogle(place, now).Ok? <==> WellShaped(place)
  {
  }

  /** A string of types is joined character by character: its first
      character is the primary category. */
  lemma StringTypesAreSplit(place: Doc, now: Value)
    requires WellShaped(place)
    requires "types" in place && place["types"] == Str("park")
    ensures var r := NormalizeGoogle(place, now);
      r.Ok? && r.value.category == "p" && r.value.categories == "p, a, r, k"
  {
    var r := NormalizeGoogle(place, now);
    var names := TypeNames(Str("park")).value;
    assert |names| == 4 && names[0] == "p" && names[1] == "a" && names[2] == "r" && names[3] == "k";
    assert names == ["p", "a", "r", "k"];
    assert CategoriesFromTypes(place, r.value);
    assert names[1..] == ["a", "r", "k"] && names[2..] == ["r", "k"];
    JoinPair("r", "k", ", ");
    assert Join(["a", "r", "k"], ", ") == "a" + ", " + Join(["r", "k"], ", ");
    assert Join(names, ", ") == "p" + ", " + Join(["a", "r", "k"], ", ");
  }

  lemma TwoTypeNames()
    ensures TypeNames(List([Str("park"), Str("museum")])) == Ok(["park", "museum"])
  {
    var names := TypeNames(List([Str("park"), Str("museum")])).value;
    assert |names| == 2 && names[0] == "park" && names[1] == "museum";
    assert names == ["park", "museum"];
  }

  lemma JoinPair(a: string, b: string, sep: string)
    ensures Join([a, b], sep) == a + sep + b
  {
    assert [a, b][1..] == [b];
  }

  /** A price level of 0.0 is falsy: no tier, and no error. */
  lemma FloatZeroPriceIsNoTier(now: Value)
    ensures var r := NormalizeGoogle(map["price_level" := FloatZero], now);
      r.Ok? && r.value.priceLevel == ""
  {
  }

  /** [lng, lat] as written: the stored coordinates put the longitude first. */
  lemma StoredCoordinatesAreLngLat(place: Doc, now: Value)
    requires NormalizeGoogle(place, now).Ok?
    ensures var d := ToDoc(NormalizeGoogle(place, now).value);
      && d["location"].Obj?
      && d["location"].fields["type"] == Str("Point")
      && d["location"].fields["coordinates"] == List([Coordinate(place, "lng"), Coordinate(place, "lat")])
  {
    var p := NormalizeGoogle(place, now).value;
    assert p.location == Point(Coordinate(place, "lng"), Coordinate(place, "lat"));
    StoredLocation(p);
  }

  lemma StoredLocation(p: Place)
    ensures ToDoc(p)["location"] == Obj(map["type" := Str("Point"), "coordinates" := List([p.location.lng, p.location.lat])])
  {
  }

  function NormalizeAll(raw: seq<Doc>, now: Value): (r: Result<seq<Place>>)
    ensures r.Ok? <==> forall i :: 0 <= i < |raw| ==> NormalizeGoogle(raw[i], now).Ok?
    ensures r.Ok? ==> |r.value| == |raw|
    ensures r.Ok? ==> forall i :: 0 <= i < |raw| ==> NormalizeGoogle(raw[i], now) == Ok(r.value[i])
  {
    MapAll(place => NormalizeGoogle(place, now), raw)
  }

  // ---------------------------------------------------------------------------
  // deduplicate_data

  /** The identity deduplicate_data compares: the name and the coordinates. */
  type Key = (Value, Point)

  function KeyOf(p: Place): Key {
    (p.name, p.location)
  }

  function KeySet(ps: seq<Place>): set<Key> {
    set i | 0 <= i < |ps| :: KeyOf(ps[i])
  }

  predicate DistinctKeys(ps: seq<Place>) {
    forall a, b :: 0 <= a < b < |ps| ==> KeyOf(ps[a]) != KeyOf(ps[b])
  }

  /** No earlier record has the same key. */
  predicate IsFirst(ps: seq<Place>, i: int)
    requires 0 <= i < |ps|
  {
    forall j :: 0 <= j < i ==> KeyOf(ps[j]) != KeyOf(ps[i])
  }

  lemma KeySetSnoc(ps: seq<Place>)
    requires ps != []
    ensures KeySet(ps) == KeySet(ps[..|ps| - 1]) + {KeyOf(ps[|ps| - 1])}
    ensures IsFirst(ps, |ps| - 1) <==> KeyOf(ps[|ps| - 1]) !in KeySet(ps[..|ps| - 1])
  {
    var init := ps[..|ps| - 1];
    forall k | k in KeySet(ps) ensures k in KeySet(init) + {KeyOf(ps[|ps| - 1])} {
      var i :| 0 <= i < |ps| && KeyOf(ps[i]) == k;
      if i < |ps| - 1 { assert init[i] == ps[i]; }
    }
    forall k | k in KeySet(init) ensures k in KeySet(ps) {
      var i :| 0 <= i < |init| && KeyOf(init[i]) == k;
      assert ps[i] == init[i];
    }
    assert KeyOf(ps[|ps| - 1]) in KeySet(ps);
    if !IsFirst(ps, |ps| - 1) {
      var j :| 0 <= j < |ps| - 1 && KeyOf(ps[j]) == KeyOf(ps[|ps| - 1]);
      assert init[j] == ps[j];
    }
  }

  /** The reference meaning of de-duplication: the records whose key did
      not occur earlier, in input order. */
  function FirstOccurrences(ps: seq<Place>): (r: seq<Place>)
    ensures |r| <= |ps|
    ensures DistinctKeys(r)
    ensures KeySet(r) == KeySet(ps)
    decreases |ps|
  {
    if ps == [] then []
    else
      var init := ps[..|ps| - 1];
      var last := ps[|ps| - 1];
      var prefix := FirstOccurrences(init);
      KeySetSnoc(ps);
      if IsFirst(ps, |ps| - 1) then
        assert forall a :: 0 <= a < |prefix| ==> KeyOf(prefix[a]) in KeySet(prefix);
        assert KeySet(prefix + [last]) == KeySet(prefix) + {KeyOf(last)} by {
          KeySetSnoc(prefix + [last]);
          assert (prefix + [last])[..|prefix|] == prefix;
        }
        prefix + [last]
      else
        prefix
  }

  /** deduplicate_data, as the loop with a `seen` set that it is. */
  method Deduplicate(places: seq<Place>) returns (unique: seq<Place>)
    ensures unique == FirstOccurrences(places)
  {
    var seen: set<Key> := {};
    unique := [];
    var i := 0;
    while i < |places|
      invariant 0 <= i <= |places|
      invariant unique == FirstOccurrences(places[..i])
      invariant seen == KeySet(places[..i])
    {
      var key := KeyOf(places[i]);
      var next := places[..i + 1];
      assert next[..i] == places[..i];
      KeySetSnoc(next);
      if key !in seen {
        seen := seen + {key};
        unique := unique + [places[i]];
      }
      i := i + 1;
    }
    assert places[..|places|] == places;
  }

  /** `a` is `b` with some elements left out, the rest in their order. */
  predicate SubsequenceOf(a: seq<Place>, b: seq<Place>)
    decreases |b|
  {
    if a == [] then true
    else if b == [] then false
    else (a[|a| - 1] == b[|b| - 1] && SubsequenceOf(a[..|a| - 1], b[..|b| - 1]))
         || SubsequenceOf(a, b[..|b| - 1])
  }

  lemma {:induction false} FirstOccurrencesIsSubsequence(ps: seq<Place>)
    ensures SubsequenceOf(FirstOccurrences(ps), ps)
    decreases |ps|
  {
    if ps != [] {
      var init := ps[..|ps| - 1];
      FirstOccurrencesIsSubsequence(init);
      var prefix := FirstOccurrences(init);
      if IsFirst(ps, |ps| - 1) {
        assert FirstOccurrences(ps) == prefix + [ps[|ps| - 1]];
        assert (prefix + [ps[|ps| - 1]])[..|prefix|] == prefix;
      } else {
        assert FirstOccurrences(ps) == prefix;
      }
    }
  }

  /** One step of `FirstOccurrences`: the last place is kept exactly when it
      is the first with its key. */
  lemma FirstOccurrencesSnoc(ps: seq<Place>)
    requires ps != []
    ensures FirstOccurrences(ps) ==
      if IsFirst(ps, |ps| - 1) then FirstOccurrences(ps[..|ps| - 1]) + [ps[|ps| - 1]]
      else FirstOccurrences(ps[..|ps| - 1])
    ensures forall y :: y in FirstOccurrences(ps) <==>
      y in FirstOccurrences(ps[..|ps| - 1]) || (IsFirst(ps, |ps| - 1) && y == ps[|ps| - 1])
  {
  }

  /** Dropping the last place does not change which earlier places are first. */
  lemma IsFirstInInit(ps: seq<Place>, i: int)
    requires 0 <= i < |ps| - 1
    ensures IsFirst(ps, i) <==> IsFirst(ps[..|ps| - 1], i)
  {
    assert forall j :: 0 <= j <= i ==> ps[..|ps| - 1][j] == ps[j];
  }

  lemma {:induction false} FirstsAreKept(ps: seq<Place>)
    ensures forall i :: 0 <= i < |ps| && IsFirst(ps, i) ==> ps[i] in FirstOccurrences(ps)
    decreases |ps|
  {
    if ps != [] {
      var init := ps[..|ps| - 1];
      FirstsAreKept(init);
      FirstOccurrencesSnoc(ps);
      forall i | 0 <= i < |ps| && IsFirst(ps, i) ensures ps[i] in FirstOccurrences(ps) {
        if i < |init| {
          IsFirstInInit(ps, i);
          assert init[i] == ps[i] && ps[i] in FirstOccurrences(init);
        }
      }
    }
  }

  lemma {:induction false} OnlyFirstsAreKept(ps: seq<Place>)
    ensures forall x :: x in FirstOccurrences(ps) ==> exists i :: 0 <= i < |ps| && IsFirst(ps, i) && ps[i] == x
    decreases |ps|
  {
    if ps != [] {
      var init := ps[..|ps| - 1];
      var r, prior := FirstOccurrences(ps), FirstOccurrences(init);
      OnlyFirstsAreKept(init);
      FirstOccurrencesSnoc(ps);
      forall x | x in r ensures exists i :: 0 <= i < |ps| && IsFirst(ps, i) && ps[i] == x {
        if x in prior {
          var i :| 0 <= i < |init| && IsFirst(init, i) && init[i] == x;
          IsFirstInInit(ps, i);
          assert ps[i] == x && IsFirst(ps, i);
        } else {
          assert x == ps[|ps| - 1] && IsFirst(ps, |ps| - 1);
        }
      }
    }
  }

  /** Exactly the first occurrences are kept: every record that is the
      first with its key survives, and nothing else does. */
  lemma FirstOccurrencesKeepsFirsts(ps: seq<Place>)
    ensures forall i :: 0 <= i < |ps| && IsFirst(ps, i) ==> ps[i] in FirstOccurrences(ps)
    ensures forall x :: x in FirstOccurrences(ps) ==> exists i :: 0 <= i < |ps| && IsFirst(ps, i) && ps[i] == x
  {
    FirstsAreKept(ps);
    OnlyFirstsAreKept(ps);
  }

  lemma {:induction false} DistinctKeysAreKept(ps: seq<Place>)
    requires DistinctKeys(ps)
    ensures FirstOccurrences(ps) == ps
    decreases |ps|
  {
    if ps != [] {
      var init := ps[..|ps| - 1];
      assert DistinctKeys(init);
      DistinctKeysAreKept(init);
      assert IsFirst(ps, |ps| - 1);
    }
  }

  /** De-duplicating twice is de-duplicating once. */
  lemma DeduplicationIsIdempotent(ps: seq<Place>)
    ensures FirstOccurrences(FirstOccurrences(ps)) == FirstOccurrences(ps)
  {
    DistinctKeysAreKept(FirstOccurrences(ps));
  }

  // ---------------------------------------------------------------------------
  // load_data_from_mongodb and combine_data

  /** The filter of load_data_from_mongodb: it filters the singular field
      `category`, and always requires source 'google'. */
  function LoadQuery(slug: string, category: string): Query {
    (if slug != "" then [("city_slug", Str(slug))] else [])
    + (if category != "" then [("category", Str(category))] else [])
    + [("source", Str("google"))]
  }

  function LoadRaw(raw: Collection, slug: string, category: string): (r: Collection)
    ensures forall d :: d in r <==>
      && d in raw
      && MatchesField(d, "source", Str("google"))
      && (slug != "" ==> MatchesField(d, "city_slug", Str(slug)))
      && (category != "" ==> MatchesField(d, "category", Str(category)))
    ensures forall d :: multiset(r)[d] ==
             if && MatchesField(d, "source", Str("google"))
                && (slug != "" ==> MatchesField(d, "city_slug", Str(slug)))
                && (category != "" ==> MatchesField(d, "category", Str(category)))
             then multiset(raw)[d] else 0
  {
    var q := LoadQuery(slug, category);
    assert forall d :: Matches(d, q) <==>
      && MatchesField(d, "source", Str("google"))
      && (slug != "" ==> MatchesField(d, "city_slug", Str(slug)))
      && (category != "" ==> MatchesField(d, "category", Str(category)))
    by {
      forall d ensures Matches(d, q) <==>
        && MatchesField(d, "source", Str("google"))
        && (slug != "" ==> MatchesField(d, "city_slug", Str(slug)))
        && (category != "" ==> MatchesField(d, "category", Str(category)))
      {
        assert q[|q| - 1] == ("source", Str("google"));
        if slug != "" { assert q[0] == ("city_slug", Str(slug)); }
        if category != "" { assert q[|q| - 2] == ("category", Str(category)); }
      }
    }
    Find(raw, q)
  }

  /** With a category given, a raw record that has no singular `category`
      field (raw ingestion writes `categories`) is never loaded. */
  lemma CategoryFilterSkipsRecordsWithoutCategory(raw: Collection, slug: string, category: string, d: Doc)
    requires category != "" && "category" !in d
    ensures d !in LoadRaw(raw, slug, category)
  {
  }

  function ToDocs(ps: seq<Place>): (r: Collection)
    ensures |r| == |ps|
    ensures forall i :: 0 <= i < |ps| ==> r[i] == ToDoc(ps[i])
  {
    seq(|ps|, i requires 0 <= i < |ps| => ToDoc(ps[i]))
  }

  /** combine_data: nothing loaded means nothing written, even with
      `replace`; a record that cannot be normalised aborts before any
      write; otherwise the de-duplicated records are appended, after
      dropping the collection when `replace` is set, and never merged with
      what is stored. */
  function Combine(raw: Collection, processed: Collection, slug: string, category: string,
                   replace: bool, now: Value): (r: Result<Collection>)
    ensures LoadRaw(raw, slug, category) == [] ==> r == Ok(processed)
    ensures r.Err? <==> exists i :: 0 <= i < |LoadRaw(raw, slug, category)|
                              && NormalizeGoogle(LoadRaw(raw, slug, category)[i], now).Err?
    ensures r.Ok? && LoadRaw(raw, slug, category) != [] ==>
      var base := if replace then [] else processed;
      var added := FirstOccurrences(NormalizeAll(LoadRaw(raw, slug, category), now).value);
      r.value == base + ToDocs(added)
  {
    var loaded := LoadRaw(raw, slug, category);
    if loaded == [] then Ok(processed)
    else
      var normalized :- NormalizeAll(loaded, now);
      var unique := FirstOccurrences(normalized);
      Ok((if replace then [] else processed) + ToDocs(unique))
  }

  /** Without `replace`, combining the same raw data twice appends the same
      records twice: the stored ones are never looked up. */
  lemma CombineTwiceAppendsTwice(raw: Collection, processed: Collection, slug: string, category: string, now: Value)
    requires Combine(raw, processed, slug, category, false, now).Ok?
    ensures var once := Combine(raw, processed, slug, category, false, now).value;
      var twice := Combine(raw, once, slug, category, false, now);
      && twice.Ok?
      && twice.value[..|once|] == once
      && twice.value[|once|..] == once[|processed|..]
  {
  }
}
