/** The shared store operations of the data collection scripts: the raw
    upsert keyed by the provider's id, the processed upsert keyed by a
    natural key, and the two filtered getters. Collections are passed in
    and returned; the MongoDB client and index creation are not modelled. */
module MongoUtils {
  import opened Docs

  // ---------------------------------------------------------------------------
  // Cities

  function SlugQuery(slug: string): Query {
    [("slug", Str(slug))]
  }

  /** validate_city: the first city document whose slug matches, if any. */
  function ValidateCity(cities: Collection, slug: string): (r: Option<Doc>)
    ensures r.Some? <==> exists i :: 0 <= i < |cities| && Matches(cities[i], SlugQuery(slug))
    ensures r.Some? ==> r.value in cities && MatchesField(r.value, "slug", Str(slug))
  {
    match FindFirst(cities, SlugQuery(slug))
    case None => None
    case Some(i) =>
      assert SlugQuery(slug)[0] == ("slug", Str(slug));
      Some(cities[i])
  }

  /** The city fields that raw ingestion copies onto every record. */
  datatype CityMeta = CityMeta(id: Value, name: Value, state: Value, stateCode: Value)

  /** Reads `city['_id']`, `city['name']`, `city['state']` and
      `city['state_code']`, in that order; the first absent one is a KeyError. */
  function CityMetadata(city: Doc): (r: Result<CityMeta>)
    ensures r.Ok? <==> "_id" in city && "name" in city && "state" in city && "state_code" in city
    ensures r.Ok? ==> r.value == CityMeta(city["_id"], city["name"], city["state"], city["state_code"])
    ensures r.Err? ==> r.error.MissingKey? && r.error.key !in city
  {
    if "_id" !in city then Err(MissingKey("_id"))
    else if "name" !in city then Err(MissingKey("name"))
    else if "state" !in city then Err(MissingKey("state"))
    else if "state_code" !in city then Err(MissingKey("state_code"))
    else Ok(CityMeta(city["_id"], city["name"], city["state"], city["state_code"]))
  }

  // ---------------------------------------------------------------------------
  // Raw upsert

  /** The document carries the provenance and city fields of one ingestion run. */
  predicate Carries(d: Doc, source: string, slug: string, meta: CityMeta) {
    && "source" in d && d["source"] == Str(source)
    && "city_slug" in d && d["city_slug"] == Str(slug)
    && "city_id" in d && d["city_id"] == meta.id
    && "city_name" in d && d["city_name"] == meta.name
    && "state" in d && d["state"] == meta.state
    && "state_code" in d && d["state_code"] == meta.stateCode
  }

  const StampKeys: set<string> :=
    {"source", "city_slug", "city_id", "city_name", "state", "state_code", "categories", "updated_at"}

  /** The place as it is written: provenance and city fields overwrite its
      own, `categories` is `[category]` unless the place already has that
      key, and `updated_at` is refreshed. */
  function Stamp(place: Doc, source: string, slug: string, meta: CityMeta, category: string, now: Value): (r: Doc)
    ensures Carries(r, source, slug, meta)
    ensures r.Keys == place.Keys + StampKeys
    ensures "categories" in place ==> r["categories"] == place["categories"]
    ensures "categories" !in place ==> r["categories"] == List([Str(category)])
    ensures r["updated_at"] == now
    ensures forall k :: k in place && k !in StampKeys ==> r[k] == place[k]
    ensures "id" in place ==> "id" in r && r["id"] == place["id"]
  {
    var withMeta := place["source" := Str(source)]["city_slug" := Str(slug)]["city_id" := meta.id]
      ["city_name" := meta.name]["state" := meta.state]["state_code" := meta.stateCode];
    var withCategories := if "categories" in place then withMeta else withMeta["categories" := List([Str(category)])];
    withCategories["updated_at" := now]
  }

  /** The raw lookup filter. Its source is the constant 'google', whatever
      source the batch is saved under. */
  function RawLookup(place: Doc): Query
    requires "id" in place
  {
    [("source", Str("google")), ("id", place["id"])]
  }

  /** The stored categories are absent or an array, so they can be appended to. */
  predicate CategoriesOk(d: Doc) {
    "categories" !in d || d["categories"].List?
  }

  function StoredCategories(d: Doc): seq<Value>
    requires CategoriesOk(d)
  {
    if "categories" in d then d["categories"].items else []
  }

  /** `needle in hay` on Python strings: `needle` occurs somewhere in `hay`. */
  predicate Occurs(needle: string, hay: string)
    decreases |hay|
  {
    if |hay| < |needle| then false else hay[..|needle|] == needle || Occurs(needle, hay[1..])
  }

  /** `category in v`: membership in a list, a substring of a string, a key
      of a dictionary; `in` raises on any other value. */
  predicate Holds(v: Value, category: string) {
    match v
    case List(xs) => Str(category) in xs
    case Str(s) => Occurs(category, s)
    case Obj(m) => category in m
    case _ => false
  }

  /** The categories written on a raw update: the stored ones, kept as they
      are when the category is already in them, with the category appended
      otherwise. Only a list can be appended to: a string or dictionary
      lacking the category raises, as does a value `in` cannot search. */
  function AddCategory(existing: Doc, category: string): (r: Result<Value>)
    ensures r.Ok? <==> CategoriesOk(existing) || ("categories" in existing && Holds(existing["categories"], category))
    ensures r.Err? ==> r.error == WrongType("categories")
    ensures "categories" in existing && Holds(existing["categories"], category) ==> r == Ok(existing["categories"])
    ensures CategoriesOk(existing) ==> r.Ok? && r.value.List? && var prior := StoredCategories(existing);
      && |r.value.items| == (if Str(category) in prior then |prior| else |prior| + 1)
      && r.value.items[..|prior|] == prior
      && (forall x :: x in r.value.items <==> x in prior || x == Str(category))
      && (NoDuplicates(prior) ==> NoDuplicates(r.value.items))
  {
    var stored := Get(existing, "categories", List([]));
    if Holds(stored, category) then Ok(stored)
    else if stored.List? then Ok(List(stored.items + [Str(category)]))
    else Err(WrongType("categories"))
  }

  /** The `in` of the update path is Python's: a stored string of categories
      that contains the category as a substring counts as holding it, and
      is written back unchanged. */
  lemma SubstringCategoryCountsAsPresent()
    ensures AddCategory(map["categories" := Str("restaurants")], "restaurant") == Ok(Str("restaurants"))
    ensures AddCategory(map["categories" := Str("parks")], "museums") == Err(WrongType("categories"))
  {
    assert Occurs("restaurant", "restaurants");
  }

  /** The record left by a raw `$set` update: every field of the stamped
      place overwrites, fields only on the stored record survive, and the
      categories are the accumulated ones. */
  function RawUpdate(existing: Doc, doc: Doc, categories: Value): (r: Doc)
    ensures r.Keys == existing.Keys + doc.Keys + {"categories"}
    ensures forall k :: k in doc && k != "categories" ==> r[k] == doc[k]
    ensures forall k :: k in existing && k !in doc && k != "categories" ==> r[k] == existing[k]
    ensures r["categories"] == categories
  {
    Overlay(existing, doc["categories" := categories])
  }

  /** The effect of one write on the collection. */
  datatype Step = Step(store: Collection, inserted: bool)

  /** One iteration of save_raw_places: stamp the place, look it up by
      ('google', id), then either append it or `$set` it onto the first
      match with the accumulated categories. */
  function SaveRawOne(store: Collection, place: Doc, source: string, slug: string, meta: CityMeta,
                      category: string, now: Value): (r: Result<Step>)
    ensures "id" !in place ==> r == Err(MissingKey("id"))
    ensures r.Err? ==> r.error == MissingKey("id") || r.error == WrongType("categories")
    ensures r.Ok? ==> "id" in place
    ensures r.Ok? ==> (r.value.inserted <==> FindFirst(store, RawLookup(place)).None?)
    ensures r.Ok? && r.value.inserted ==>
      r.value.store == store + [Stamp(place, source, slug, meta, category, now)]
    ensures r.Ok? && !r.value.inserted ==>
      var i := FindFirst(store, RawLookup(place)).value;
      && AddCategory(store[i], category).Ok?
      && r.value.store == store[i := RawUpdate(store[i], Stamp(place, source, slug, meta, category, now),
                                               AddCategory(store[i], category).value)]
    ensures "id" in place && FindFirst(store, RawLookup(place)).None? ==> r.Ok?
    ensures "id" in place && FindFirst(store, RawLookup(place)).Some? ==>
      (r.Ok? <==> AddCategory(store[FindFirst(store, RawLookup(place)).value], category).Ok?)
  {
    if "id" !in place then Err(MissingKey("id"))
    else
      var doc := Stamp(place, source, slug, meta, category, now);
      match FindFirst(store, RawLookup(place))
      case None => Ok(Step(store + [doc], true))
      case Some(i) =>
        match AddCategory(store[i], category)
        case Err(e) => Err(e)
        case Ok(cats) => Ok(Step(store[i := RawUpdate(store[i], doc, cats)], false))
  }

  /** What a batch write leaves behind: the counts on success; on an
      exception, the error and the writes already committed before it. */
  datatype SaveOutcome =
    | Saved(store: Collection, inserted: nat, updated: nat)
    | Aborted(store: Collection, error: Error)

  /** The loop of save_raw_places over the places, once the city is known. */
  function SaveRawBatch(store: Collection, places: seq<Doc>, source: string, slug: string, meta: CityMeta,
                        category: string, now: Value): (r: SaveOutcome)
    ensures r.Saved? ==> r.inserted + r.updated == |places|
    ensures r.Saved? ==> |r.store| == |store| + r.inserted
    ensures |r.store| >= |store|
    ensures forall d :: d in r.store ==> d in store || Carries(d, source, slug, meta)
    ensures r.Aborted? ==> r.error == MissingKey("id") || r.error == WrongType("categories")
    decreases |places|
  {
    if places == [] then Saved(store, 0, 0)
    else
      match SaveRawOne(store, places[0], source, slug, meta, category, now)
      case Err(e) => Aborted(store, e)
      case Ok(step) =>
        match SaveRawBatch(step.store, places[1..], source, slug, meta, category, now)
        case Aborted(s, e) => Aborted(s, e)
        case Saved(s, ins, upd) =>
          if step.inserted then Saved(s, ins + 1, upd) else Saved(s, ins, upd + 1)
  }

  /** save_raw_places: an unknown city fails before any write; a city
      document lacking one of the copied fields fails at the first place,
      also before any write. */
  function SaveRawPlaces(cities: Collection, store: Collection, places: seq<Doc>, source: string,
                         slug: string, category: string, now: Value): (r: SaveOutcome)
    ensures ValidateCity(cities, slug).None? ==> r == Aborted(store, CityNotFound(slug))
    ensures ValidateCity(cities, slug).Some? && places != [] && CityMetadata(ValidateCity(cities, slug).value).Err? ==>
      r == Aborted(store, CityMetadata(ValidateCity(cities, slug).value).error)
    ensures r.Saved? ==> r.inserted + r.updated == |places| && |r.store| == |store| + r.inserted
    ensures r.Saved? && places != [] ==> CityMetadata(ValidateCity(cities, slug).value).Ok?
    ensures r.Saved? && places != [] ==>
      forall d :: d in r.store ==> d in store || Carries(d, source, slug, CityMetadata(ValidateCity(cities, slug).value).value)
  {
    match ValidateCity(cities, slug)
    case None => Aborted(store, CityNotFound(slug))
    case Some(city) =>
      if places == [] then Saved(store, 0, 0)
      else
        match CityMetadata(city)
        case Err(e) => Aborted(store, e)
        case Ok(meta) => SaveRawBatch(store, places, source, slug, meta, category, now)
  }

  // ---------------------------------------------------------------------------
  // Raw getter

  /** The filter built by get_raw_places; an empty string stands for an
      omitted (or empty) argument. */
  function RawPlacesQuery(slug: string, category: string): Query {
    [("source", Str("google"))]
    + (if slug != "" then [("city_slug", Str(slug))] else [])
    + (if category != "" then [("categories", Str(category))] else [])
  }

  /** get_raw_places: the stored Google records of the city and category. */
  function GetRawPlaces(store: Collection, slug: string, category: string): (r: Collection)
    ensures forall d :: d in r <==>
      && d in store
      && MatchesField(d, "source", Str("google"))
      && (slug != "" ==> MatchesField(d, "city_slug", Str(slug)))
      && (category != "" ==> MatchesField(d, "categories", Str(category)))
    ensures forall d :: multiset(r)[d] ==
             if && MatchesField(d, "source", Str("google"))
                && (slug != "" ==> MatchesField(d, "city_slug", Str(slug)))
                && (category != "" ==> MatchesField(d, "categories", Str(category)))
             then multiset(store)[d] else 0
  {
    var q := RawPlacesQuery(slug, category);
    assert forall d :: Matches(d, q) <==>
      && MatchesField(d, "source", Str("google"))
      && (slug != "" ==> MatchesField(d, "city_slug", Str(slug)))
      && (category != "" ==> MatchesField(d, "categories", Str(category)))
    by {
      forall d ensures Matches(d, q) <==>
        && MatchesField(d, "source", Str("google"))
        && (slug != "" ==> MatchesField(d, "city_slug", Str(slug)))
        && (category != "" ==> MatchesField(d, "categories", Str(category)))
      {
        assert q[0] == ("source", Str("google"));
        if slug != "" { assert q[1] == ("city_slug", Str(slug)); }
        if category != "" { assert q[|q| - 1] == ("categories", Str(category)); }
      }
    }
    Find(store, q)
  }

  // ---------------------------------------------------------------------------
  // Processed upsert

  /** The lookup of save_processed_places: `source_id` when present and
      truthy, else `(city_slug, name)` when both are present, else none. */
  function NaturalKey(place: Doc): (r: Option<Query>)
    ensures r.None? <==>
      && ("source_id" !in place || !Truthy(place["source_id"]))
      && ("city_slug" !in place || "name" !in place)
    ensures r.Some? ==> Matches(place, r.value)
    ensures r.Some? && "source_id" in place && Truthy(place["source_id"]) ==>
      forall d :: Matches(d, r.value) <==> MatchesField(d, "source_id", place["source_id"])
    ensures r.Some? && !("source_id" in place && Truthy(place["source_id"])) ==>
      forall d :: Matches(d, r.value) <==>
        MatchesField(d, "city_slug", place["city_slug"]) && MatchesField(d, "name", place["name"])
  {
    if "source_id" in place && Truthy(place["source_id"]) then
      var q := [("source_id", place["source_id"])];
      assert forall d :: Matches(d, q) <==> MatchesField(d, "source_id", place["source_id"]) by {
        forall d ensures Matches(d, q) <==> MatchesField(d, "source_id", place["source_id"]) {
          assert q[0] == ("source_id", place["source_id"]);
        }
      }
      Some(q)
    else if "city_slug" in place && "name" in place then
      var q := [("city_slug", place["city_slug"]), ("name", place["name"])];
      assert forall d :: Matches(d, q) <==>
        MatchesField(d, "city_slug", place["city_slug"]) && MatchesField(d, "name", place["name"]) by {
        forall d ensures Matches(d, q) <==>
          MatchesField(d, "city_slug", place["city_slug"]) && MatchesField(d, "name", place["name"]) {
          assert q[0] == ("city_slug", place["city_slug"]) && q[1] == ("name", place["name"]);
        }
      }
      Some(q)
    else None
  }

  /** A category array read as a collection; any other value counts as a
      single category. */
  function CategoryItems(v: Value): seq<Value> {
    if v.List? then v.items else [v]
  }

  predicate NoDuplicates(xs: seq<Value>) {
    forall i, j :: 0 <= i < j < |xs| ==> xs[i] != xs[j]
  }

  /** The elements of `xs` with later repetitions dropped. */
  function Distinct(xs: seq<Value>): (r: seq<Value>)
    ensures NoDuplicates(r)
    ensures forall x :: x in r <==> x in xs
    ensures |r| <= |xs|
    decreases |xs|
  {
    if xs == [] then []
    else
      var rest := Distinct(xs[..|xs| - 1]);
      if xs[|xs| - 1] in rest then rest else rest + [xs[|xs| - 1]]
  }

  /** `list(set(stored) | set(incoming))`: Python fixes no order; the model
      keeps first appearances. */
  function UnionCategories(stored: Value, incoming: Value): (r: Value)
    ensures r.List? && NoDuplicates(r.items)
    ensures forall x :: x in r.items <==> x in CategoryItems(stored) || x in CategoryItems(incoming)
  {
    List(Distinct(CategoryItems(stored) + CategoryItems(incoming)))
  }

  /** One iteration of save_processed_places: a place without a natural key
      is appended; otherwise it is `$set` onto the first match (categories
      unioned when both sides have them) or upserted as a new document. */
  function SaveProcessedOne(store: Collection, place: Doc, now: Value): (r: Step)
    ensures NaturalKey(place).None? ==> r.inserted && r.store == store + [place["updated_at" := now]]
    ensures r.inserted <==> NaturalKey(place).None? || FindFirst(store, NaturalKey(place).value).None?
    ensures r.inserted ==> r.store == store + [place["updated_at" := now]]
    ensures !r.inserted ==>
      var i := FindFirst(store, NaturalKey(place).value).value;
      var doc := place["updated_at" := now];
      && |r.store| == |store|
      && Matches(store[i], NaturalKey(place).value)
      && (forall j :: 0 <= j < |store| && j != i ==> r.store[j] == store[j])
      && r.store[i].Keys == store[i].Keys + doc.Keys
      && (forall k :: k in doc && k != "categories" ==> r.store[i][k] == doc[k])
      && (forall k :: k in store[i] && k !in doc ==> r.store[i][k] == store[i][k])
      && ("categories" in doc && "categories" in store[i] ==>
            r.store[i]["categories"] == UnionCategories(store[i]["categories"], doc["categories"]))
      && ("categories" in doc && "categories" !in store[i] ==> r.store[i]["categories"] == doc["categories"])
  {
    var doc := place["updated_at" := now];
    assert NaturalKey(doc) == NaturalKey(place);
    match NaturalKey(place)
    case None => Step(store + [doc], true)
    case Some(q) =>
      match FindFirst(store, q)
      case None => Step(store + [doc], true)
      case Some(i) =>
        var merged :=
          if "categories" in doc && "categories" in store[i]
          then doc["categories" := UnionCategories(store[i]["categories"], doc["categories"])]
          else doc;
        Step(store[i := Overlay(store[i], merged)], false)
  }

  /** One iteration leaves every record as it was, except the one it
      writes, which carries `updated_at` set to `now`. */
  lemma KeptOrStamped(store: Collection, place: Doc, now: Value)
    ensures forall d :: d in SaveProcessedOne(store, place, now).store ==>
              d in store || ("updated_at" in d && d["updated_at"] == now)
  {
    var r := SaveProcessedOne(store, place, now);
    var doc := place["updated_at" := now];
    if !r.inserted {
      var i := FindFirst(store, NaturalKey(place).value).value;
      forall d | d in r.store ensures d in store || ("updated_at" in d && d["updated_at"] == now) {
        var j :| 0 <= j < |r.store| && r.store[j] == d;
        if j == i {
          assert "updated_at" in doc && r.store[i]["updated_at"] == doc["updated_at"];
        } else {
          assert r.store[j] == store[j];
        }
      }
    }
  }

  /** The batch's places with `updated_at` set, as the loop writes them. */
  function Dated(places: seq<Doc>, now: Value): (r: seq<Doc>)
    ensures |r| == |places|
    ensures forall k :: 0 <= k < |places| ==> r[k] == places[k]["updated_at" := now]
  {
    seq(|places|, k requires 0 <= k < |places| => places[k]["updated_at" := now])
  }

  /** The loop of save_processed_places. Every record it leaves behind was
      either there before or written by this batch, stamped `now`. */
  function SaveProcessedBatch(store: Collection, places: seq<Doc>, now: Value): (r: SaveOutcome)
    ensures r.Saved?
    ensures r.inserted + r.updated == |places|
    ensures |r.store| == |store| + r.inserted
    ensures forall d :: d in r.store ==> d in store || ("updated_at" in d && d["updated_at"] == now)
    ensures (forall k :: 0 <= k < |places| ==> NaturalKey(places[k]).None?) ==>
      r == Saved(store + Dated(places, now), |places|, 0)
    decreases |places|
  {
    if places == [] then Saved(store, 0, 0)
    else
      var step := SaveProcessedOne(store, places[0], now);
      var rest := SaveProcessedBatch(step.store, places[1..], now);
      KeptOrStamped(store, places[0], now);
      DatedCons(store, places, now);
      if step.inserted then Saved(rest.store, rest.inserted + 1, rest.updated)
      else Saved(rest.store, rest.inserted, rest.updated + 1)
  }

  /** save_processed_places: with `replace` the collection is dropped before
      the first place is written, so afterwards it holds one record per
      insert, each written by this batch (ReplaceForgetsOldStore states the
      independence from the old collection). */
  function SaveProcessedPlaces(store: Collection, places: seq<Doc>, replace: bool, now: Value): (r: SaveOutcome)
    ensures r.Saved?
    ensures r.inserted + r.updated == |places|
    ensures replace ==> |r.store| == r.inserted
    ensures !replace ==> |r.store| == |store| + r.inserted
    ensures replace && places == [] ==> r.store == []
    ensures replace ==> forall d :: d in r.store ==> "updated_at" in d && d["updated_at"] == now
  {
    SaveProcessedBatch(if replace then [] else store, places, now)
  }

  // ---------------------------------------------------------------------------
  // Processed getter

  function ProcessedPlacesQuery(slug: string, category: string): Query {
    (if slug != "" then [("city_slug", Str(slug))] else [])
    + (if category != "" then [("categories", Str(category))] else [])
  }

  /** get_processed_places: no source condition; the city and the category
      filter only when given. */
  function GetProcessedPlaces(store: Collection, slug: string, category: string): (r: Collection)
    ensures forall d :: d in r <==>
      && d in store
      && (slug != "" ==> MatchesField(d, "city_slug", Str(slug)))
      && (category != "" ==> MatchesField(d, "categories", Str(category)))
    ensures forall d :: multiset(r)[d] ==
             if && (slug != "" ==> MatchesField(d, "city_slug", Str(slug)))
                && (category != "" ==> MatchesField(d, "categories", Str(category)))
             then multiset(store)[d] else 0
  {
    var q := ProcessedPlacesQuery(slug, category);
    assert forall d :: Matches(d, q) <==>
      && (slug != "" ==> MatchesField(d, "city_slug", Str(slug)))
      && (category != "" ==> MatchesField(d, "categories", Str(category)))
    by {
      forall d ensures Matches(d, q) <==>
        && (slug != "" ==> MatchesField(d, "city_slug", Str(slug)))
        && (category != "" ==> MatchesField(d, "categories", Str(category)))
      {
        if slug != "" { assert q[0] == ("city_slug", Str(slug)); }
        if category != "" { assert q[|q| - 1] == ("categories", Str(category)); }
      }
    }
    Find(store, q)
  }

  // ---------------------------------------------------------------------------
  // Laws of the raw upsert

  /** The raw lookup holds of a document exactly when it is a Google record
      with the place's id. */
  lemma MatchesRawLookup(d: Doc, place: Doc)
    requires "id" in place
    ensures Matches(d, RawLookup(place)) <==>
      MatchesField(d, "source", Str("google")) && MatchesField(d, "id", place["id"])
  {
    var q := RawLookup(place);
    assert q[0] == ("source", Str("google")) && q[1] == ("id", place["id"]);
  }

  predicate NoGoogleRecords(store: Collection) {
    forall j :: 0 <= j < |store| ==> !MatchesField(store[j], "source", Str("google"))
  }

  /** Because the lookup always asks for source 'google', a batch saved under
      any other source never finds a record, not even one it wrote itself:
      every place is inserted, so re-running a Yelp batch duplicates it. */
  lemma {:induction false} NonGoogleBatchAlwaysInserts(store: Collection, places: seq<Doc>, source: string, slug: string,
                                                       meta: CityMeta, category: string, now: Value)
    requires source != "google"
    requires NoGoogleRecords(store)
    requires forall k :: 0 <= k < |places| ==> "id" in places[k]
    ensures SaveRawBatch(store, places, source, slug, meta, category, now).Saved?
    ensures SaveRawBatch(store, places, source, slug, meta, category, now).inserted == |places|
    ensures SaveRawBatch(store, places, source, slug, meta, category, now).updated == 0
    decreases |places|
  {
    if places != [] {
      var p := places[0];
      forall j | 0 <= j < |store| ensures !Matches(store[j], RawLookup(p)) {
        MatchesRawLookup(store[j], p);
      }
      var doc := Stamp(p, source, slug, meta, category, now);
      var step := SaveRawOne(store, p, source, slug, meta, category, now);
      assert step == Ok(Step(store + [doc], true));
      assert !MatchesField(doc, "source", Str("google"));
      assert NoGoogleRecords(store + [doc]) by {
        forall j | 0 <= j < |store + [doc]| ensures !MatchesField((store + [doc])[j], "source", Str("google")) {
          if j < |store| { assert (store + [doc])[j] == store[j]; }
        }
      }
      NonGoogleBatchAlwaysInserts(store + [doc], places[1..], source, slug, meta, category, now);
    }
  }

  /** Every place has a scalar id, and no two places share one. */
  predicate DistinctScalarIds(places: seq<Doc>) {
    && (forall k :: 0 <= k < |places| ==> "id" in places[k] && !places[k]["id"].List?)
    && (forall i, j :: 0 <= i < j < |places| ==> places[i]["id"] != places[j]["id"])
  }

  function StampAll(places: seq<Doc>, source: string, slug: string, meta: CityMeta, category: string, now: Value): (r: seq<Doc>)
    ensures |r| == |places|
    ensures forall k :: 0 <= k < |places| ==> r[k] == Stamp(places[k], source, slug, meta, category, now)
  {
    seq(|places|, k requires 0 <= k < |places| => Stamp(places[k], source, slug, meta, category, now))
  }

  /** No place has a Google record in the store yet. */
  predicate NoneStored(store: Collection, places: seq<Doc>) {
    forall j, k :: 0 <= j < |store| && 0 <= k < |places| && "id" in places[k] ==> !Matches(store[j], RawLookup(places[k]))
  }

  lemma FreshStep(store: Collection, places: seq<Doc>, source: string, slug: string,
                  meta: CityMeta, category: string, now: Value)
    requires places != [] && DistinctScalarIds(places) && NoneStored(store, places)
    ensures SaveRawOne(store, places[0], source, slug, meta, category, now)
         == Ok(Step(store + [Stamp(places[0], source, slug, meta, category, now)], true))
    ensures NoneStored(store + [Stamp(places[0], source, slug, meta, category, now)], places[1..])
  {
    var doc := Stamp(places[0], source, slug, meta, category, now);
    var rest := places[1..];
    forall j, k | 0 <= j < |store + [doc]| && 0 <= k < |rest| && "id" in rest[k]
      ensures !Matches((store + [doc])[j], RawLookup(rest[k]))
    {
      MatchesRawLookup((store + [doc])[j], rest[k]);
      if j == |store| {
        assert places[0]["id"] != places[k + 1]["id"];
      } else {
        assert (store + [doc])[j] == store[j] && rest[k] == places[k + 1];
      }
    }
  }

  /** Places whose ids are distinct and unknown to the store are all
      inserted, in order, as their stamped documents. */
  lemma {:induction false} FreshIdsAreInserted(store: Collection, places: seq<Doc>, source: string, slug: string,
                                               meta: CityMeta, category: string, now: Value)
    requires DistinctScalarIds(places)
    requires NoneStored(store, places)
    ensures SaveRawBatch(store, places, source, slug, meta, category, now).Saved?
    ensures SaveRawBatch(store, places, source, slug, meta, category, now).inserted == |places|
    ensures SaveRawBatch(store, places, source, slug, meta, category, now).updated == 0
    ensures SaveRawBatch(store, places, source, slug, meta, category, now).store
         == store + StampAll(places, source, slug, meta, category, now)
    decreases |places|
  {
    if places != [] {
      var doc := Stamp(places[0], source, slug, meta, category, now);
      var rest := places[1..];
      FreshStep(store, places, source, slug, meta, category, now);
      FreshIdsAreInserted(store + [doc], rest, source, slug, meta, category, now);
      StampAllCons(store, places, source, slug, meta, category, now);
    } else {
      assert store + StampAll(places, source, slug, meta, category, now) == store;
    }
  }

  lemma StampAllCons(store: Collection, places: seq<Doc>, source: string, slug: string,
                     meta: CityMeta, category: string, now: Value)
    requires places != []
    ensures store + [Stamp(places[0], source, slug, meta, category, now)] + StampAll(places[1..], source, slug, meta, category, now)
         == store + StampAll(places, source, slug, meta, category, now)
  {
    var all := StampAll(places, source, slug, meta, category, now);
    var tail := StampAll(places[1..], source, slug, meta, category, now);
    forall k | 0 <= k < |tail| ensures all[k + 1] == tail[k] {
      assert places[1..][k] == places[k + 1];
    }
    AppendCons(store, all, tail);
  }

  lemma AppendCons<T>(prefix: seq<T>, s: seq<T>, tail: seq<T>)
    requires |s| == |tail| + 1
    requires forall k :: 0 <= k < |tail| ==> s[k + 1] == tail[k]
    ensures prefix + [s[0]] + tail == prefix + s
  {
    assert s == [s[0]] + tail;
  }

  /** Every stored record can take another category and has a scalar id. */
  predicate WellFormedRaw(store: Collection) {
    forall j :: 0 <= j < |store| ==> CategoriesOk(store[j]) && ("id" in store[j] ==> !store[j]["id"].List?)
  }

  /** A Google update rewrites only the record it found, writes the
      place's own id and source onto it, and keeps the store well formed. */
  lemma GoogleUpdateShape(store: Collection, p: Doc, slug: string, meta: CityMeta, category: string, now: Value)
    requires "id" in p && !p["id"].List?
    requires WellFormedRaw(store)
    requires FindFirst(store, RawLookup(p)).Some?
    ensures var i := FindFirst(store, RawLookup(p)).value;
      var r := SaveRawOne(store, p, "google", slug, meta, category, now);
      && r.Ok? && |r.value.store| == |store|
      && (forall j :: 0 <= j < |store| && j != i ==> r.value.store[j] == store[j])
      && "id" in r.value.store[i] && r.value.store[i]["id"] == p["id"]
      && "source" in r.value.store[i] && r.value.store[i]["source"] == Str("google")
      && WellFormedRaw(r.value.store)
  {
    var i := FindFirst(store, RawLookup(p)).value;
    var s' := SaveRawOne(store, p, "google", slug, meta, category, now).value.store;
    var doc := Stamp(p, "google", slug, meta, category, now);
    assert "id" in doc && doc["id"] == p["id"];
    var categories := AddCategory(store[i], category);
    assert categories.Ok? && categories.value.List?;
    var updated := RawUpdate(store[i], doc, categories.value);
    assert updated["id"] == p["id"] && updated["source"] == Str("google");
    assert CategoriesOk(updated);
    assert s' == store[i := updated];
    forall j | 0 <= j < |s'| ensures CategoriesOk(s'[j]) && ("id" in s'[j] ==> !s'[j]["id"].List?) {
      if j != i { assert s'[j] == store[j]; }
    }
  }

  /** So every lookup that matched a record before a Google update still
      matches one after it. */
  lemma GoogleUpdateKeepsLookups(store: Collection, p: Doc, slug: string, meta: CityMeta, category: string,
                                 now: Value, other: Doc)
    requires "id" in p && !p["id"].List? && "id" in other
    requires WellFormedRaw(store)
    requires FindFirst(store, RawLookup(p)).Some?
    requires exists j :: 0 <= j < |store| && Matches(store[j], RawLookup(other))
    ensures SaveRawOne(store, p, "google", slug, meta, category, now).Ok?
    ensures WellFormedRaw(SaveRawOne(store, p, "google", slug, meta, category, now).value.store)
    ensures var s' := SaveRawOne(store, p, "google", slug, meta, category, now).value.store;
      exists j :: 0 <= j < |s'| && Matches(s'[j], RawLookup(other))
  {
    var i := FindFirst(store, RawLookup(p)).value;
    GoogleUpdateShape(store, p, slug, meta, category, now);
    var s' := SaveRawOne(store, p, "google", slug, meta, category, now).value.store;
    var j :| 0 <= j < |store| && Matches(store[j], RawLookup(other));
    MatchesRawLookup(store[j], other);
    MatchesRawLookup(s'[j], other);
    if j == i {
      MatchesRawLookup(store[i], p);
      assert MatchesField(s'[i], "id", other["id"]);
    } else {
      assert s'[j] == store[j];
    }
  }

  /** Every place has a scalar id and a stored Google record with that id. */
  predicate AllStored(store: Collection, places: seq<Doc>) {
    forall k :: 0 <= k < |places| ==>
      && "id" in places[k] && !places[k]["id"].List?
      && exists j :: 0 <= j < |store| && Matches(store[j], RawLookup(places[k]))
  }

  lemma GoogleStepKeepsAllStored(store: Collection, places: seq<Doc>, slug: string, meta: CityMeta,
                                 category: string, now: Value)
    requires places != []
    requires WellFormedRaw(store) && AllStored(store, places)
    ensures SaveRawOne(store, places[0], "google", slug, meta, category, now).Ok?
    ensures !SaveRawOne(store, places[0], "google", slug, meta, category, now).value.inserted
    ensures WellFormedRaw(SaveRawOne(store, places[0], "google", slug, meta, category, now).value.store)
    ensures AllStored(SaveRawOne(store, places[0], "google", slug, meta, category, now).value.store, places[1..])
  {
    var p := places[0];
    var rest := places[1..];
    GoogleUpdateKeepsLookups(store, p, slug, meta, category, now, p);
    forall k | 0 <= k < |rest|
      ensures exists j :: 0 <= j < |SaveRawOne(store, p, "google", slug, meta, category, now).value.store|
                       && Matches(SaveRawOne(store, p, "google", slug, meta, category, now).value.store[j], RawLookup(rest[k]))
    {
      assert rest[k] == places[k + 1];
      GoogleUpdateKeepsLookups(store, p, slug, meta, category, now, rest[k]);
    }
  }

  /** Places whose Google records are all already stored are all updated:
      nothing is inserted and the collection keeps its size. */
  lemma {:induction false} KnownIdsAreUpdated(store: Collection, places: seq<Doc>, slug: string,
                                              meta: CityMeta, category: string, now: Value)
    requires WellFormedRaw(store) && AllStored(store, places)
    ensures SaveRawBatch(store, places, "google", slug, meta, category, now).Saved?
    ensures SaveRawBatch(store, places, "google", slug, meta, category, now).inserted == 0
    ensures SaveRawBatch(store, places, "google", slug, meta, category, now).updated == |places|
    ensures |SaveRawBatch(store, places, "google", slug, meta, category, now).store| == |store|
    decreases |places|
  {
    if places != [] {
      GoogleStepKeepsAllStored(store, places, slug, meta, category, now);
      var step := SaveRawOne(store, places[0], "google", slug, meta, category, now).value;
      KnownIdsAreUpdated(step.store, places[1..], slug, meta, category, now);
      var r := SaveRawBatch(step.store, places[1..], "google", slug, meta, category, now);
      assert SaveRawBatch(store, places, "google", slug, meta, category, now) == Saved(r.store, r.inserted, r.updated + 1);
    }
  }

  /** The first run's documents are well formed and hold every place. */
  lemma StampedBatchIsStored(places: seq<Doc>, slug: string, meta: CityMeta, category: string, now: Value)
    requires DistinctScalarIds(places)
    requires forall k :: 0 <= k < |places| ==> CategoriesOk(places[k])
    ensures WellFormedRaw(StampAll(places, "google", slug, meta, category, now))
    ensures AllStored(StampAll(places, "google", slug, meta, category, now), places)
  {
    var first := StampAll(places, "google", slug, meta, category, now);
    forall j | 0 <= j < |first| ensures CategoriesOk(first[j]) && ("id" in first[j] ==> !first[j]["id"].List?) {
      assert first[j]["id"] == places[j]["id"];
    }
    forall k | 0 <= k < |places|
      ensures "id" in places[k] && !places[k]["id"].List?
      ensures exists j :: 0 <= j < |first| && Matches(first[j], RawLookup(places[k]))
    {
      MatchesRawLookup(first[k], places[k]);
      assert first[k]["id"] == places[k]["id"] && first[k]["source"] == Str("google");
      assert Matches(first[k], RawLookup(places[k]));
    }
  }

  /** Re-running raw ingestion with identical Google output: the first run
      on an empty collection inserts every place, the second updates every
      place and inserts none, and the document count does not change. */
  lemma GoogleIngestionIsRestartable(places: seq<Doc>, slug: string, meta: CityMeta, category: string,
                                     now1: Value, now2: Value)
    requires DistinctScalarIds(places)
    requires forall k :: 0 <= k < |places| ==> CategoriesOk(places[k])
    ensures SaveRawBatch([], places, "google", slug, meta, category, now1).Saved?
    ensures SaveRawBatch([], places, "google", slug, meta, category, now1).inserted == |places|
    ensures SaveRawBatch([], places, "google", slug, meta, category, now1).updated == 0
    ensures var first := SaveRawBatch([], places, "google", slug, meta, category, now1).store;
      var second := SaveRawBatch(first, places, "google", slug, meta, category, now2);
      second.Saved? && second.inserted == 0 && second.updated == |places| && |second.store| == |first|
  {
    FreshIdsAreInserted([], places, "google", slug, meta, category, now1);
    var first := StampAll(places, "google", slug, meta, category, now1);
    assert [] + first == first;
    StampedBatchIsStored(places, slug, meta, category, now1);
    KnownIdsAreUpdated(first, places, slug, meta, category, now2);
  }

  /** Ingesting the same place under one category and then under another
      leaves a single record listing both, in that order. */
  lemma CategoriesAccumulate(store: Collection, place: Doc, slug: string, meta: CityMeta,
                             first: string, second: string, now1: Value, now2: Value)
    requires "id" in place && !place["id"].List? && "categories" !in place
    requires forall j :: 0 <= j < |store| ==> !Matches(store[j], RawLookup(place))
    requires first != second
    ensures SaveRawOne(store, place, "google", slug, meta, first, now1).Ok?
    ensures var s1 := SaveRawOne(store, place, "google", slug, meta, first, now1).value.store;
      var r := SaveRawOne(s1, place, "google", slug, meta, second, now2);
      && r.Ok? && !r.value.inserted
      && |r.value.store| == |store| + 1
      && r.value.store[..|store|] == store
      && r.value.store[|store|]["categories"] == List([Str(first), Str(second)])
  {
    var doc := Stamp(place, "google", slug, meta, first, now1);
    var s1 := store + [doc];
    var q := RawLookup(place);
    assert SaveRawOne(store, place, "google", slug, meta, first, now1) == Ok(Step(s1, true));
    assert doc["id"] == place["id"];
    MatchesRawLookup(doc, place);
    assert Matches(s1[|store|], q);
    forall j | 0 <= j < |store| ensures !Matches(s1[j], q) { assert s1[j] == store[j]; }
    assert FindFirst(s1, q) == Some(|store|);
    assert doc["categories"] == List([Str(first)]);
    assert Str(second) !in [Str(first)];
    var cats := List([Str(first), Str(second)]);
    assert Get(doc, "categories", List([])) == List([Str(first)]);
    assert !Holds(List([Str(first)]), second);
    assert [Str(first)] + [Str(second)] == [Str(first), Str(second)];
    assert AddCategory(doc, second) == Ok(cats);
    var updated := RawUpdate(doc, Stamp(place, "google", slug, meta, second, now2), cats);
    var r := SaveRawOne(s1, place, "google", slug, meta, second, now2);
    assert r == Ok(Step(s1[|store| := updated], false));
    assert r.value.store[..|store|] == store;
  }

  // ---------------------------------------------------------------------------
  // Laws of the processed upsert

  /** A place with a natural key, once saved, is found again by that key:
      saving it a second time updates the same document and inserts nothing. */
  lemma KeyedPlaceIsUpdatedOnResave(store: Collection, place: Doc, now1: Value, now2: Value)
    requires NaturalKey(place).Some?
    ensures var s1 := SaveProcessedOne(store, place, now1).store;
      var r := SaveProcessedOne(s1, place, now2);
      !r.inserted && |r.store| == |s1|
  {
    var q := NaturalKey(place).value;
    var step := SaveProcessedOne(store, place, now1);
    var doc := place["updated_at" := now1];
    var written: nat := if step.inserted then |store| else FindFirst(store, q).value;
    assert written < |step.store|;
    var d := step.store[written];
    assert forall k :: k in place && k != "categories" && k != "updated_at" ==> k in d && d[k] == place[k];
    assert Matches(d, q) by {
      forall m | 0 <= m < |q| ensures MatchesField(d, q[m].0, q[m].1) {
        assert q[m].0 in place && q[m].0 != "categories" && q[m].0 != "updated_at";
        assert q[m].1 == place[q[m].0];
      }
    }
  }

  /** With `replace` the collection is dropped before the first write, so
      what it holds afterwards does not depend on what it held before. */
  lemma ReplaceForgetsOldStore(store1: Collection, store2: Collection, places: seq<Doc>, now: Value)
    ensures SaveProcessedPlaces(store1, places, true, now) == SaveProcessedPlaces(store2, places, true, now)
  {
  }

  /** The place is looked up by its `source_id`, a truthy scalar. */
  predicate SourceKeyed(place: Doc) {
    "source_id" in place && Truthy(place["source_id"]) && !place["source_id"].List?
  }

  /** Every place is looked up by its `source_id`, and no two places share one. */
  predicate DistinctSourceIds(places: seq<Doc>) {
    && (forall k :: 0 <= k < |places| ==> SourceKeyed(places[k]))
    && (forall i, j :: 0 <= i < j < |places| ==> places[i]["source_id"] != places[j]["source_id"])
  }

  /** No stored record matches the `source_id` of any place. */
  predicate NoneKeyed(store: Collection, places: seq<Doc>) {
    forall j, k :: 0 <= j < |store| && 0 <= k < |places| && "source_id" in places[k] ==>
      !MatchesField(store[j], "source_id", places[k]["source_id"])
  }

  lemma FreshKeyStep(store: Collection, places: seq<Doc>, now: Value)
    requires places != [] && DistinctSourceIds(places) && NoneKeyed(store, places)
    ensures SaveProcessedOne(store, places[0], now) == Step(store + [places[0]["updated_at" := now]], true)
    ensures NoneKeyed(store + [places[0]["updated_at" := now]], places[1..])
  {
    var p := places[0];
    var doc := p["updated_at" := now];
    var q := NaturalKey(p).value;
    assert FindFirst(store, q).None?;
    var rest := places[1..];
    forall j, k | 0 <= j < |store + [doc]| && 0 <= k < |rest| && "source_id" in rest[k]
      ensures !MatchesField((store + [doc])[j], "source_id", rest[k]["source_id"])
    {
      assert rest[k] == places[k + 1];
      if j == |store| {
        assert doc["source_id"] == p["source_id"] != places[k + 1]["source_id"];
      } else {
        assert (store + [doc])[j] == store[j];
      }
    }
  }

  /** Places whose `source_id`s are distinct and unknown to the store are
      all inserted, in order, each with `updated_at` set. */
  lemma {:induction false} FreshSourceIdsAreInserted(store: Collection, places: seq<Doc>, now: Value)
    requires DistinctSourceIds(places)
    requires NoneKeyed(store, places)
    ensures SaveProcessedBatch(store, places, now) == Saved(store + Dated(places, now), |places|, 0)
    decreases |places|
  {
    if places != [] {
      var doc := places[0]["updated_at" := now];
      var rest := places[1..];
      FreshKeyStep(store, places, now);
      DistinctSourceIdsTail(places);
      FreshSourceIdsAreInserted(store + [doc], rest, now);
      DatedCons(store, places, now);
    } else {
      assert store + Dated(places, now) == store;
    }
  }

  lemma DistinctSourceIdsTail(places: seq<Doc>)
    requires places != [] && DistinctSourceIds(places)
    ensures DistinctSourceIds(places[1..])
  {
    var rest := places[1..];
    forall i, j | 0 <= i < j < |rest| ensures rest[i]["source_id"] != rest[j]["source_id"] {
      assert rest[i] == places[i + 1] && rest[j] == places[j + 1];
    }
  }

  lemma DatedCons(store: Collection, places: seq<Doc>, now: Value)
    requires places != []
    ensures store + [places[0]["updated_at" := now]] + Dated(places[1..], now) == store + Dated(places, now)
  {
  }

  /** Every place is looked up by its `source_id`, and some stored record
      carries that very value as its own `source_id`. */
  predicate AllKeyed(store: Collection, places: seq<Doc>) {
    forall k :: 0 <= k < |places| ==>
      && SourceKeyed(places[k])
      && exists j :: 0 <= j < |store| && "source_id" in store[j] && store[j]["source_id"] == places[k]["source_id"]
  }

  /** Updating the first place's record writes its `source_id` back onto a
      record that already held it, so every later place keeps a record. */
  lemma KeyedStepKeepsAllKeyed(store: Collection, places: seq<Doc>, now: Value)
    requires places != [] && AllKeyed(store, places)
    ensures !SaveProcessedOne(store, places[0], now).inserted
    ensures |SaveProcessedOne(store, places[0], now).store| == |store|
    ensures AllKeyed(SaveProcessedOne(store, places[0], now).store, places[1..])
  {
    var p := places[0];
    var q := NaturalKey(p).value;
    var step := SaveProcessedOne(store, p, now);
    var j0 :| 0 <= j0 < |store| && "source_id" in store[j0] && store[j0]["source_id"] == p["source_id"];
    assert Matches(store[j0], q);
    var i := FindFirst(store, q).value;
    assert MatchesField(store[i], "source_id", p["source_id"]);
    var rest := places[1..];
    forall k | 0 <= k < |rest|
      ensures exists j :: 0 <= j < |step.store| && "source_id" in step.store[j] && step.store[j]["source_id"] == rest[k]["source_id"]
    {
      assert rest[k] == places[k + 1];
      var j :| 0 <= j < |store| && "source_id" in store[j] && store[j]["source_id"] == rest[k]["source_id"];
      if j == i {
        assert rest[k]["source_id"] == p["source_id"];
        assert step.store[i]["source_id"] == p["source_id"];
      } else {
        assert step.store[j] == store[j];
      }
    }
  }

  /** Places whose `source_id`s all have a stored record are all updated:
      nothing is inserted and the collection keeps its size. */
  lemma {:induction false} KnownSourceIdsAreUpdated(store: Collection, places: seq<Doc>, now: Value)
    requires AllKeyed(store, places)
    ensures SaveProcessedBatch(store, places, now).inserted == 0
    ensures SaveProcessedBatch(store, places, now).updated == |places|
    ensures |SaveProcessedBatch(store, places, now).store| == |store|
    decreases |places|
  {
    if places != [] {
      KeyedStepKeepsAllKeyed(store, places, now);
      var step := SaveProcessedOne(store, places[0], now);
      KnownSourceIdsAreUpdated(step.store, places[1..], now);
    }
  }

  /** Saving a batch with fresh, distinct `source_id`s appends it; saving
      the same batch again updates every place and inserts nothing. */
  lemma ProcessedResaveUpdates(store: Collection, places: seq<Doc>, now1: Value, now2: Value)
    requires DistinctSourceIds(places)
    requires NoneKeyed(store, places)
    ensures var first := SaveProcessedBatch(store, places, now1);
      var second := SaveProcessedBatch(first.store, places, now2);
      && first == Saved(store + Dated(places, now1), |places|, 0)
      && second.inserted == 0 && second.updated == |places|
      && |second.store| == |first.store|
  {
    FreshSourceIdsAreInserted(store, places, now1);
    var stored := store + Dated(places, now1);
    forall k | 0 <= k < |places|
      ensures exists j :: 0 <= j < |stored| && "source_id" in stored[j] && stored[j]["source_id"] == places[k]["source_id"]
    {
      assert stored[|store| + k] == places[k]["updated_at" := now1];
    }
    KnownSourceIdsAreUpdated(stored, places, now2);
  }
}
