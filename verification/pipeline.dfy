/** How the scripts fit together: what one writes, the next one reads. */
module Pipeline {
  import opened Docs
  import opened Collecting
  import MongoUtils
  import Cities
  import GoogleCollector
  import YelpCollector

  /** The city document the fetcher writes has no `state_code`, and both
      collectors read `city['state_code']` before sending any request, as
      does save_raw_places before its first write: a freshly fetched city
      cannot be collected for until `state_code` is added by other means. */
  lemma FetchedCityCannotBeCollected(cities: Collection, geocode: Doc -> Option<Value>, cityName: string,
                                     country: string, id: Value, now: Value, store: Collection,
                                     places: seq<Doc>, source: string, category: string,
                                     placeType: string, maxResults: int, search: Doc -> Option<Doc>,
                                     details: Value -> Option<Doc>, fuel: nat, apiKey: string)
    requires Cities.FetchAndAddCity(cities, geocode, cityName, country, id, now).Added?
    requires apiKey != ""
    requires places != []
    requires placeType in GoogleCollector.ValidPlaceTypes && category in YelpCollector.ValidCategories
    ensures var fetched := Cities.FetchAndAddCity(cities, geocode, cityName, country, id, now);
      && MongoUtils.SaveRawPlaces(fetched.cities, store, places, source, fetched.slug, category, now)
         == MongoUtils.Aborted(store, MissingKey("state_code"))
      && GoogleCollector.Run(fetched.cities, store, fetched.slug, placeType, maxResults, apiKey, search, details, now, fuel)
         == Err(MissingKey("state_code"))
      && YelpCollector.Run(fetched.cities, store, fetched.slug, category, maxResults, apiKey, search, details, now)
         == Err(MissingKey("state_code"))
  {
    var fetched := Cities.FetchAndAddCity(cities, geocode, cityName, country, id, now);
    Cities.AddedCityIsFound(cities, geocode, cityName, country, id, now);
    var city := fetched.cities[|cities|];
    assert MongoUtils.ValidateCity(fetched.cities, fetched.slug) == Some(city);
    assert MongoUtils.CityMetadata(city) == Err(MissingKey("state_code"));
    assert Location(city) == Err(MissingKey("state_code"));
  }

  /** Google text-search results identify a place by `place_id`, while
      save_raw_places looks places up by `id`: when the first enriched
      place has no `id`, a Google run that found places aborts on it and
      writes nothing. */
  lemma GooglePlacesWithoutIdAreNotSaved(cities: Collection, store: Collection, slug: string, placeType: string,
                                         maxResults: int, apiKey: string, search: Doc -> Option<Doc>,
                                         details: Value -> Option<Doc>, now: Value, fuel: nat)
    requires apiKey != ""
    requires GoogleCollector.Run(cities, store, slug, placeType, maxResults, apiKey, search, details, now, fuel).Ok?
    requires var city := MongoUtils.ValidateCity(cities, slug).value;
      && MongoUtils.CityMetadata(city).Ok?
      && Location(city).Ok?
      && var found := GoogleCollector.CollectData(search, Location(city).value, placeType, apiKey, maxResults, fuel).places;
      && found != []
      && "id" !in GoogleCollector.EnrichData(details, found).value[0]
    ensures GoogleCollector.Run(cities, store, slug, placeType, maxResults, apiKey, search, details, now, fuel).value
         == MongoUtils.Aborted(store, MissingKey("id"))
  {
  }

  /** A Yelp run whose businesses all get saved inserts every one of them,
      even businesses stored by an earlier Yelp run: the raw lookup only
      ever matches Google records. */
  lemma YelpRunsAlwaysInsert(cities: Collection, store: Collection, slug: string, category: string,
                             maxResults: int, apiKey: string, search: Doc -> Option<Doc>,
                             details: Value -> Option<Doc>, now: Value)
    requires apiKey != ""
    requires YelpCollector.Run(cities, store, slug, category, maxResults, apiKey, search, details, now).Ok?
    requires MongoUtils.CityMetadata(MongoUtils.ValidateCity(cities, slug).value).Ok?
    requires MongoUtils.NoGoogleRecords(store)
    ensures var r := YelpCollector.Run(cities, store, slug, category, maxResults, apiKey, search, details, now).value;
      r.Saved? && r.updated == 0 && |r.store| == |store| + r.inserted
  {
    var city := MongoUtils.ValidateCity(cities, slug).value;
    var found := YelpCollector.CollectData(search, Location(city).value, category, maxResults).places;
    if found != [] {
      var enriched := YelpCollector.EnrichData(details, found).value;
      YelpCollector.EnrichedBusinessesHaveIds(details, found);
      var meta := MongoUtils.CityMetadata(city).value;
      MongoUtils.NonGoogleBatchAlwaysInserts(store, enriched, "yelp", slug, meta, category, now);
    }
  }
}
