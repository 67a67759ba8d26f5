/** The Google Places collector: a text search paged by `next_page_token`,
    truncated to the requested maximum, enriched place by place from the
    details endpoint and saved raw. Both endpoints are parameters: a
    function from the request parameters to the decoded JSON body, `None`
    when the request raised. */
module GoogleCollector {
  import opened Docs
  import opened Collecting
  import MongoUtils

  /** The `--type` choices the command line accepts. */
  const ValidPlaceTypes: seq<string> := [
    "amusement_park", "art_gallery", "bowling_alley", "escape_room", "gym", "spa",
    "psychologist", "health", "park", "museum", "movie_theater"
  ]

  /** The parameters of one text-search request: `type` only for a
      non-empty type, `pagetoken` only for a truthy token. */
  function SearchParams(query: string, placeType: string, pageToken: Value, apiKey: string): (r: Doc)
    ensures "query" in r && r["query"] == Str(query)
    ensures "key" in r && r["key"] == Str(apiKey)
    ensures "type" in r <==> placeType != ""
    ensures "type" in r ==> r["type"] == Str(placeType)
    ensures "pagetoken" in r <==> Truthy(pageToken)
    ensures "pagetoken" in r ==> r["pagetoken"] == pageToken
    ensures r.Keys <= {"query", "key", "type", "pagetoken"}
  {
    var withQuery := map["query" := Str(query), "key" := Str(apiKey)];
    var withType := if placeType != "" then withQuery["type" := Str(placeType)] else withQuery;
    if Truthy(pageToken) then withType["pagetoken" := pageToken] else withType
  }

  /** The loop stops on a response whose status is not 'OK' or that has no
      `results`. */
  predicate Stops(response: Doc) {
    Get(response, "status", Null) != Str("OK") || "results" !in response
  }

  /** The places a response contributes to the collection. */
  function PageItems(response: Option<Doc>): seq<Value> {
    if response.Some? && !Stops(response.value) && response.value["results"].List?
    then response.value["results"].items
    else []
  }

  function NextToken(response: Option<Doc>): Value {
    if response.Some? then Get(response.value, "next_page_token", Null) else Null
  }

  function Answers(search: Doc -> Option<Doc>, requests: seq<Doc>): (r: seq<seq<Value>>)
    ensures |r| == |requests|
    ensures forall i :: 0 <= i < |requests| ==> r[i] == PageItems(search(requests[i]))
  {
    seq(|requests|, i requires 0 <= i < |requests| => PageItems(search(requests[i])))
  }

  /** The answer let the loop go on: it was 'OK', had a list of results
      and carried a next token that can be sliced for printing. */
  predicate GoesOn(response: Option<Doc>) {
    && response.Some? && !Stops(response.value) && response.value["results"].List?
    && Truthy(NextToken(response)) && TokenSliceable(NextToken(response))
  }

  /** `next` was sent because the answer to `prev` went on, and carries
      that answer's token. */
  predicate Follows(search: Doc -> Option<Doc>, query: string, placeType: string, apiKey: string, prev: Doc, next: Doc) {
    GoesOn(search(prev)) && next == SearchParams(query, placeType, NextToken(search(prev)), apiKey)
  }

  /** Every request after the first follows the one before it. */
  predicate Chained(search: Doc -> Option<Doc>, query: string, placeType: string, apiKey: string, requests: seq<Doc>) {
    forall i :: 0 < i < |requests| ==> Follows(search, query, placeType, apiKey, requests[i - 1], requests[i])
  }

  lemma ChainedCons(search: Doc -> Option<Doc>, query: string, placeType: string, apiKey: string,
                    request: Doc, requests: seq<Doc>)
    requires Chained(search, query, placeType, apiKey, requests)
    requires requests != [] ==> Follows(search, query, placeType, apiKey, request, requests[0])
    ensures Chained(search, query, placeType, apiKey, [request] + requests)
  {
    var all := [request] + requests;
    forall i | 0 < i < |all|
      ensures Follows(search, query, placeType, apiKey, all[i - 1], all[i])
    {
      assert all[i] == requests[i - 1];
      if i > 1 { assert all[i - 1] == requests[i - 2]; }
    }
  }

  /** `page_token[:10]` is printed before every request that carries a
      token: a truthy token that is not a string or a list cannot be sliced. */
  predicate TokenSliceable(token: Value) {
    !Truthy(token) || token.Str? || token.List?
  }

  /** How the answer to the last request sent ended the loop, `gathered`
      places being collected by then: a missing answer is dereferenced, an
      answer that is not 'OK' or has no results stops it quietly, results
      that are not a list cannot be extended with, no next token or enough
      places stop it quietly, a token that cannot be sliced raises, and
      otherwise the request budget ran out. */
  predicate EndedBy(search: Doc -> Option<Doc>, requests: seq<Doc>, gathered: int, maxResults: int,
                    failure: Option<Error>)
    requires requests != []
  {
    var last := search(requests[|requests| - 1]);
    if last.None? then failure == Some(NoResponse)
    else if Stops(last.value) then failure.None?
    else if !last.value["results"].List? then failure == Some(WrongType("results"))
    else if !Truthy(NextToken(last)) || gathered >= maxResults then failure.None?
    else if !TokenSliceable(NextToken(last)) then failure == Some(WrongType("next_page_token"))
    else failure == Some(OutOfFuel)
  }

  /** Every request was sent while fewer than `maxResults` places were
      gathered, `count` of them before the first. */
  predicate SentBelow(search: Doc -> Option<Doc>, count: int, maxResults: int, requests: seq<Doc>) {
    forall i :: 0 <= i < |requests| ==> count + |Flatten(Answers(search, requests[..i]))| < maxResults
  }

  lemma SentBelowCons(search: Doc -> Option<Doc>, count: int, maxResults: int, request: Doc, rest: seq<Doc>)
    requires count < maxResults
    requires SentBelow(search, count + |PageItems(search(request))|, maxResults, rest)
    ensures SentBelow(search, count, maxResults, [request] + rest)
  {
    var items := PageItems(search(request));
    var all := [request] + rest;
    forall i | 0 <= i < |all|
      ensures count + |Flatten(Answers(search, all[..i]))| < maxResults
    {
      if i == 0 {
        assert all[..0] == [];
      } else {
        assert all[..i] == [request] + rest[..i - 1];
        assert Answers(search, all[..i]) == [items] + Answers(search, rest[..i - 1]);
        FlattenCons(items, Answers(search, rest[..i - 1]));
      }
    }
  }

  /** A page that went on, followed by the exchange its token started. */
  lemma ConsPage(search: Doc -> Option<Doc>, query: string, placeType: string, apiKey: string,
                 maxResults: int, count: int, request: Doc, rest: Exchange)
    requires rest.requests != [] ==> GoesOn(search(request))
    requires count + |PageItems(search(request))| < maxResults
    requires rest.places == Flatten(Answers(search, rest.requests))
    requires Chained(search, query, placeType, apiKey, rest.requests)
    requires SentBelow(search, count + |PageItems(search(request))|, maxResults, rest.requests)
    requires rest.requests != [] ==> rest.requests[0] == SearchParams(query, placeType, NextToken(search(request)), apiKey)
    requires rest.requests != [] ==>
      EndedBy(search, rest.requests, count + |PageItems(search(request))| + |rest.places|, maxResults, rest.failure)
    ensures PageItems(search(request)) + rest.places == Flatten(Answers(search, [request] + rest.requests))
    ensures Chained(search, query, placeType, apiKey, [request] + rest.requests)
    ensures SentBelow(search, count, maxResults, [request] + rest.requests)
    ensures rest.requests != [] ==>
      EndedBy(search, [request] + rest.requests, count + |PageItems(search(request)) + rest.places|, maxResults, rest.failure)
  {
    var items := PageItems(search(request));
    assert Answers(search, [request] + rest.requests) == [items] + Answers(search, rest.requests);
    FlattenCons(items, Answers(search, rest.requests));
    ChainedCons(search, query, placeType, apiKey, request, rest.requests);
    SentBelowCons(search, count, maxResults, request, rest.requests);
    if rest.requests != [] {
      assert ([request] + rest.requests)[|rest.requests|] == rest.requests[|rest.requests| - 1];
    }
  }

  /** A single page that ended the loop. */
  lemma LastPage(search: Doc -> Option<Doc>, count: int, maxResults: int, request: Doc)
    requires count < maxResults
    ensures Flatten(Answers(search, [request])) == PageItems(search(request))
    ensures SentBelow(search, count, maxResults, [request])
  {
    assert Answers(search, [request]) == [PageItems(search(request))];
    FlattenCons(PageItems(search(request)), []);
    assert [request][..0] == [];
  }

  /** The `while` loop of collect_data, `count` being `len(all_places)`.
      Each request costs one unit of fuel: the API could hand out page
      tokens forever. */
  function Pages(search: Doc -> Option<Doc>, query: string, placeType: string, apiKey: string, maxResults: int,
                 count: int, token: Value, fuel: nat): (r: Exchange)
    ensures r.requests == [] <==> count >= maxResults || !TokenSliceable(token) || fuel == 0
    ensures r.requests == [] ==> r.places == []
    ensures r.requests == [] ==> r.failure == (if count >= maxResults then None
                                               else if !TokenSliceable(token) then Some(WrongType("next_page_token"))
                                               else Some(OutOfFuel))
    ensures r.requests != [] ==> r.requests[0] == SearchParams(query, placeType, token, apiKey)
    ensures r.places == Flatten(Answers(search, r.requests))
    ensures Chained(search, query, placeType, apiKey, r.requests)
    ensures SentBelow(search, count, maxResults, r.requests)
    ensures |r.requests| <= fuel
    ensures r.requests != [] ==> EndedBy(search, r.requests, count + |r.places|, maxResults, r.failure)
    ensures r.failure == Some(OutOfFuel) ==> |r.requests| == fuel
    decreases fuel
  {
    if count >= maxResults then Exchange([], [], None)
    else if !TokenSliceable(token) then Exchange([], [], Some(WrongType("next_page_token")))
    else if fuel == 0 then Exchange([], [], Some(OutOfFuel))
    else
      var request := SearchParams(query, placeType, token, apiKey);
      var response := search(request);
      LastPage(search, count, maxResults, request);
      if response.None? then Exchange([], [request], Some(NoResponse))
      else if Stops(response.value) then Exchange([], [request], None)
      else if !response.value["results"].List? then Exchange([], [request], Some(WrongType("results")))
      else
        var items := response.value["results"].items;
        var next := Get(response.value, "next_page_token", Null);
        if !Truthy(next) || count + |items| >= maxResults then Exchange(items, [request], None)
        else
          var rest := Pages(search, query, placeType, apiKey, maxResults, count + |items|, next, fuel - 1);
          ConsPage(search, query, placeType, apiKey, maxResults, count, request, rest);
          Exchange(items + rest.places, [request] + rest.requests, rest.failure)
  }

  /** collect_data: the query is "<type> in <location>", the first request
      has no page token, and the places gathered are cut to `maxResults`.
      The loop ends as the last answer says, and no request is sent once
      `maxResults` places are gathered. */
  function CollectData(search: Doc -> Option<Doc>, location: string, placeType: string, apiKey: string,
                       maxResults: int, fuel: nat): (r: Exchange)
    ensures maxResults <= 0 ==> r == Exchange([], [], None)
    ensures maxResults > 0 && fuel == 0 ==> r == Exchange([], [], Some(OutOfFuel))
    ensures |r.places| <= (if maxResults < 0 then 0 else maxResults)
    ensures r.places == Slice(Flatten(Answers(search, r.requests)), maxResults)
    ensures maxResults > 0 && fuel > 0 ==>
      r.requests != [] && r.requests[0] == SearchParams(placeType + " in " + location, placeType, Null, apiKey)
      && "pagetoken" !in r.requests[0]
    ensures forall i :: 0 <= i < |r.requests| ==>
      "query" in r.requests[i] && r.requests[i]["query"] == Str(placeType + " in " + location)
    ensures Chained(search, placeType + " in " + location, placeType, apiKey, r.requests)
    ensures SentBelow(search, 0, maxResults, r.requests)
    ensures |r.requests| <= fuel
    ensures r.requests != [] ==>
      EndedBy(search, r.requests, |Flatten(Answers(search, r.requests))|, maxResults, r.failure)
    ensures r.failure == Some(OutOfFuel) ==> |r.requests| == fuel
  {
    var query := placeType + " in " + location;
    var exchange := Pages(search, query, placeType, apiKey, maxResults, 0, Null, fuel);
    var requests := exchange.requests;
    assert forall i :: 0 <= i < |requests| ==> "query" in requests[i] && requests[i]["query"] == Str(query) by {
      forall i | 0 <= i < |requests| ensures "query" in requests[i] && requests[i]["query"] == Str(query) {
        if i > 0 {
          assert Follows(search, query, placeType, apiKey, requests[i - 1], requests[i]);
        }
      }
    }
    Exchange(Slice(exchange.places, maxResults), requests, exchange.failure)
  }

  /** A request that raised is dereferenced as None: the collector crashes
      instead of stopping. */
  lemma FailedSearchAborts(search: Doc -> Option<Doc>, location: string, placeType: string, apiKey: string,
                           maxResults: int, fuel: nat)
    requires maxResults > 0 && fuel > 0
    requires search(SearchParams(placeType + " in " + location, placeType, Null, apiKey)).None?
    ensures CollectData(search, location, placeType, apiKey, maxResults, fuel).failure == Some(NoResponse)
  {
  }

  /** A single 'OK' page without a next token is collected whole, and the
      loop ends there without an exception. */
  lemma OnePageIsCollected(search: Doc -> Option<Doc>, location: string, placeType: string, apiKey: string,
                           maxResults: int, fuel: nat, place: Value)
    requires maxResults > 0 && fuel > 0
    requires search(SearchParams(placeType + " in " + location, placeType, Null, apiKey))
          == Some(map["status" := Str("OK"), "results" := List([place])])
    ensures CollectData(search, location, placeType, apiKey, maxResults, fuel)
         == Exchange([place], [SearchParams(placeType + " in " + location, placeType, Null, apiKey)], None)
  {
  }

  /** One iteration of enrich_data: the place overlaid with the `result`
      of an 'OK' details answer, or the place itself when the request
      failed or the answer was not 'OK'. */
  function EnrichPlace(details: Value -> Option<Doc>, place: Value): (r: Result<Doc>)
    ensures r.Ok? <==> place.Obj? && "name" in place.fields && "place_id" in place.fields
                       && !UnmergeableDetails(details(place.fields["place_id"]))
    ensures r.Err? && place.Obj? && "name" in place.fields && "place_id" in place.fields ==> r == Err(WrongType("result"))
    ensures r.Ok? ==> place.fields.Keys <= r.value.Keys
    ensures !place.Obj? ==> r == Err(WrongType("place"))
    ensures place.Obj? && "name" !in place.fields ==> r == Err(MissingKey("name"))
    ensures place.Obj? && "name" in place.fields && "place_id" !in place.fields ==> r == Err(MissingKey("place_id"))
    ensures r.Ok? && DetailsResult(details(place.fields["place_id"])).None? ==> r.value == place.fields
    ensures r.Ok? && DetailsResult(details(place.fields["place_id"])).Some? ==>
      var result := DetailsResult(details(place.fields["place_id"])).value;
      && r.value == Overlay(place.fields, result)
      && (forall k :: k in result ==> k in r.value && r.value[k] == result[k])
      && (forall k :: k in place.fields && k !in result ==> r.value[k] == place.fields[k])
  {
    if !place.Obj? then Err(WrongType("place"))
    else if "name" !in place.fields then Err(MissingKey("name"))
    else if "place_id" !in place.fields then Err(MissingKey("place_id"))
    else
      var response := details(place.fields["place_id"]);
      if response.Some? && response.value != map[] && Get(response.value, "status", Null) == Str("OK")
         && "result" in response.value then
        if response.value["result"].Obj? then Ok(Overlay(place.fields, response.value["result"].fields))
        else Err(WrongType("result"))
      else Ok(place.fields)
  }

  /** An 'OK' answer whose `result` is not a dictionary: `{**place, **details}`
      raises on it. */
  predicate UnmergeableDetails(response: Option<Doc>) {
    response.Some? && response.value != map[] && Get(response.value, "status", Null) == Str("OK")
    && "result" in response.value && !response.value["result"].Obj?
  }

  /** The details that are merged in: a dictionary `result` of an 'OK'
      answer. */
  function DetailsResult(response: Option<Doc>): Option<Doc> {
    if response.Some? && response.value != map[] && Get(response.value, "status", Null) == Str("OK")
       && "result" in response.value && response.value["result"].Obj?
    then Some(response.value["result"].fields)
    else None
  }

  /** enrich_data: one details request per place, in order. */
  function EnrichData(details: Value -> Option<Doc>, places: seq<Value>): (r: Result<seq<Doc>>)
    ensures r.Ok? ==> |r.value| == |places|
    ensures r.Ok? ==> forall i :: 0 <= i < |places| ==> EnrichPlace(details, places[i]) == Ok(r.value[i])
    ensures r.Ok? <==> forall i :: 0 <= i < |places| ==> EnrichPlace(details, places[i]).Ok?
  {
    MapAll(place => EnrichPlace(details, place), places)
  }

  /** When every details request fails, enrichment hands the places back
      unchanged. */
  lemma FailedDetailsKeepPlaces(details: Value -> Option<Doc>, places: seq<Value>)
    requires forall v :: details(v).None?
    requires EnrichData(details, places).Ok?
    ensures forall i :: 0 <= i < |places| ==> places[i].Obj? && EnrichData(details, places).value[i] == places[i].fields
  {
  }

  /** main: the type is one of the choices; without an API key nothing
      happens; the city must exist, the location is read from it before
      any request, an exception of the paging loop ends the run, nothing
      is written when no place is found, and otherwise the enriched places
      are saved under source 'google' and the type as category. */
  function Run(cities: Collection, store: Collection, slug: string, placeType: string, maxResults: int,
               apiKey: string, search: Doc -> Option<Doc>, details: Value -> Option<Doc>, now: Value,
               fuel: nat): (r: Result<MongoUtils.SaveOutcome>)
    ensures placeType !in ValidPlaceTypes ==> r == Err(InvalidChoice(placeType))
    ensures placeType in ValidPlaceTypes && apiKey == "" ==> r == Ok(MongoUtils.Saved(store, 0, 0))
    ensures placeType in ValidPlaceTypes && apiKey != "" && MongoUtils.ValidateCity(cities, slug).None? ==>
      r == Err(CityNotFound(slug))
    ensures placeType in ValidPlaceTypes && apiKey != "" && MongoUtils.ValidateCity(cities, slug).Some? ==>
      var city := MongoUtils.ValidateCity(cities, slug).value;
      && (Location(city).Err? ==> r == Err(Location(city).error))
      && (Location(city).Ok? && CollectData(search, Location(city).value, placeType, apiKey, maxResults, fuel).failure.Some? ==>
            r == Err(CollectData(search, Location(city).value, placeType, apiKey, maxResults, fuel).failure.value))
    ensures r.Ok? <==> (
      && placeType in ValidPlaceTypes
      && (apiKey != "" ==>
            && MongoUtils.ValidateCity(cities, slug).Some?
            && var city := MongoUtils.ValidateCity(cities, slug).value;
            && Location(city).Ok?
            && var e := CollectData(search, Location(city).value, placeType, apiKey, maxResults, fuel);
            && e.failure.None?
            && (e.places == [] || EnrichData(details, e.places).Ok?)))
    ensures r.Ok? && apiKey != "" ==> var location := Location(MongoUtils.ValidateCity(cities, slug).value).value;
      var found := CollectData(search, location, placeType, apiKey, maxResults, fuel).places;
      && (found == [] ==> r.value == MongoUtils.Saved(store, 0, 0))
      && (found != [] ==> r.value == MongoUtils.SaveRawPlaces(cities, store, EnrichData(details, found).value,
                                                               "google", slug, placeType, now))
  {
    if placeType !in ValidPlaceTypes then Err(InvalidChoice(placeType))
    else if apiKey == "" then Ok(MongoUtils.Saved(store, 0, 0))
    else
      match MongoUtils.ValidateCity(cities, slug)
      case None => Err(CityNotFound(slug))
      case Some(city) =>
        var location :- Location(city);
        var exchange := CollectData(search, location, placeType, apiKey, maxResults, fuel);
        if exchange.failure.Some? then Err(exchange.failure.value)
        else if exchange.places == [] then Ok(MongoUtils.Saved(store, 0, 0))
        else
          var enriched :- EnrichData(details, exchange.places);
          Ok(MongoUtils.SaveRawPlaces(cities, store, enriched, "google", slug, placeType, now))
  }
}
