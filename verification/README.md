# Data collection for mental-health resource places, in Dafny

This project models the data-collection core of a small Python pipeline.
The pipeline gathers places that may help mental health, such as parks,
museums, gyms, yoga studios and therapists, for US cities. It has five
parts:

- **The city fetcher** (`simple_city_fetcher.py`) geocodes a city name.
  It stores a city document keyed by a slug made from the name alone.
- **The Google collector** (`google_places_collector.py`) pages through
  the Google Places text search by page token. It enriches each place
  with the details endpoint, then saves the places raw.
- **The Yelp collector** (`yelp_collector.py`) pages through the Yelp
  business search by offset and limit. It enriches and saves in the
  same way.
- **The store operations** (`mongo_utils.py`) provide:
  - `validate_city`;
  - the raw upsert `save_raw_places`, keyed by `(source 'google', id)`,
    which accumulates categories;
  - the processed upsert `save_processed_places`, keyed by `source_id`,
    else by `(city_slug, name)`;
  - the two filtered getters.
- **The combiner** (`combine_data.py`) loads raw Google records,
  normalises each into the common place shape, removes duplicates by
  `(name, coordinates)` and inserts the result into the processed
  collection.

The model has these parts:

- **Documents and collections.** A document is a `map<string, Value>`
  over a small JSON-like `Value` type. A collection is a sequence of
  documents in insertion order. `find_one` is the first document that
  matches a filter, and `find` keeps the matching documents in order.
  A filter matches a field as MongoDB does: equal to the value, or, for
  an array field, holding the value.
- **Operations.** Each operation is a pure function. It takes the
  collections it reads and returns the collections it writes.
- **Exceptions.** An exception becomes an `Err` of a `Result`. An
  exception raised partway through a batch becomes an `Aborted` outcome
  that keeps the writes already made.
- **HTTP endpoints.** Each endpoint is a function parameter from the
  request parameters to the decoded answer. `None` stands for a request
  that raised. Each collector returns an `Exchange`: the places it
  gathered, the exact requests it sent, and the exception that ended the
  loop, if one did. Contracts can therefore speak about the query, the
  token chain and the offsets, and can say which answer made the loop
  stop or fail.
- **Clock and ObjectId.** The clock is a `now` parameter. The ObjectId
  the database assigns to a new city is an `id` parameter.

Modules:

- `Docs`: values, documents, filters, `Result`.
- `Collecting`: what both collectors share.
- `MongoUtils`, `CombineData`, `GoogleCollector`, `YelpCollector`,
  `Cities`: one module per source file.
- `Pipeline`: what happens when the scripts are run one after another.

## Model

| member | source | states |
|---|---|---|
| MongoUtils.ValidateCity | src/data_collection/mongo_utils.py:50-61 | a city is returned exactly when some stored city has the slug, and the one returned is a stored city with that slug |
| MongoUtils.CityMetadata | src/data_collection/mongo_utils.py:97-100 | the copied city fields are read only when `_id`, `name`, `state` and `state_code` are all present; otherwise the error names a missing key |
| MongoUtils.Stamp | src/data_collection/mongo_utils.py:94-106 | the written place carries the source, the city slug and the four city fields; categories become `[category]` only when the place has none; `updated_at` is refreshed; every other field of the place is kept |
| MongoUtils.AddCategory | src/data_collection/mongo_utils.py:116-123 | Python `in` decides whether the category is present: membership in a list, a substring of a string, a key of a dict. Present categories are written back unchanged, whatever their type. A missing category is appended to a list or to absent categories, which keeps the stored ones as a prefix and adds no repeat. A string or dict lacking it, or a value `in` cannot search, is an error |
| MongoUtils.SubstringCategoryCountsAsPresent | src/data_collection/mongo_utils.py:116-120 | a stored string `"restaurants"` already holds the category `restaurant` and is kept; a stored string without it cannot be appended to |
| MongoUtils.RawUpdate | src/data_collection/mongo_utils.py:123-126 | a `$set` update: every incoming field overwrites, fields only on the stored record survive, and the categories are the accumulated ones |
| MongoUtils.SaveRawOne | src/data_collection/mongo_utils.py:93-131 | a place without `id` fails; a place whose id no Google record has is always inserted; otherwise the first such record is updated in place, which succeeds exactly when its categories can take the category |
| MongoUtils.SaveRawBatch | src/data_collection/mongo_utils.py:90-133 | inserted plus updated equals the batch size; the store grows by the inserted count; every record written carries the run's source and city fields; the only possible failures are a missing id or stored categories that cannot take the category |
| MongoUtils.SaveRawPlaces | src/data_collection/mongo_utils.py:63-133 | an unknown slug fails before any write with the store unchanged; a city lacking a copied field fails before the first write; on success the counts add up and every new or changed record carries this city |
| MongoUtils.GetRawPlaces | src/data_collection/mongo_utils.py:135-155 | a record is returned exactly when it is stored, its source is `google`, its city slug matches when a slug is given, and its categories contain the category when one is given; each such record is returned as many times as it is stored |
| MongoUtils.Distinct | src/data_collection/mongo_utils.py:214-216 | no repeats, the same members as the input, and no longer than the input |
| MongoUtils.UnionCategories | src/data_collection/mongo_utils.py:211-216 | the merged categories are a list without repeats, and their members are exactly those of the stored and the incoming categories |
| MongoUtils.NaturalKey | src/data_collection/mongo_utils.py:192-202 | there is no key exactly when `source_id` is absent or falsy and `city_slug` or `name` is missing; a place matches its own key; the key matches the records with the same `source_id` when that is truthy, and otherwise those with the same `city_slug` and `name` |
| MongoUtils.SaveProcessedOne | src/data_collection/mongo_utils.py:188-228 | a place without a natural key is appended; otherwise it is inserted exactly when no record matches its key, else the first match is updated field-wise with categories unioned and every other record left alone |
| MongoUtils.SaveProcessedBatch | src/data_collection/mongo_utils.py:185-230 | always succeeds; inserted plus updated equals the batch size; the store grows by the inserted count; every record afterwards was either stored before or written by this batch with `updated_at` set to its time; a batch with no natural keys is appended whole, each place with `updated_at` set |
| MongoUtils.SaveProcessedPlaces | src/data_collection/mongo_utils.py:157-230 | with `replace` the store afterwards has one record per insert, every one written by this batch (stamped with its `updated_at`), so an empty batch empties it; without `replace` the store grows by the inserted count |
| MongoUtils.ReplaceForgetsOldStore | src/data_collection/mongo_utils.py:176-183 | with `replace` the outcome is the same whatever the collection held before, because it is dropped before any write |
| MongoUtils.FreshSourceIdsAreInserted | src/data_collection/mongo_utils.py:188-228 | places with distinct truthy scalar `source_id`s that no stored record matches are all upserted as new documents: the store becomes the old store followed by the places, each with `updated_at` set, all counted as inserted |
| MongoUtils.KnownSourceIdsAreUpdated | src/data_collection/mongo_utils.py:188-228 | places whose truthy scalar `source_id`s each equal some stored record's `source_id` are all updated: nothing is inserted and the collection keeps its size |
| MongoUtils.ProcessedResaveUpdates | src/data_collection/mongo_utils.py:157-230 | saving a batch with fresh distinct `source_id`s appends it; saving the same batch again updates every place and inserts nothing |
| MongoUtils.GetProcessedPlaces | src/data_collection/mongo_utils.py:232-252 | a record is returned exactly when it is stored and matches the city slug and the category whenever these are given, as many times as it is stored; there is no source condition |
| MongoUtils.MatchesRawLookup | src/data_collection/mongo_utils.py:109 | the raw lookup matches a record exactly when the record is a Google record with the place's id |
| MongoUtils.NonGoogleBatchAlwaysInserts | src/data_collection/mongo_utils.py:109-131 | a batch saved under any source other than `google`, into a store with no Google records, inserts every place and updates none |
| MongoUtils.FreshIdsAreInserted | src/data_collection/mongo_utils.py:93-131 | places with distinct scalar ids unknown to the store are all inserted, in order, each stamped |
| MongoUtils.KnownIdsAreUpdated | src/data_collection/mongo_utils.py:109-127 | when every place's id already has a Google record, the batch updates every place, inserts none and leaves the store size unchanged |
| MongoUtils.GoogleIngestionIsRestartable | src/data_collection/mongo_utils.py:63-133 | ingesting a Google batch with distinct ids into an empty store inserts all of it; ingesting the same batch again updates all of it and adds no record |
| MongoUtils.CategoriesAccumulate | src/data_collection/mongo_utils.py:103-126 | the same place ingested under one category and then another leaves one record whose categories are both, in that order |
| MongoUtils.KeyedPlaceIsUpdatedOnResave | src/data_collection/mongo_utils.py:192-228 | a place with a natural key, saved twice, is updated the second time and the store does not grow |
| CombineData.Dollars | src/data_collection/combine_data.py:46 | `'$' * n` has `n` dollar signs for positive `n` and is empty otherwise |
| CombineData.NormalizeGoogle | src/data_collection/combine_data.py:34-96 | well-shaped records always normalise. The price has as many `$` as the level. The location is `[lng, lat]`, with 0 for missing levels. The record is closed exactly when the status is `CLOSED_PERMANENTLY`. The source is `google` with the place id. The categories are the types joined with `", "`, and the category is the first type, or empty for no types. Name, address, phone, website, rating, review count, hours, photo reference and the six city fields are copied, with their defaults when absent. Both timestamps are `now` |
| CombineData.NormalizesExactlyWhenWellShaped | src/data_collection/combine_data.py:43-85 | a record normalises exactly when it is well-shaped: a falsy, integer or boolean price level; dicts for geometry, its location and the opening hours; types that are a list of strings, a string or an empty dict; and, when photos are truthy, a list whose first element is a dict |
| CombineData.StringTypesAreSplit | src/data_collection/combine_data.py:56-85 | a `types` string `park` is joined character by character: the categories are `p, a, r, k` and the category is `p` |
| CombineData.EmptyRecordNormalizesToDefaults | src/data_collection/combine_data.py:37-96 | a record with no fields normalises to the documented defaults, such as empty strings, rating 0.0, count 0 and coordinates `[0, 0]` |
| CombineData.TypesBecomeCategories | src/data_collection/combine_data.py:56-57 | any well-shaped place whose types are `["park", "museum"]` normalises, with the category `park` and the categories `park, museum` |
| CombineData.FloatZeroPriceIsNoTier | src/data_collection/combine_data.py:43-46 | a price level of 0.0 is falsy and gives an empty price, not an error |
| CombineData.StoredCoordinatesAreLngLat | src/data_collection/combine_data.py:49-50 | the stored GeoJSON point is `{"type": "Point", "coordinates": [lng, lat]}`, longitude first |
| CombineData.NormalizeAll | src/data_collection/combine_data.py:124 | the batch normalises exactly when every record does, and then record by record in order |
| CombineData.FirstOccurrences | src/data_collection/combine_data.py:98-110 | the reference meaning of de-duplication: no two results share a `(name, coordinates)` key, every key of the input survives, and nothing is added |
| CombineData.Deduplicate | src/data_collection/combine_data.py:98-110 | the loop with a `seen` set computes exactly the first occurrences |
| CombineData.FirstOccurrencesIsSubsequence | src/data_collection/combine_data.py:103-108 | de-duplication keeps records in their original order and only drops some |
| CombineData.FirstOccurrencesKeepsFirsts | src/data_collection/combine_data.py:105-108 | a record is kept exactly when no earlier record has its key |
| CombineData.DistinctKeysAreKept | src/data_collection/combine_data.py:103-108 | a batch without repeated keys passes through unchanged |
| CombineData.DeduplicationIsIdempotent | src/data_collection/combine_data.py:98-110 | de-duplicating twice is the same as de-duplicating once |
| CombineData.LoadRaw | src/data_collection/combine_data.py:18-32 | a raw record is loaded exactly when its source is `google`, its city slug matches when one is given, and its singular `category` field matches when one is given; it is loaded as many times as it is stored |
| CombineData.CategoryFilterSkipsRecordsWithoutCategory | src/data_collection/combine_data.py:26-27 | with a category given, a raw record that has no `category` field is never loaded |
| CombineData.Combine | src/data_collection/combine_data.py:112-143 | nothing loaded leaves the processed store untouched, even with `replace`; it fails exactly when some loaded record cannot be normalised; otherwise the de-duplicated normalised records are appended, to an emptied store under `replace` |
| CombineData.CombineTwiceAppendsTwice | src/data_collection/combine_data.py:138-141 | without `replace`, combining the same raw data again appends the same records again, because stored records are never looked up |
| Collecting.Location | src/data_collection/google_places_collector.py:217-218 | the location is `"<name>, <state_code>"`, and it exists exactly when both fields are present strings; a missing name, then a missing state code, is the error |
| GoogleCollector.SearchParams | src/data_collection/google_places_collector.py:54-63 | the request always has the query and key; it has `type` exactly when a type is given and `pagetoken` exactly when the token is truthy; it has no other parameter |
| GoogleCollector.Pages | src/data_collection/google_places_collector.py:118-141 | no request once enough places are gathered, so every request is sent with fewer than `max` gathered. The first request carries the current token. The places are the pages' results in order. Each later request carries the token of the answer before it, and that answer went on: it was `OK`, its results were a list, and its next token was truthy and could be sliced. The exception that ends the loop is the one its last answer calls for: none after a stop; a missing answer is dereferenced; results that are not a list cannot be extended with; a token that cannot be sliced raises; or the fuel ran out after `fuel` requests |
| GoogleCollector.CollectData | src/data_collection/google_places_collector.py:99-144 | every request has query `"<type> in <location>"`, and the first has no token. Each later request carries the next token of an `OK` answer with a list of results and a truthy, sliceable token. No request is sent once `max_results` places are gathered. The result is the pages' results cut to `max_results`. The loop fails exactly as its last answer calls for and otherwise returns normally; `max_results <= 0` sends nothing |
| GoogleCollector.FailedSearchAborts | src/data_collection/google_places_collector.py:127-130 | a first request that raised makes collection fail rather than stop |
| GoogleCollector.OnePageIsCollected | src/data_collection/google_places_collector.py:118-144 | a single `OK` page without a next token is collected whole, and the loop returns normally after one request |
| GoogleCollector.EnrichPlace | src/data_collection/google_places_collector.py:158-172 | a place is enriched exactly when it has `name` and `place_id` and the answer is not an `OK` one with a non-dict `result`. The result is the place overlaid with the details `result` of an `OK` answer, details keys winning. Any other answer leaves the place as it was |
| GoogleCollector.EnrichData | src/data_collection/google_places_collector.py:146-177 | enrichment succeeds exactly when every place can be enriched, and then keeps the order and length |
| GoogleCollector.FailedDetailsKeepPlaces | src/data_collection/google_places_collector.py:170-172 | when every details request fails, the places come back unchanged |
| GoogleCollector.Run | src/data_collection/google_places_collector.py:196-230 | an invalid type is rejected; without an API key nothing happens; an unknown city fails; the location is read before any request; an exception of the paging loop is the run's error. The run gets as far as the save exactly when the type is valid and, given a key, the city and location exist, paging returns normally and any places found can be enriched. No places means no write; otherwise the outcome is that of saving the enriched places raw under `google` and the type, which can still be `Aborted` with the writes already made, where the script crashes |
| YelpCollector.SearchParams | src/data_collection/yelp_collector.py:61-67 | a search request has exactly `location`, `categories`, `limit`, `offset` and `sort_by = best_match`, with the given limit and offset |
| YelpCollector.PagesPaged | src/data_collection/yelp_collector.py:114-134 | the first request asks for `min(50, max - count)` at the current offset. The places are the pages' businesses in order. The pages are contiguous, each asking for 1 to 50, and every page but the last is full. When fewer than `max` were gathered, the last answer was missing, had no businesses, or was short. There are at most `max - count` requests. The loop fails, with a type error, exactly when its last answer had businesses that are not a list |
| YelpCollector.PagesSentBelow | src/data_collection/yelp_collector.py:114-134 | every request of the loop asks for the same location and category, is sent while fewer than `max` businesses are gathered, and asks for `min(50, max - gathered)` |
| YelpCollector.SentBelowAt | src/data_collection/yelp_collector.py:114-134 | request by request: the `i`-th request was sent with fewer than `max` businesses gathered by the requests before it, and asked for `min(50, max - gathered)` |
| YelpCollector.OffsetsFromFullPages | src/data_collection/yelp_collector.py:126-131 | when the pages are contiguous, every page but the last is full, and no page is longer than it asked for, each request's offset is the number of businesses gathered before it |
| YelpCollector.CollectData | src/data_collection/yelp_collector.py:98-137 | `max <= 0` sends nothing; otherwise the first request is `limit = min(50, max)`, `offset = 0`. The result is the pages' businesses cut to `max`. When fewer were found, the last answer stopped the loop. Collection returns normally exactly when the last answer's businesses, if truthy, are a list |
| YelpCollector.CollectDataRequest | src/data_collection/yelp_collector.py:110-134 | each request of collect_data was sent with fewer than `max` businesses gathered before it, for the given location and category, with `limit = min(50, max - gathered)` |
| YelpCollector.CollectDataOffsets | src/data_collection/yelp_collector.py:110-134 | the pages are contiguous from offset 0, each asking for 1 to 50; when no page held more than it asked for, each offset is the number of businesses gathered before it |
| YelpCollector.FailedSearchStops | src/data_collection/yelp_collector.py:117-121 | a first request that raised ends collection after that one request, with no businesses and no failure |
| YelpCollector.ShortPageIsCollected | src/data_collection/yelp_collector.py:114-137 | a page shorter than it asked for is collected whole, and the loop returns normally after one request |
| YelpCollector.EnrichBusiness | src/data_collection/yelp_collector.py:151-163 | a business is enriched exactly when it has `name` and `id`. A non-empty details answer is overlaid on it, details keys winning. A failed or empty answer leaves it unchanged |
| YelpCollector.EnrichData | src/data_collection/yelp_collector.py:139-168 | enrichment succeeds exactly when every business can be enriched, and then keeps the order and length |
| YelpCollector.FailedDetailsKeepBusinesses | src/data_collection/yelp_collector.py:155-163 | when every details request fails or answers empty, the businesses come back unchanged |
| YelpCollector.EnrichedBusinessesHaveIds | src/data_collection/yelp_collector.py:155-160 | every enriched business still has an `id` for the raw lookup |
| YelpCollector.Run | src/data_collection/yelp_collector.py:187-221 | as for Google, with the category as filter and stored category, saved under source `yelp`: the run gets as far as the save exactly when the category is valid and, given a key, the city and location exist, paging returns normally and any businesses found can be enriched; the save itself can still be `Aborted` |
| Cities.Slugify | src/data_collection/simple_city_fetcher.py:95 | the slug has the name's length; spaces become `-` and ASCII capitals become lower case, position by position |
| Cities.SlugifyMakesSlugs | src/data_collection/simple_city_fetcher.py:95 | a slug has no spaces and no capitals |
| Cities.SlugifyIsIdempotent | src/data_collection/simple_city_fetcher.py:95 | slugifying a slug gives it back |
| Cities.SlugIgnoresCaseAndSpaces | src/data_collection/simple_city_fetcher.py:95 | `New York` and `new-york` collide on one slug |
| Cities.FetchAndAddCity | src/data_collection/simple_city_fetcher.py:54-124 | a failed request or an empty answer adds nothing and returns no slug. An existing slug is reported, with that slug, exactly when the geocoder gave a usable first result and the slug is already stored. A city is added exactly when the first result is usable, the slug is free, and both coordinates convert. On success exactly one city is appended, with the slug, name, country, `[lon, lat]` of the first result and no `state_code` |
| Cities.AddedCityIsFound | src/data_collection/simple_city_fetcher.py:48 | after a city is added, `validate_city` finds it under the returned slug, and slugs that were unique stay unique |
| Pipeline.FetchedCityCannotBeCollected | src/data_collection/mongo_utils.py:100 | a freshly fetched city cannot be collected for: `save_raw_places` and both collectors fail on the missing `state_code` |
| Pipeline.GooglePlacesWithoutIdAreNotSaved | src/data_collection/mongo_utils.py:109 | a Google run whose first enriched place has no `id` aborts on it and writes nothing |
| Pipeline.YelpRunsAlwaysInsert | src/data_collection/mongo_utils.py:109-131 | with no Google records stored, a successful Yelp run inserts every business and updates none |

## Behaviour worth knowing

These properties of the code as written are proved by the lemmas named.

- **A fetched city has no `state_code`.** The city fetcher never writes
  `state_code`. Both collectors and `save_raw_places` read it before
  doing anything else. A fetched city therefore has to be completed by
  other means before it can be collected for
  (`Pipeline.FetchedCityCannotBeCollected`).
- **Google places are stored under `id`, but Google uses `place_id`.**
  The raw lookup reads `place['id']`, while Google text-search results
  carry `place_id`. An enriched Google place without an `id` field makes
  the save fail at that place (`Pipeline.GooglePlacesWithoutIdAreNotSaved`).
- **Yelp records never match the raw lookup.** The lookup always asks
  for source `google`. Yelp records therefore never match, and a Yelp
  run over a store that holds no Google records inserts every place
  afresh (`MongoUtils.NonGoogleBatchAlwaysInserts`,
  `Pipeline.YelpRunsAlwaysInsert`). If the store does hold Google
  records, a Yelp place whose `id` equals one of theirs updates that
  Google record instead. Idempotent re-ingestion holds only
  for Google batches whose places have ids
  (`MongoUtils.GoogleIngestionIsRestartable`).
- **The combiner filters on the wrong field.** It filters raw records on
  the singular field `category`, which raw ingestion never writes.
  Combining with a category therefore loads only records that obtained
  such a field elsewhere
  (`CombineData.CategoryFilterSkipsRecordsWithoutCategory`).
- **The combiner never merges with stored records.** It inserts without
  a lookup, so a second run without `replace` duplicates its records
  (`CombineData.CombineTwiceAppendsTwice`).
- **A failed Google search crashes.** A Google search request that
  raised is dereferenced as `None`, so the collector crashes
  (`GoogleCollector.FailedSearchAborts`). The Yelp collector stops
  cleanly in the same situation (`YelpCollector.FailedSearchStops`).

Other details of the code that the model follows:

- **De-duplication key.** It is the exact pair (name, `[lng, lat]`).
- **The Google page token is printed sliced.** Before each request with
  a token, `page_token[:10]` is printed, and a token that is not a
  string or a list raises there.
- **Normalisation can fail.** The normaliser can raise on malformed
  shapes. A truthy price level that is neither an integer nor a bool is one
  example. A falsy one such as 0.0, `None` or `""` gives no dollar
  signs, and `True` gives one. A
  `types` value that is neither a list of strings, a string nor an
  empty dict is another: `', '.join` takes a dict of strings, but
  `types[0]` then looks up a key it does not have. Such a failure
  aborts the whole combine before any write.
- **Raw lookup and updates.** Raw records have no unique
  `(source, id)` index. The lookup always uses source `google`. A raw
  update is a `$set`, so fields that only the stored record has survive.

## Left out

- **Not modelled.** The MongoDB client, database and collection getters
  are not modelled. Neither are environment and `.env` configuration,
  HTTP headers, sleeps between requests, printing, argument parsing
  beyond the `choices` check, and `sys.exit`. These are I/O and have no
  effect on the data.
- **Index creation.** Indexes are not modelled, including the 2dsphere
  indexes. Only the uniqueness of city slugs is kept, as the invariant
  `Cities.UniqueSlugs`.
- **Floats are opaque.** Ratings, coordinates and `float(lon)` /
  `float(lat)` are opaque values compared only for equality. The one
  float with a known value is 0.0, the only falsy one. A coordinate that
  `float` cannot convert is modelled as an error only for `None`, lists
  and dicts.
- **One `now` per call.** `datetime.now()` is a single `now` value per
  call. `created_at` and `updated_at`, and the timestamps of the places
  in one batch, are therefore equal in the model.
- **Endpoints are functions.** Each HTTP endpoint is a deterministic
  function of its request. Retries, rate limits and answers that change
  over time are not modelled.
- **The database assigns ids.** The ObjectId `_id` is given only for the
  city the fetcher inserts. Raw and processed inserts do not model the
  `_id` they would receive.
- **`add_cities.py`, `add_city.py` and the places API test script.**
  They are thin wrappers around HTTP and `fetch_and_add_city`.
- GoogleCollector.Pages: the loop carries a `fuel` bound, and running
  out is the error `OutOfFuel`. The source loop has no bound: an API that
  returns a next token with every page, and no places at all, would make
  it loop forever.
- Collecting.Location: an f-string formats any value. The model requires
  `name` and `state_code` to be strings and treats any other value as an
  error.
- CombineData.NormalizeGoogle: a non-empty dict of types fails at
  `types[0]` with a `KeyError`. The model reports it, like the other
  shape errors, as `WrongType("types")`.
- CombineData.FirstOccurrences: a de-duplication key holding an
  unhashable value, such as a list name, raises `TypeError` in Python.
  The model compares such keys for equality instead.
- CombineData.FirstOccurrences: Python compares numbers by value, so a
  float coordinate equal to an integer one, such as 0.0 and the default
  0, gives the same key. Floats are opaque in the model, so such keys
  differ there and both records are kept.
- MongoUtils.UnionCategories: Python builds a `set` and lists it, so the
  order of the merged categories is unspecified. A string value is
  iterated character by character. The model states only the members
  and the absence of repeats, and it reads a non-list value as a single
  category. `set(...)` raises `TypeError` on unhashable elements, such as
  a dict or a list among the categories; the model merges them like any
  other value.
- GoogleCollector.Pages: `all_places.extend(results['results'])` also
  accepts a dict, extending by its keys, or a string, extending by its
  characters. The model treats any non-list `results` as an error.
- YelpCollector.PagesPaged: the same holds for `businesses`. The model
  treats a dict or a string there as an error.
- Cities.Slugify: `str.lower()` is modelled on ASCII letters only.
