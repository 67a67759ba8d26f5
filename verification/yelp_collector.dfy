/** The Yelp Fusion collector: a business search paged by offset in pages
    of at most 50, truncated to the requested maximum, enriched business
    by business and saved raw under source 'yelp'. Both endpoints are
    parameters, `None` standing for a request that raised. */
module YelpCollector {
  import opened Docs
  import opened Collecting
  import MongoUtils

  /** The `--category` choices the command line accepts. */
  const ValidCategories: seq<string> := [
    "escapegames", "arcades", "meditationcenters", "yoga", "psychologists", "therapists",
    "martialarts", "boxing", "parks", "museums", "artclasses"
  ]

  /** Yelp returns at most 50 businesses per request. */
  const PageLimit := 50

  /** The parameters of one business search: exactly these five, ranked
      by best match. */
  function SearchParams(location: string, category: string, limit: int, offset: int): (r: Doc)
    ensures r.Keys == {"location", "categories", "limit", "offset", "sort_by"}
    ensures r["location"] == Str(location) && r["categories"] == Str(category)
    ensures LimitOf(r) == limit && OffsetOf(r) == offset
    ensures r["sort_by"] == Str("best_match")
  {
    map["location" := Str(location), "categories" := Str(category), "limit" := Int(limit),
        "offset" := Int(offset), "sort_by" := Str("best_match")]
  }

  /** The page size of the next request, `count` businesses being gathered. */
  function PageSize(maxResults: int, count: int): int {
    Min(PageLimit, maxResults - count)
  }

  /** A response ends the loop when it is missing, empty, or has no
      (or an empty) `businesses`. */
  predicate Stops(response: Option<Doc>) {
    response.None? || response.value == map[] || "businesses" !in response.value
    || !Truthy(response.value["businesses"])
  }

  /** A truthy `businesses` that is not a list: extending the gathered
      list with it raises. */
  predicate Malformed(response: Option<Doc>) {
    !Stops(response) && !response.value["businesses"].List?
  }

  function PageItems(response: Option<Doc>): seq<Value> {
    if !Stops(response) && response.value["businesses"].List? then response.value["businesses"].items else []
  }

  function Answers(search: Doc -> Option<Doc>, requests: seq<Doc>): (r: seq<seq<Value>>)
    ensures |r| == |requests|
    ensures forall i :: 0 <= i < |requests| ==> r[i] == PageItems(search(requests[i]))
  {
    seq(|requests|, i requires 0 <= i < |requests| => PageItems(search(requests[i])))
  }

  function LimitOf(request: Doc): int {
    if "limit" in request && request["limit"].Int? then request["limit"].i else 0
  }

  function OffsetOf(request: Doc): int {
    if "offset" in request && request["offset"].Int? then request["offset"].i else 0
  }

  /** Every request asks for between 1 and 50 businesses, and each page
      starts where the one before it ended. */
  predicate Contiguous(requests: seq<Doc>) {
    && (forall i :: 0 <= i < |requests| ==> 1 <= LimitOf(requests[i]) <= PageLimit)
    && (forall i, j {:trigger requests[i], requests[j]} :: 0 <= i < |requests| && 0 <= j < |requests| && j == i + 1 ==>
          OffsetOf(requests[j]) == OffsetOf(requests[i]) + LimitOf(requests[i]))
  }

  lemma ContiguousCons(request: Doc, requests: seq<Doc>)
    requires 1 <= LimitOf(request) <= PageLimit
    requires Contiguous(requests)
    requires requests != [] ==> OffsetOf(requests[0]) == OffsetOf(request) + LimitOf(request)
    ensures Contiguous([request] + requests)
  {
    var all := [request] + requests;
    forall i | 0 < i < |all|
      ensures OffsetOf(all[i]) == OffsetOf(all[i - 1]) + LimitOf(all[i - 1])
    {
      assert all[i] == requests[i - 1];
      if i > 1 { assert all[i - 1] == requests[i - 2]; }
    }
    assert forall i :: 0 < i < |all| ==> all[i] == requests[i - 1];
  }

  /** Every page held no more businesses than it asked for. */
  predicate WithinLimits(search: Doc -> Option<Doc>, requests: seq<Doc>) {
    forall i :: 0 <= i < |requests| ==> |PageItems(search(requests[i]))| <= LimitOf(requests[i])
  }

  /** Each request's offset is `start` plus the businesses gathered before it. */
  predicate OffsetsCount(search: Doc -> Option<Doc>, start: int, requests: seq<Doc>) {
    forall i :: 0 <= i < |requests| ==> OffsetOf(requests[i]) == start + |Flatten(Answers(search, requests[..i]))|
  }

  /** The answer to the last request sent ended the paging: it was missing
      or had no businesses, or its page was short. */
  predicate LastSaysStop(search: Doc -> Option<Doc>, requests: seq<Doc>)
    requires requests != []
  {
    var last := requests[|requests| - 1];
    Stops(search(last)) || |PageItems(search(last))| < LimitOf(last)
  }

  /** Every page but the last held at least as many businesses as it
      asked for: a short page ends the loop. */
  predicate FullPages(search: Doc -> Option<Doc>, requests: seq<Doc>) {
    forall i :: 0 <= i < |requests| - 1 ==> |PageItems(search(requests[i]))| >= LimitOf(requests[i])
  }

  /** The properties the offsets depend on hold of the pages after the first. */
  lemma TailPages(search: Doc -> Option<Doc>, requests: seq<Doc>)
    requires |requests| > 1
    requires Contiguous(requests) && FullPages(search, requests) && WithinLimits(search, requests)
    ensures Contiguous(requests[1..]) && FullPages(search, requests[1..]) && WithinLimits(search, requests[1..])
    ensures OffsetOf(requests[1]) == OffsetOf(requests[0]) + |PageItems(search(requests[0]))|
  {
    var rest := requests[1..];
    assert forall i :: 0 <= i < |rest| ==> rest[i] == requests[i + 1];
    forall i | 0 < i < |rest|
      ensures OffsetOf(rest[i]) == OffsetOf(rest[i - 1]) + LimitOf(rest[i - 1])
    {
      assert rest[i] == requests[i + 1] && rest[i - 1] == requests[i];
    }
  }

  /** Offsets count the businesses before them, one page further back. */
  lemma OffsetsCons(search: Doc -> Option<Doc>, start: int, request: Doc, rest: seq<Doc>)
    requires OffsetOf(request) == start
    requires rest != [] ==> OffsetsCount(search, start + |PageItems(search(request))|, rest)
    ensures OffsetsCount(search, start, [request] + rest)
  {
    var items := PageItems(search(request));
    var all := [request] + rest;
    forall i | 0 <= i < |all|
      ensures OffsetOf(all[i]) == start + |Flatten(Answers(search, all[..i]))|
    {
      if i == 0 {
        assert all[..0] == [];
      } else {
        assert all[i] == rest[i - 1];
        assert all[..i] == [request] + rest[..i - 1];
        assert Answers(search, all[..i]) == [items] + Answers(search, rest[..i - 1]);
        FlattenCons(items, Answers(search, rest[..i - 1]));
      }
    }
  }

  /** When pages are contiguous, every page but the last is full and no
      page is longer than asked for, each request's offset is the number
      of businesses gathered before it. */
  lemma {:induction false} OffsetsFromFullPages(search: Doc -> Option<Doc>, start: int, requests: seq<Doc>)
    requires Contiguous(requests) && FullPages(search, requests)
    requires requests != [] ==> OffsetOf(requests[0]) == start
    ensures WithinLimits(search, requests) ==> OffsetsCount(search, start, requests)
    decreases |requests|
  {
    if requests != [] && WithinLimits(search, requests) {
      var rest := requests[1..];
      if rest != [] {
        TailPages(search, requests);
        OffsetsFromFullPages(search, start + |PageItems(search(requests[0]))|, rest);
      }
      OffsetsCons(search, start, requests[0], rest);
      assert [requests[0]] + rest == requests;
    }
  }

  /** The last request of a longer exchange is the last of its tail. */
  lemma LastOfCons(search: Doc -> Option<Doc>, request: Doc, rest: seq<Doc>)
    ensures rest != [] ==> LastSaysStop(search, [request] + rest) == LastSaysStop(search, rest)
  {
    if rest != [] {
      assert ([request] + rest)[|rest|] == rest[|rest| - 1];
    }
  }

  /** A full page before pages that are full but for the last. */
  lemma FullPagesCons(search: Doc -> Option<Doc>, request: Doc, rest: seq<Doc>)
    requires |PageItems(search(request))| >= LimitOf(request)
    requires FullPages(search, rest)
    ensures FullPages(search, [request] + rest)
  {
    var all := [request] + rest;
    forall i | 0 <= i < |all| - 1
      ensures |PageItems(search(all[i]))| >= LimitOf(all[i])
    {
      if i > 0 { assert all[i] == rest[i - 1]; }
    }
  }

  /** Every request was sent while fewer than `maxResults` businesses were
      gathered, `count` of them before the first, and asked for the same
      location and category and for `min(50, maxResults - gathered)`. */
  predicate SentBelow(search: Doc -> Option<Doc>, location: string, category: string, maxResults: int,
                      count: int, requests: seq<Doc>)
    decreases |requests|
  {
    requests != [] ==>
      && count < maxResults
      && requests[0] == SearchParams(location, category, PageSize(maxResults, count), OffsetOf(requests[0]))
      && SentBelow(search, location, category, maxResults, count + |PageItems(search(requests[0]))|, requests[1..])
  }

  lemma SentBelowCons(search: Doc -> Option<Doc>, location: string, category: string, maxResults: int,
                      count: int, request: Doc, rest: seq<Doc>)
    requires count < maxResults
    requires request == SearchParams(location, category, PageSize(maxResults, count), OffsetOf(request))
    requires SentBelow(search, location, category, maxResults, count + |PageItems(search(request))|, rest)
    ensures SentBelow(search, location, category, maxResults, count, [request] + rest)
  {
    assert ([request] + rest)[1..] == rest;
  }

  lemma LastSentBelow(search: Doc -> Option<Doc>, location: string, category: string, maxResults: int,
                      count: int, request: Doc)
    requires count < maxResults
    requires request == SearchParams(location, category, PageSize(maxResults, count), OffsetOf(request))
    ensures SentBelow(search, location, category, maxResults, count, [request])
  {
    assert [request][1..] == [];
  }

  /** Request by request: the `i`-th request was sent with fewer than
      `maxResults` businesses gathered before it, and it asked for the
      location, the category and `min(50, maxResults - gathered)`. */
  lemma {:induction false} SentBelowAt(search: Doc -> Option<Doc>, location: string, category: string,
                                       maxResults: int, count: int, requests: seq<Doc>, i: int)
    requires SentBelow(search, location, category, maxResults, count, requests)
    requires 0 <= i < |requests|
    ensures var gathered := count + |Flatten(Answers(search, requests[..i]))|;
      && gathered < maxResults
      && requests[i] == SearchParams(location, category, PageSize(maxResults, gathered), OffsetOf(requests[i]))
    decreases i
  {
    if i == 0 {
      assert requests[..0] == [];
    } else {
      var items := PageItems(search(requests[0]));
      var rest := requests[1..];
      SentBelowAt(search, location, category, maxResults, count + |items|, rest, i - 1);
      assert requests[..i] == [requests[0]] + rest[..i - 1];
      assert Answers(search, requests[..i]) == [items] + Answers(search, rest[..i - 1]);
      FlattenCons(items, Answers(search, rest[..i - 1]));
      assert requests[i] == rest[i - 1];
    }
  }

  /** What the loop leaves behind once `count` businesses were gathered
      before it: the places are the pages' businesses in order, the pages
      are contiguous, every page but the last is full, when fewer than
      `maxResults` were gathered in all the last answer stopped the loop,
      and the loop failed exactly when the last answer was malformed. */
  predicate Paged(search: Doc -> Option<Doc>, maxResults: int, count: int, e: Exchange) {
    && e.places == Flatten(Answers(search, e.requests))
    && Contiguous(e.requests)
    && FullPages(search, e.requests)
    && (e.requests != [] && count + |e.places| < maxResults ==> LastSaysStop(search, e.requests))
    && (e.requests == [] ==> e.failure.None?)
    && (e.requests != [] ==>
          (e.failure.None? <==> !Malformed(search(e.requests[|e.requests| - 1]))))
    && (e.failure.Some? ==> e.failure == Some(WrongType("businesses")))
  }

  /** A page that stops the loop is an exchange of its own. */
  lemma LastPage(search: Doc -> Option<Doc>, maxResults: int, count: int, request: Doc, failure: Option<Error>)
    requires 1 <= LimitOf(request) <= PageLimit
    requires Stops(search(request)) || |PageItems(search(request))| < LimitOf(request)
    requires failure.None? <==> !Malformed(search(request))
    requires failure.Some? ==> failure == Some(WrongType("businesses"))
    ensures Paged(search, maxResults, count, Exchange(PageItems(search(request)), [request], failure))
  {
    var items := PageItems(search(request));
    assert Answers(search, [request]) == [items];
    FlattenCons(items, []);
  }

  /** A full page, followed by the exchange that starts after it. */
  lemma ConsPage(search: Doc -> Option<Doc>, maxResults: int, count: int, request: Doc, rest: Exchange)
    requires 1 <= LimitOf(request) <= PageLimit
    requires |PageItems(search(request))| >= LimitOf(request)
    requires !Malformed(search(request))
    requires Paged(search, maxResults, count + |PageItems(search(request))|, rest)
    requires rest.requests != [] ==> OffsetOf(rest.requests[0]) == OffsetOf(request) + LimitOf(request)
    requires rest.requests == [] ==> count + |PageItems(search(request))| >= maxResults
    ensures Paged(search, maxResults, count,
                  Exchange(PageItems(search(request)) + rest.places, [request] + rest.requests, rest.failure))
  {
    var items := PageItems(search(request));
    var all := [request] + rest.requests;
    assert Answers(search, all) == [items] + Answers(search, rest.requests);
    FlattenCons(items, Answers(search, rest.requests));
    ContiguousCons(request, rest.requests);
    FullPagesCons(search, request, rest.requests);
    LastOfCons(search, request, rest.requests);
    if rest.requests != [] {
      assert all[|all| - 1] == rest.requests[|rest.requests| - 1];
    }
    assert |items + rest.places| == |items| + |rest.places|;
  }

  /** The `while` loop of collect_data, `count` being `len(all_businesses)`.
      A page that is not short holds at least one business, so the loop
      ends without any bound on the requests. */
  function Pages(search: Doc -> Option<Doc>, location: string, category: string, maxResults: int,
                 count: int, offset: int): Exchange
    decreases maxResults - count
  {
    if count >= maxResults then Exchange([], [], None)
    else
      var limit := PageSize(maxResults, count);
      var request := SearchParams(location, category, limit, offset);
      var response := search(request);
      if Stops(response) then Exchange([], [request], None)
      else if !response.value["businesses"].List? then Exchange([], [request], Some(WrongType("businesses")))
      else
        var items := response.value["businesses"].items;
        if |items| < limit then Exchange(items, [request], None)
        else
          var rest := Pages(search, location, category, maxResults, count + |items|, offset + limit);
          Exchange(items + rest.places, [request] + rest.requests, rest.failure)
  }

  /** One turn of the loop: the answer either ends it with one request,
      or a full page is followed by the loop from the next offset. */
  lemma PagesStep(search: Doc -> Option<Doc>, location: string, category: string, maxResults: int,
                  count: int, offset: int)
    requires count < maxResults
    ensures var request := SearchParams(location, category, PageSize(maxResults, count), offset);
      var response := search(request);
      var r := Pages(search, location, category, maxResults, count, offset);
      if Stops(response) then r == Exchange([], [request], None)
      else if !response.value["businesses"].List? then r == Exchange([], [request], Some(WrongType("businesses")))
      else if |response.value["businesses"].items| < PageSize(maxResults, count) then
        r == Exchange(response.value["businesses"].items, [request], None)
      else
        var rest := Pages(search, location, category, maxResults,
                          count + |response.value["businesses"].items|, offset + PageSize(maxResults, count));
        r == Exchange(response.value["businesses"].items + rest.places, [request] + rest.requests, rest.failure)
  {
  }

  /** A full page is followed by the loop from the next offset. */
  lemma PagesStepFull(search: Doc -> Option<Doc>, location: string, category: string, maxResults: int,
                      count: int, offset: int, next: int)
    requires count < maxResults
    requires var response := search(SearchParams(location, category, PageSize(maxResults, count), offset));
      && !Stops(response) && response.value["businesses"].List?
      && |response.value["businesses"].items| >= PageSize(maxResults, count)
      && next == count + |response.value["businesses"].items|
    ensures var request := SearchParams(location, category, PageSize(maxResults, count), offset);
      var rest := Pages(search, location, category, maxResults, next, offset + PageSize(maxResults, count));
      Pages(search, location, category, maxResults, count, offset)
        == Exchange(search(request).value["businesses"].items + rest.places, [request] + rest.requests, rest.failure)
  {
    PagesStep(search, location, category, maxResults, count, offset);
  }

  /** What the loop leaves behind: nothing once `maxResults` businesses
      are gathered, otherwise a first request for the page size that is
      left at `offset` and at most `maxResults - count` requests; in both
      cases an exchange that is `Paged`. */
  predicate PagedFrom(search: Doc -> Option<Doc>, location: string, category: string, maxResults: int,
                      count: int, offset: int, r: Exchange)
  {
    && (count >= maxResults ==> r == Exchange([], [], None))
    && (count < maxResults ==>
          && r.requests != []
          && r.requests[0] == SearchParams(location, category, PageSize(maxResults, count), offset)
          && |r.requests| <= maxResults - count)
    && Paged(search, maxResults, count, r)
  }

  /** An answer that ends the loop. */
  lemma PagesPagedLast(search: Doc -> Option<Doc>, location: string, category: string,
                       maxResults: int, count: int, offset: int)
    requires count < maxResults
    requires var response := search(SearchParams(location, category, PageSize(maxResults, count), offset));
      Stops(response) || !response.value["businesses"].List?
      || |response.value["businesses"].items| < PageSize(maxResults, count)
    ensures PagedFrom(search, location, category, maxResults, count, offset,
                      Pages(search, location, category, maxResults, count, offset))
  {
    var request := SearchParams(location, category, PageSize(maxResults, count), offset);
    var response := search(request);
    PagesStep(search, location, category, maxResults, count, offset);
    if Stops(response) {
      LastPage(search, maxResults, count, request, None);
    } else if !response.value["businesses"].List? {
      LastPage(search, maxResults, count, request, Some(WrongType("businesses")));
    } else {
      LastPage(search, maxResults, count, request, None);
    }
  }

  /** A full page before the loop that goes on from the next offset. */
  lemma PagesPagedCons(search: Doc -> Option<Doc>, location: string, category: string,
                       maxResults: int, count: int, offset: int, next: int)
    requires count < maxResults
    requires var response := search(SearchParams(location, category, PageSize(maxResults, count), offset));
      && !Stops(response) && response.value["businesses"].List?
      && |response.value["businesses"].items| >= PageSize(maxResults, count)
      && next == count + |response.value["businesses"].items|
    requires PagedFrom(search, location, category, maxResults, next, offset + PageSize(maxResults, count),
                       Pages(search, location, category, maxResults, next, offset + PageSize(maxResults, count)))
    ensures PagedFrom(search, location, category, maxResults, count, offset,
                      Pages(search, location, category, maxResults, count, offset))
  {
    var request := SearchParams(location, category, PageSize(maxResults, count), offset);
    var rest := Pages(search, location, category, maxResults, next, offset + PageSize(maxResults, count));
    var items := search(request).value["businesses"].items;
    PagesStepFull(search, location, category, maxResults, count, offset, next);
    assert PageItems(search(request)) == items;
    ConsPage(search, maxResults, count, request, rest);
    var r := Exchange(items + rest.places, [request] + rest.requests, rest.failure);
    assert r.requests[0] == request && |r.requests| == 1 + |rest.requests|;
  }

  /** The loop leaves an exchange that is `PagedFrom` its start. */
  lemma {:induction false} PagesPaged(search: Doc -> Option<Doc>, location: string, category: string,
                                      maxResults: int, count: int, offset: int)
    ensures PagedFrom(search, location, category, maxResults, count, offset,
                      Pages(search, location, category, maxResults, count, offset))
    decreases maxResults - count
  {
    if count < maxResults {
      var limit := PageSize(maxResults, count);
      var response := search(SearchParams(location, category, limit, offset));
      if Stops(response) || !response.value["businesses"].List? || |response.value["businesses"].items| < limit {
        PagesPagedLast(search, location, category, maxResults, count, offset);
      } else {
        var next := count + |response.value["businesses"].items|;
        PagesPaged(search, location, category, maxResults, next, offset + limit);
        PagesPagedCons(search, location, category, maxResults, count, offset, next);
      }
    }
  }

  lemma PagesSentBelowLast(search: Doc -> Option<Doc>, location: string, category: string,
                           maxResults: int, count: int, offset: int)
    requires count < maxResults
    requires var response := search(SearchParams(location, category, PageSize(maxResults, count), offset));
      Stops(response) || !response.value["businesses"].List?
      || |response.value["businesses"].items| < PageSize(maxResults, count)
    ensures SentBelow(search, location, category, maxResults, count,
                      Pages(search, location, category, maxResults, count, offset).requests)
  {
    PagesStep(search, location, category, maxResults, count, offset);
    LastSentBelow(search, location, category, maxResults, count,
                  SearchParams(location, category, PageSize(maxResults, count), offset));
  }

  lemma PagesSentBelowCons(search: Doc -> Option<Doc>, location: string, category: string,
                           maxResults: int, count: int, offset: int, next: int)
    requires count < maxResults
    requires var response := search(SearchParams(location, category, PageSize(maxResults, count), offset));
      && !Stops(response) && response.value["businesses"].List?
      && |response.value["businesses"].items| >= PageSize(maxResults, count)
      && next == count + |response.value["businesses"].items|
    requires SentBelow(search, location, category, maxResults, next,
                       Pages(search, location, category, maxResults, next, offset + PageSize(maxResults, count)).requests)
    ensures SentBelow(search, location, category, maxResults, count,
                      Pages(search, location, category, maxResults, count, offset).requests)
  {
    var request := SearchParams(location, category, PageSize(maxResults, count), offset);
    var response := search(request);
    PagesStepFull(search, location, category, maxResults, count, offset, next);
    assert PageItems(response) == response.value["businesses"].items;
    SentBelowCons(search, location, category, maxResults, count, request,
                  Pages(search, location, category, maxResults, next, offset + PageSize(maxResults, count)).requests);
  }

  /** Every request of the loop asks for the location and the category,
      and is sent only while fewer than `maxResults` businesses are
      gathered, with the page size that is left. */
  lemma {:induction false} PagesSentBelow(search: Doc -> Option<Doc>, location: string, category: string,
                                          maxResults: int, count: int, offset: int)
    ensures SentBelow(search, location, category, maxResults, count,
                      Pages(search, location, category, maxResults, count, offset).requests)
    decreases maxResults - count
  {
    if count < maxResults {
      var limit := PageSize(maxResults, count);
      var response := search(SearchParams(location, category, limit, offset));
      if Stops(response) || !response.value["businesses"].List? || |response.value["businesses"].items| < limit {
        PagesSentBelowLast(search, location, category, maxResults, count, offset);
      } else {
        var next := count + |response.value["businesses"].items|;
        PagesSentBelow(search, location, category, maxResults, next, offset + limit);
        PagesSentBelowCons(search, location, category, maxResults, count, offset, next);
      }
    }
  }

  /** collect_data: the first request asks for `min(50, maxResults)`
      businesses at offset 0, the businesses gathered are cut to
      `maxResults`, and the loop fails only on a malformed last answer. */
  function CollectData(search: Doc -> Option<Doc>, location: string, category: string,
                       maxResults: int): (r: Exchange)
    ensures maxResults <= 0 ==> r == Exchange([], [], None)
    ensures |r.places| <= (if maxResults < 0 then 0 else maxResults)
    ensures r.places == Slice(Flatten(Answers(search, r.requests)), maxResults)
    ensures maxResults > 0 ==>
      r.requests != [] && r.requests[0] == SearchParams(location, category, Min(PageLimit, maxResults), 0)
    ensures |r.requests| <= (if maxResults < 0 then 0 else maxResults)
    ensures r.failure.None? && |r.places| < maxResults ==> LastSaysStop(search, r.requests)
    ensures r.failure.None? <==> r.requests == [] || !Malformed(search(r.requests[|r.requests| - 1]))
    ensures r.failure.Some? ==> r.failure == Some(WrongType("businesses"))
  {
    var exchange := Pages(search, location, category, maxResults, 0, 0);
    PagesPaged(search, location, category, maxResults, 0, 0);
    Exchange(Slice(exchange.places, maxResults), exchange.requests, exchange.failure)
  }

  /** The pages of collect_data are contiguous from offset 0, and when no
      page held more than it asked for, each offset is the number of
      businesses gathered before it. */
  lemma CollectDataOffsets(search: Doc -> Option<Doc>, location: string, category: string, maxResults: int)
    ensures var r := CollectData(search, location, category, maxResults);
      && Contiguous(r.requests)
      && (WithinLimits(search, r.requests) ==> OffsetsCount(search, 0, r.requests))
  {
    PagesPaged(search, location, category, maxResults, 0, 0);
    OffsetsFromFullPages(search, 0, Pages(search, location, category, maxResults, 0, 0).requests);
  }

  /** collect_data sends each request for the same location and category,
      only while fewer than `maxResults` businesses are gathered, asking
      for `min(50, maxResults - gathered)` of them. */
  lemma CollectDataSentBelow(search: Doc -> Option<Doc>, location: string, category: string, maxResults: int)
    ensures SentBelow(search, location, category, maxResults, 0, CollectData(search, location, category, maxResults).requests)
  {
    PagesSentBelow(search, location, category, maxResults, 0, 0);
  }

  /** Request by request: collect_data sent its `i`-th request while
      fewer than `maxResults` businesses were gathered before it, for the
      same location and category, asking for `min(50, maxResults - gathered)`. */
  lemma CollectDataRequest(search: Doc -> Option<Doc>, location: string, category: string, maxResults: int,
                           i: int)
    requires 0 <= i < |CollectData(search, location, category, maxResults).requests|
    ensures var requests := CollectData(search, location, category, maxResults).requests;
      var gathered := |Flatten(Answers(search, requests[..i]))|;
      && gathered < maxResults
      && requests[i] == SearchParams(location, category, PageSize(maxResults, gathered), OffsetOf(requests[i]))
  {
    var requests := CollectData(search, location, category, maxResults).requests;
    CollectDataSentBelow(search, location, category, maxResults);
    SentBelowAt(search, location, category, maxResults, 0, requests, i);
  }

  /** Unlike the Google collector, a request that raised ends the paging
      quietly: nothing is collected and nothing fails. */
  lemma FailedSearchStops(search: Doc -> Option<Doc>, location: string, category: string, maxResults: int)
    requires maxResults > 0
    requires search(SearchParams(location, category, Min(PageLimit, maxResults), 0)).None?
    ensures CollectData(search, location, category, maxResults) ==
      Exchange([], [SearchParams(location, category, Min(PageLimit, maxResults), 0)], None)
  {
  }

  /** A page shorter than asked for is collected whole, and the loop ends
      there without an exception. */
  lemma ShortPageIsCollected(search: Doc -> Option<Doc>, location: string, category: string, maxResults: int,
                             business: Value)
    requires maxResults > 1
    requires search(SearchParams(location, category, Min(PageLimit, maxResults), 0))
          == Some(map["businesses" := List([business])])
    ensures CollectData(search, location, category, maxResults)
         == Exchange([business], [SearchParams(location, category, Min(PageLimit, maxResults), 0)], None)
  {
    var request := SearchParams(location, category, Min(PageLimit, maxResults), 0);
    var response := map["businesses" := List([business])];
    assert PageSize(maxResults, 0) == Min(PageLimit, maxResults) > 1;
    assert response != map[] && response["businesses"] == List([business]);
    assert Truthy(List([business]));
    assert !Stops(Some(response));
    assert Pages(search, location, category, maxResults, 0, 0) == Exchange([business], [request], None);
  }

  /** One iteration of enrich_data: any non-empty details answer is
      overlaid on the business, whatever it holds. */
  function EnrichBusiness(details: Value -> Option<Doc>, business: Value): (r: Result<Doc>)
    ensures r.Ok? <==> business.Obj? && "name" in business.fields && "id" in business.fields
    ensures !business.Obj? ==> r == Err(WrongType("business"))
    ensures business.Obj? && "name" !in business.fields ==> r == Err(MissingKey("name"))
    ensures business.Obj? && "name" in business.fields && "id" !in business.fields ==> r == Err(MissingKey("id"))
    ensures r.Ok? ==> business.fields.Keys <= r.value.Keys
    ensures r.Ok? && details(business.fields["id"]).Some? && details(business.fields["id"]).value != map[] ==>
      r.value == Overlay(business.fields, details(business.fields["id"]).value)
    ensures r.Ok? ==> r.value["id"] == (var d := details(business.fields["id"]);
      if d.Some? && "id" in d.value then d.value["id"] else business.fields["id"])
    ensures r.Ok? && (details(business.fields["id"]).None? || details(business.fields["id"]) == Some(map[])) ==>
      r.value == business.fields
  {
    if !business.Obj? then Err(WrongType("business"))
    else if "name" !in business.fields then Err(MissingKey("name"))
    else if "id" !in business.fields then Err(MissingKey("id"))
    else
      var response := details(business.fields["id"]);
      if response.Some? && response.value != map[] then Ok(Overlay(business.fields, response.value))
      else Ok(business.fields)
  }

  /** enrich_data: one details request per business, in order. */
  function EnrichData(details: Value -> Option<Doc>, businesses: seq<Value>): (r: Result<seq<Doc>>)
    ensures r.Ok? ==> |r.value| == |businesses|
    ensures r.Ok? ==> forall i :: 0 <= i < |businesses| ==> EnrichBusiness(details, businesses[i]) == Ok(r.value[i])
    ensures r.Ok? <==> forall i :: 0 <= i < |businesses| ==> EnrichBusiness(details, businesses[i]).Ok?
  {
    MapAll(business => EnrichBusiness(details, business), businesses)
  }

  /** When every details request fails or answers with an empty body, the
      businesses come back as they were. */
  lemma FailedDetailsKeepBusinesses(details: Value -> Option<Doc>, businesses: seq<Value>)
    requires forall v :: details(v).None? || details(v) == Some(map[])
    requires EnrichData(details, businesses).Ok?
    ensures forall i :: 0 <= i < |businesses| ==>
      businesses[i].Obj? && EnrichData(details, businesses).value[i] == businesses[i].fields
  {
  }

  /** Every enriched business still has an `id`, the field the raw
      collection is looked up by. */
  lemma EnrichedBusinessesHaveIds(details: Value -> Option<Doc>, businesses: seq<Value>)
    requires EnrichData(details, businesses).Ok?
    ensures forall d :: d in EnrichData(details, businesses).value ==> "id" in d
  {
    var enriched := EnrichData(details, businesses).value;
    forall d | d in enriched ensures "id" in d {
      var i :| 0 <= i < |enriched| && enriched[i] == d;
      assert EnrichBusiness(details, businesses[i]) == Ok(d);
    }
  }

  /** main: as for the Google collector, with the category as both the
      search filter and the stored category, and source 'yelp'. The API
      key travels in a header, so only its presence is modelled. */
  function Run(cities: Collection, store: Collection, slug: string, category: string, maxResults: int,
               apiKey: string, search: Doc -> Option<Doc>, details: Value -> Option<Doc>,
               now: Value): (r: Result<MongoUtils.SaveOutcome>)
    ensures category !in ValidCategories ==> r == Err(InvalidChoice(category))
    ensures category in ValidCategories && apiKey == "" ==> r == Ok(MongoUtils.Saved(store, 0, 0))
    ensures category in ValidCategories && apiKey != "" && MongoUtils.ValidateCity(cities, slug).None? ==>
      r == Err(CityNotFound(slug))
    ensures category in ValidCategories && apiKey != "" && MongoUtils.ValidateCity(cities, slug).Some? ==>
      var city := MongoUtils.ValidateCity(cities, slug).value;
      && (Location(city).Err? ==> r == Err(Location(city).error))
      && (Location(city).Ok? && CollectData(search, Location(city).value, category, maxResults).failure.Some? ==>
            r == Err(CollectData(search, Location(city).value, category, maxResults).failure.value))
    ensures r.Ok? <==> (
      && category in ValidCategories
      && (apiKey != "" ==>
            && MongoUtils.ValidateCity(cities, slug).Some?
            && var city := MongoUtils.ValidateCity(cities, slug).value;
            && Location(city).Ok?
            && var e := CollectData(search, Location(city).value, category, maxResults);
            && e.failure.None?
            && (e.places == [] || EnrichData(details, e.places).Ok?)))
    ensures r.Ok? && apiKey != "" ==> var location := Location(MongoUtils.ValidateCity(cities, slug).value).value;
      var found := CollectData(search, location, category, maxResults).places;
      && (found == [] ==> r.value == MongoUtils.Saved(store, 0, 0))
      && (found != [] ==> r.value == MongoUtils.SaveRawPlaces(cities, store, EnrichData(details, found).value,
                                                               "yelp", slug, category, now))
  {
    if category !in ValidCategories then Err(InvalidChoice(category))
    else if apiKey == "" then Ok(MongoUtils.Saved(store, 0, 0))
    else
      match MongoUtils.ValidateCity(cities, slug)
      case None => Err(CityNotFound(slug))
      case Some(city) =>
        var location :- Location(city);
        var exchange := CollectData(search, location, category, maxResults);
        if exchange.failure.Some? then Err(exchange.failure.value)
        else if exchange.places == [] then Ok(MongoUtils.Saved(store, 0, 0))
        else
          var enriched :- EnrichData(details, exchange.places);
          Ok(MongoUtils.SaveRawPlaces(cities, store, enriched, "yelp", slug, category, now))
  }
}
