/** What the two collectors share: the record of an HTTP exchange with a
    paged search endpoint, and the location string built from a city. */
module Collecting {
  import opened Docs

  /** The places a paging loop gathered and the search requests it sent,
      in order, with the exception that ended the loop if one did. On an
      exception collect_data returns nothing: the places are then only
      what had been gathered before it. */
  datatype Exchange = Exchange(places: seq<Value>, requests: seq<Doc>, failure: Option<Error>)

  function Flatten(pages: seq<seq<Value>>): seq<Value>
    decreases |pages|
  {
    if pages == [] then [] else pages[0] + Flatten(pages[1..])
  }

  lemma FlattenCons(page: seq<Value>, pages: seq<seq<Value>>)
    ensures Flatten([page] + pages) == page + Flatten(pages)
  {
    assert ([page] + pages)[1..] == pages;
  }

  /** `f"{city['name']}, {city['state_code']}"`. Both fields are read
      before any request is sent; an absent one is a KeyError. */
  function Location(city: Doc): (r: Result<string>)
    ensures r.Ok? <==> "name" in city && city["name"].Str? && "state_code" in city && city["state_code"].Str?
    ensures "name" !in city ==> r == Err(MissingKey("name"))
    ensures "name" in city && "state_code" !in city ==> r == Err(MissingKey("state_code"))
    ensures r.Ok? ==> r.value == city["name"].s + ", " + city["state_code"].s
  {
    if "name" !in city then Err(MissingKey("name"))
    else if "state_code" !in city then Err(MissingKey("state_code"))
    else if !city["name"].Str? then Err(WrongType("name"))
    else if !city["state_code"].Str? then Err(WrongType("state_code"))
    else Ok(city["name"].s + ", " + city["state_code"].s)
  }

  function Min(a: int, b: int): int {
    if a <= b then a else b
  }
}
