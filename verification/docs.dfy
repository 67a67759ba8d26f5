/** JSON-like values, dictionaries and MongoDB collections as the data
    collection scripts see them, with the slice of MongoDB query semantics
    that the scripts rely on. */
module Docs {

  /** A JSON/BSON value. Floats, timestamps and ObjectIds are `Opaque`:
      the pipeline only copies and compares them. `Opaque(0)` is the
      float 0.0, the one opaque value Python counts as false. */
  datatype Value =
    | Null
    | Bool(b: bool)
    | Int(i: int)
    | Str(s: string)
    | List(items: seq<Value>)
    | Obj(fields: map<string, Value>)
    | Opaque(token: nat)

  /** A Python dict with string keys, and a MongoDB document. */
  type Doc = map<string, Value>

  /** A MongoDB collection, in natural (insertion) order. */
  type Collection = seq<Doc>

  /** A MongoDB filter made only of equality conditions, all of which must hold. */
  type Query = seq<(string, Value)>

  datatype Option<+T> = None | Some(value: T)

  /** The exceptions the scripts raise or the failures they report. */
  datatype Error =
    | CityNotFound(slug: string)   // ValueError raised by save_raw_places
    | MissingKey(key: string)      // KeyError
    | WrongType(key: string)       // TypeError / AttributeError on a value of unexpected shape
    | NoResponse                   // a failed HTTP request whose None result is dereferenced
    | OutOfFuel                    // the request budget of a paging loop ran out
    | InvalidChoice(arg: string)   // a command-line value outside the allowed choices

  datatype Result<+T> = Ok(value: T) | Err(error: Error) {
    predicate IsFailure() {
      Err?
    }

    function PropagateFailure<U>(): Result<U>
      requires Err?
    {
      Err(error)
    }

    function Extract(): T
      requires Ok?
    {
      value
    }
  }

  /** Python truthiness. An opaque value (a float, a datetime, an ObjectId)
      counts as true unless it is the float 0.0. */
  predicate Truthy(v: Value) {
    match v
    case Null => false
    case Bool(b) => b
    case Int(i) => i != 0
    case Str(s) => s != ""
    case List(xs) => xs != []
    case Obj(m) => m != map[]
    case Opaque(t) => t != 0
  }

  /** `d.get(key, default)`. */
  function Get(d: Doc, key: string, default: Value): Value {
    if key in d then d[key] else default
  }

  /** `{**base, **top}` in Python, and `{'$set': top}` applied to `base` in MongoDB. */
  function Overlay(base: Doc, top: Doc): (r: Doc)
    ensures r.Keys == base.Keys + top.Keys
    ensures forall k :: k in top ==> r[k] == top[k]
    ensures forall k :: k in base && k !in top ==> r[k] == base[k]
  {
    base + top
  }

  /** `s[:n]` on a Python list, including the negative-bound case. */
  function Slice<T>(s: seq<T>, n: int): (r: seq<T>)
    ensures |r| <= |s|
    ensures 0 <= n ==> |r| == if n < |s| then n else |s|
    ensures n < 0 ==> |r| == if |s| + n < 0 then 0 else |s| + n
    ensures r == s[..|r|]
  {
    if 0 <= n then (if n < |s| then s[..n] else s)
    else if |s| + n < 0 then [] else s[..|s| + n]
  }

  /** One equality condition `{key: v}` as MongoDB evaluates it: the field
      equals `v`, or the field is an array holding `v`, or `v` is null and
      the field is absent. */
  predicate MatchesField(d: Doc, key: string, v: Value) {
    if key in d then d[key] == v || (d[key].List? && v in d[key].items)
    else v == Null
  }

  predicate Matches(d: Doc, q: Query) {
    forall i :: 0 <= i < |q| ==> MatchesField(d, q[i].0, q[i].1)
  }

  /** `find_one(q)`: the position of the first document matching `q`. */
  function FindFirst(c: Collection, q: Query): (r: Option<nat>)
    ensures r.Some? ==> r.value < |c| && Matches(c[r.value], q)
    ensures r.Some? ==> forall j :: 0 <= j < r.value ==> !Matches(c[j], q)
    ensures r.None? ==> forall j :: 0 <= j < |c| ==> !Matches(c[j], q)
  {
    FindFrom(c, q, 0)
  }

  function FindFrom(c: Collection, q: Query, start: nat): (r: Option<nat>)
    requires start <= |c|
    ensures r.Some? ==> start <= r.value < |c| && Matches(c[r.value], q)
    ensures r.Some? ==> forall j :: start <= j < r.value ==> !Matches(c[j], q)
    ensures r.None? ==> forall j :: start <= j < |c| ==> !Matches(c[j], q)
    decreases |c| - start
  {
    if start == |c| then None
    else if Matches(c[start], q) then Some(start)
    else FindFrom(c, q, start + 1)
  }

  /** `list(find(q))`: the matching documents, in collection order. */
  function Find(c: Collection, q: Query): (r: Collection)
    ensures |r| <= |c|
    ensures forall d :: d in r <==> d in c && Matches(d, q)
    ensures forall d :: multiset(r)[d] == if Matches(d, q) then multiset(c)[d] else 0
    decreases |c|
  {
    if c == [] then []
    else
      var rest := Find(c[1..], q);
      assert c == [c[0]] + c[1..];
      (if Matches(c[0], q) then [c[0]] else []) + rest
  }

  /** Applies `f` to every element in order; the first failure is the
      exception that ends the loop. */
  function MapAll<X, Y>(f: X -> Result<Y>, xs: seq<X>): (r: Result<seq<Y>>)
    ensures r.Ok? <==> forall i :: 0 <= i < |xs| ==> f(xs[i]).Ok?
    ensures r.Ok? ==> |r.value| == |xs|
    ensures r.Ok? ==> forall i :: 0 <= i < |xs| ==> f(xs[i]) == Ok(r.value[i])
    ensures r.Err? ==> exists i :: 0 <= i < |xs| && f(xs[i]) == Err(r.error)
    decreases |xs|
  {
    if xs == [] then Ok([])
    else
      var first :- f(xs[0]);
      var rest :- MapAll(f, xs[1..]);
      assert forall i :: 1 <= i < |xs| ==> xs[i] == xs[1..][i - 1];
      Ok([first] + rest)
  }
}
