/**
 * The record types the service's JSON maps onto (src/models.py): a joke and
 * a page of search results, each built from a decoded dict with defaults
 * for the missing fields.
 */
module Models {
  import opened Wrappers
  import opened PyJson

  /** A joke record. The fields hold whatever the dict held: Python does not
      check the declared field types. A missing `url` or `icon_url` is None. */
  datatype Joke = Joke(id: Json, value: Json, url: Json, iconUrl: Json, categories: Json)

  datatype SearchResults = SearchResults(total: int, result: seq<Joke>)

  /** `Joke.from_dict`: `id` and `value` default to the empty string, `url`
      and `icon_url` to None, and a falsy `categories` (missing, null, an
      empty list, ...) becomes the empty list. */
  function JokeFromDict(d: seq<Member>): (j: Joke)
    ensures HasKey(d, "id") ==> Lookup(d, "id") == Some(j.id)
    ensures !HasKey(d, "id") ==> j.id == JStr("")
    ensures HasKey(d, "value") ==> Lookup(d, "value") == Some(j.value)
    ensures !HasKey(d, "value") ==> j.value == JStr("")
    ensures HasKey(d, "url") ==> Lookup(d, "url") == Some(j.url)
    ensures !HasKey(d, "url") ==> j.url == JNull
    ensures HasKey(d, "icon_url") ==> Lookup(d, "icon_url") == Some(j.iconUrl)
    ensures !HasKey(d, "icon_url") ==> j.iconUrl == JNull
    ensures Truthy(j.categories) <==> Truthy(Get(d, "categories", JNull))
    ensures Truthy(j.categories) ==> Lookup(d, "categories") == Some(j.categories)
    ensures !Truthy(j.categories) ==> j.categories == JArr([])
  {
    var cats := Get(d, "categories", JNull);
    Joke(
      Get(d, "id", JStr("")),
      Get(d, "value", JStr("")),
      Get(d, "url", JNull),
      Get(d, "icon_url", JNull),
      if Truthy(cats) then cats else JArr([]))
  }

  /** The dict of a joke's fields, in declaration order: the inverse that
      shows `JokeFromDict` loses nothing but falsy categories. */
  function JokeToDict(j: Joke): seq<Member>
  {
    [ Member("id", j.id), Member("value", j.value), Member("url", j.url),
      Member("icon_url", j.iconUrl), Member("categories", j.categories) ]
  }

  /** A joke whose categories are a truthy value or the empty list survives
      the trip through its dict unchanged. */
  lemma JokeRoundTrip(j: Joke)
    requires Truthy(j.categories) || j.categories == JArr([])
    ensures JokeFromDict(JokeToDict(j)) == j
  {
    var d := JokeToDict(j);
    assert Lookup(d, "id") == Some(j.id);
    assert Lookup(d, "value") == Some(j.value);
    assert Lookup(d[2..], "url") == Some(j.url);
    assert Lookup(d, "url") == Some(j.url);
    assert Lookup(d[3..], "icon_url") == Some(j.iconUrl);
    assert Lookup(d[2..], "icon_url") == Some(j.iconUrl);
    assert Lookup(d, "icon_url") == Some(j.iconUrl);
    assert Lookup(d[4..], "categories") == Some(j.categories);
    assert Lookup(d[2..], "categories") == Some(j.categories);
    assert Lookup(d, "categories") == Some(j.categories);
  }

  /** Mapping is a normalisation: mapping the dict of a mapped joke gives
      back the same joke. */
  lemma JokeFromDictNormalises(d: seq<Member>)
    ensures JokeFromDict(JokeToDict(JokeFromDict(d))) == JokeFromDict(d)
  {
    JokeRoundTrip(JokeFromDict(d));
  }

  /** The items the conversion walks over: the "result" member, an empty
      list when there is none. */
  function ResultItems(d: seq<Member>): Result<seq<Json>, Fault>
  {
    Iterate(Get(d, "result", JArr([])))
  }

  /** The conversion of "total" to an int is modelled for an int only. */
  predicate TotalIsInt(d: seq<Member>)
  {
    Lookup(d, "total").Some? ==> Lookup(d, "total").value.JInt?
  }

  /** The loop of `SearchResults.from_dict`: one joke per item, in order,
      each mapped by `JokeFromDict`; an item that is not a dict is an
      AttributeError. */
  method JokesFromItems(xs: seq<Json>) returns (r: Result<seq<Joke>, Fault>)
    ensures r.Ok? <==> forall i :: 0 <= i < |xs| ==> xs[i].JObj?
    ensures r.Err? ==> r.error == AttributeError
    ensures r.Ok? ==> |r.value| == |xs| && forall i :: 0 <= i < |xs| ==> r.value[i] == JokeFromDict(xs[i].members)
  {
    var items: seq<Joke> := [];
    var i := 0;
    while i < |xs|
      invariant 0 <= i <= |xs|
      invariant |items| == i
      invariant forall k :: 0 <= k < i ==> xs[k].JObj? && items[k] == JokeFromDict(xs[k].members)
    {
      if !xs[i].JObj? {
        assert exists k :: 0 <= k < |xs| && !xs[k].JObj?;
        return Err(AttributeError);
      }
      items := items + [JokeFromDict(xs[i].members)];
      i := i + 1;
    }
    r := Ok(items);
  }

  /** `SearchResults.from_dict`: one joke per result item, in order, each
      mapped by `JokeFromDict`; `total` is the given total, or the number of
      items when there is none. Iterating a result that is not iterable is a
      TypeError, and an item that is not a dict an AttributeError. */
  method SearchResultsFromDict(d: seq<Member>) returns (r: Result<SearchResults, Fault>)
    requires TotalIsInt(d)
    ensures ResultItems(d).Err? ==> r == Err(TypeError)
    ensures ResultItems(d).Ok? ==>
      var xs := ResultItems(d).value;
      && (r.Ok? <==> forall i :: 0 <= i < |xs| ==> xs[i].JObj?)
      && (r.Err? ==> r.error == AttributeError)
      && (r.Ok? ==>
            && |r.value.result| == |xs|
            && (forall i :: 0 <= i < |xs| ==> r.value.result[i] == JokeFromDict(xs[i].members))
            && r.value.total == (if HasKey(d, "total") then Lookup(d, "total").value.i else |xs|))
    ensures !HasKey(d, "result") ==> r.Ok? && r.value.result == []
  {
    var source := ResultItems(d);
    assert !HasKey(d, "result") ==> source == Ok([]);
    if source.Err? {
      return Err(source.error);
    }
    var items := JokesFromItems(source.value);
    if items.Err? {
      return Err(items.error);
    }
    var total := if HasKey(d, "total") then Lookup(d, "total").value.i else |items.value|;
    r := Ok(SearchResults(total, items.value));
  }
}
