/** src/hurag_webui/services/citation_service.py: `load_citations_by_ids`.
    The requested ids are split into those the caller's cache already holds
    and those it does not; cached ones are rebuilt from their entries, and
    the others are fetched from the knowledge service in one request, turned
    into citations, appended and written back into the caller's cache. The
    HTTP request is the parameter `fetch`, from the list of requested ids to
    the items of the decoded response (or the error `raise_for_status`
    raises). A cache entry is the record `model_dump` produces, so
    `model_validate` of an entry gives the record back.

    `response.json()` gives JSON values, not `Knowledge` objects, and
    `from_knowledge` reads attributes, so as written the first fetched item
    raises `AttributeError`. The corrected loader validates each item as a
    `Knowledge` record first; that validation belongs to a schema this
    model does not include and is the parameter `validate`. */
module CitationService {
  import opened Wrappers
  import opened CitationModel

  /** `citation_ids`: a sequence or a set of ids. */
  datatype Ids = Listed(list: seq<string>) | Unordered(items: set<string>)

  /** `set(citation_ids)`. */
  function IdSet(citationIds: Ids): (r: set<string>)
    ensures citationIds.Listed? ==> forall id :: id in r <==> id in citationIds.list
    ensures citationIds.Unordered? ==> r == citationIds.items
  {
    match citationIds
    case Listed(list) => set id | id in list
    case Unordered(items) => items
  }

  /** `ids & cached_citations.keys()`. The cache is a Python dict, so a
      citation without an id is stored under `None`; a requested id is a
      string and never matches that key. */
  function CachedIds(ids: set<string>, keys: set<Option<string>>): set<string> {
    set id | id in ids && Some(id) in keys
  }

  /** `ids - cached_citations.keys()`. */
  function UncachedIds(ids: set<string>, keys: set<Option<string>>): set<string> {
    set id | id in ids && Some(id) !in keys
  }

  /** The cached and the uncached ids split the requested ones: every id is
      in exactly one of the two, and the cached ones are exactly those with
      an entry. */
  lemma Partition(ids: set<string>, keys: set<Option<string>>)
    ensures CachedIds(ids, keys) + UncachedIds(ids, keys) == ids
    ensures CachedIds(ids, keys) * UncachedIds(ids, keys) == {}
    ensures forall id :: id in CachedIds(ids, keys) <==> id in ids && Some(id) in keys
  {
  }

  predicate Distinct<T(==)>(xs: seq<T>) {
    forall i, j :: 0 <= i < j < |xs| ==> xs[i] != xs[j]
  }

  /** The citations rebuilt from the entries of `order`, in that order. */
  function Entries(cache: map<Option<string>, CitationData>, order: seq<string>): (r: seq<CitationData>)
    requires forall id :: id in order ==> Some(id) in cache
    ensures |r| == |order|
    ensures forall i :: 0 <= i < |order| ==> r[i] == cache[Some(order[i])]
  {
    if order == [] then [] else Entries(cache, order[..|order| - 1]) + [cache[Some(order[|order| - 1])]]
  }

  /** A value of the decoded response body: the service sends one JSON
      object per knowledge segment. */
  datatype JsonValue =
    | JNull
    | JBool(b: bool)
    | JNumber(n: int)
    | JString(s: string)
    | JArray(items: seq<JsonValue>)
    | JObject(fields: map<string, JsonValue>)

  /** What reading `knowledge.segment_id` raises when `knowledge` is a
      decoded JSON value: no such value has that attribute. */
  const NoSegmentId := AttributeError("segment_id")

  /** The cache after the fetch loop: one write per fetched citation, in
      order, under the citation's id. */
  function Fill(cache: map<Option<string>, CitationData>, fetched: seq<Knowledge>): map<Option<string>, CitationData> {
    if fetched == [] then cache
    else
      var c := FromKnowledge(fetched[|fetched| - 1]);
      Fill(cache, fetched[..|fetched| - 1])[c.id := c]
  }

  /** The ids the fetched citations are cached under. */
  function FetchedKeys(fetched: seq<Knowledge>): set<Option<string>> {
    set k | k in fetched :: k.segmentId
  }

  /** The fetch loop removes no entry, writes every fetched citation under
      its id (the last one wins when two share an id), and leaves every
      other entry as it was. */
  lemma {:induction false} FillSpec(cache: map<Option<string>, CitationData>, fetched: seq<Knowledge>)
    ensures Fill(cache, fetched).Keys == cache.Keys + FetchedKeys(fetched)
    ensures forall key :: key in cache && key !in FetchedKeys(fetched) ==> Fill(cache, fetched)[key] == cache[key]
    ensures fetched != [] ==> var last := FromKnowledge(fetched[|fetched| - 1]);
      Fill(cache, fetched)[last.id] == last
  {
    if fetched != [] {
      var front := fetched[..|fetched| - 1];
      FillSpec(cache, front);
      assert FetchedKeys(fetched) == FetchedKeys(front) + {fetched[|fetched| - 1].segmentId} by {
        forall key | key in FetchedKeys(fetched)
          ensures key in FetchedKeys(front) || key == fetched[|fetched| - 1].segmentId
        {
          var k :| k in fetched && k.segmentId == key;
          var i :| 0 <= i < |fetched| && fetched[i] == k;
          if i < |fetched| - 1 {
            assert front[i] == k;
          }
        }
        forall key | key in FetchedKeys(front)
          ensures key in FetchedKeys(fetched)
        {
          var k :| k in front && k.segmentId == key;
          var i :| 0 <= i < |front| && front[i] == k;
          assert fetched[i] == k;
        }
      }
    }
  }

  /** The records of the fetched items, `Knowledge.model_validate(item)`
      for each in turn, up to the first item that does not validate, and
      that item's error, if any. */
  function Validated(items: seq<JsonValue>, validate: JsonValue -> Result<Knowledge>): (seq<Knowledge>, Option<Error>)
  {
    if items == [] then ([], None)
    else
      var front := Validated(items[..|items| - 1], validate);
      if front.1.Some? then front
      else
        match validate(items[|items| - 1])
        case Err(e) => (front.0, Some(e))
        case Ok(k) => (front.0 + [k], None)
  }

  /** The records are those of a prefix of the items, each validated; the
      prefix is all of the items when none fails, and otherwise stops right
      before the first that fails, whose error is returned. */
  lemma {:induction false} ValidatedSpec(items: seq<JsonValue>, validate: JsonValue -> Result<Knowledge>)
    ensures var v := Validated(items, validate);
      && |v.0| <= |items|
      && (forall i :: 0 <= i < |v.0| ==> validate(items[i]) == Ok(v.0[i]))
      && (v.1.None? <==> |v.0| == |items|)
      && (v.1.Some? ==> validate(items[|v.0|]) == Err(v.1.value))
  {
    if items != [] {
      var front := items[..|items| - 1];
      ValidatedSpec(front, validate);
      assert forall i :: 0 <= i < |front| ==> front[i] == items[i];
    }
  }

  /** The citations `from_knowledge` makes of the records, in order. */
  function Converted(ks: seq<Knowledge>): (r: seq<CitationData>)
    ensures |r| == |ks|
    ensures forall i :: 0 <= i < |ks| ==> r[i] == FromKnowledge(ks[i])
  {
    seq(|ks|, i requires 0 <= i < |ks| => FromKnowledge(ks[i]))
  }

  /** How `order` and `requested` relate to the requested ids and the cache
      keys: each cached id is visited once, and the request names each
      uncached id once, and is made exactly when there is one. */
  ghost predicate Visits(citationIds: Ids, keys: set<Option<string>>, order: seq<string>, requested: Option<seq<string>>) {
    var ids := IdSet(citationIds);
    && Distinct(order) && (forall id :: id in order <==> id in CachedIds(ids, keys))
    && (requested.None? <==> UncachedIds(ids, keys) == {})
    && (requested.Some? ==>
          Distinct(requested.value) && forall id :: id in requested.value <==> id in UncachedIds(ids, keys))
  }

  /** What the corrected `load_citations_by_ids` returns, given the cache
      before the call, the order in which it visited the cached ids and the
      request it made: the cached citations followed by the fetched ones,
      or the first error raised. */
  function LoadOutcome(entries: map<Option<string>, CitationData>, order: seq<string>, requested: Option<seq<string>>,
                       fetch: seq<string> -> Result<seq<JsonValue>>, validate: JsonValue -> Result<Knowledge>)
    : Result<seq<CitationData>>
    requires forall id :: id in order ==> Some(id) in entries
  {
    var cached := Entries(entries, order);
    if requested.None? then Ok(cached)
    else
      match fetch(requested.value)
      case Err(e) => Err(e)
      case Ok(items) =>
        var v := Validated(items, validate);
        if v.1.Some? then Err(v.1.value) else Ok(cached + Converted(v.0))
  }

  /** The cache after the corrected call: every item converted before the
      first failure has been written, even when a later one raises. */
  function LoadedCache(entries: map<Option<string>, CitationData>, requested: Option<seq<string>>,
                       fetch: seq<string> -> Result<seq<JsonValue>>, validate: JsonValue -> Result<Knowledge>)
    : map<Option<string>, CitationData>
  {
    if requested.None? then entries
    else
      match fetch(requested.value)
      case Err(_) => entries
      case Ok(items) => Fill(entries, Validated(items, validate).0)
  }

  /** What `load_citations_by_ids` returns as written: the first fetched
      item raises before anything is appended or cached. */
  function LoadOutcomeAsWritten(entries: map<Option<string>, CitationData>, order: seq<string>,
                                requested: Option<seq<string>>, fetch: seq<string> -> Result<seq<JsonValue>>)
    : Result<seq<CitationData>>
    requires forall id :: id in order ==> Some(id) in entries
  {
    if requested.None? then Ok(Entries(entries, order))
    else
      match fetch(requested.value)
      case Err(e) => Err(e)
      case Ok(items) => if items == [] then Ok(Entries(entries, order)) else Err(NoSegmentId)
  }

  /** As written, a request that returns any item raises `AttributeError`,
      where the corrected loader, given items that all validate, returns
      one citation per cached id and per item and caches every item. */
  lemma AsWrittenRaisesOnFetchedItem(entries: map<Option<string>, CitationData>, order: seq<string>,
                                     requested: seq<string>, fetch: seq<string> -> Result<seq<JsonValue>>,
                                     validate: JsonValue -> Result<Knowledge>)
    requires forall id :: id in order ==> Some(id) in entries
    requires fetch(requested).Ok? && fetch(requested).value != []
    requires forall item :: item in fetch(requested).value ==> validate(item).Ok?
    ensures LoadOutcomeAsWritten(entries, order, Some(requested), fetch) == Err(NoSegmentId)
    ensures LoadOutcome(entries, order, Some(requested), fetch, validate).Ok?
    ensures |LoadOutcome(entries, order, Some(requested), fetch, validate).value|
         == |order| + |fetch(requested).value|
    ensures LoadedCache(entries, Some(requested), fetch, validate).Keys
         == entries.Keys + FetchedKeys(Validated(fetch(requested).value, validate).0)
  {
    var items := fetch(requested).value;
    ValidatedSpec(items, validate);
    var v := Validated(items, validate);
    FillSpec(entries, v.0);
  }

  /** The caller's `cached_citations` dict, which the function fills in
      place. */
  class CitationCache {
    var entries: map<Option<string>, CitationData>

    constructor (entries0: map<Option<string>, CitationData>)
      ensures entries == entries0
    {
      entries := entries0;
    }
  }

  /** The first lines of `load_citations_by_ids`: the requested ids split
      by the cache, the cached ones rebuilt in the order the set of them is
      visited, and the uncached ones. */
  method CachedPart(citationIds: Ids, cache: CitationCache)
    returns (citations: seq<CitationData>, order: seq<string>, uncached: set<string>)
    ensures var ids := IdSet(citationIds);
      && uncached == UncachedIds(ids, cache.entries.Keys)
      && Distinct(order) && (forall id :: id in order <==> id in CachedIds(ids, cache.entries.Keys))
    ensures forall id :: id in order ==> Some(id) in cache.entries
    ensures citations == Entries(cache.entries, order)
  {
    var ids := IdSet(citationIds);
    uncached := UncachedIds(ids, cache.entries.Keys);
    var cachedIds := CachedIds(ids, cache.entries.Keys);
    citations := [];
    order := [];
    var rest := cachedIds;
    while rest != {}
      invariant rest <= cachedIds
      invariant Distinct(order) && forall id :: id in order <==> id in cachedIds && id !in rest
      invariant forall id :: id in order ==> Some(id) in cache.entries
      invariant citations == Entries(cache.entries, order)
      decreases rest
    {
      var cid :| cid in rest;
      assert Entries(cache.entries, order + [cid])[..|order|] == Entries(cache.entries, order);
      citations := citations + [cache.entries[Some(cid)]];
      order := order + [cid];
      rest := rest - {cid};
    }
  }

  /** `list(uncached_ids)`, in the order the set is visited. */
  method ListIds(uncached: set<string>) returns (ask: seq<string>)
    ensures Distinct(ask) && forall id :: id in ask <==> id in uncached
  {
    ask := [];
    var left := uncached;
    while left != {}
      invariant left <= uncached
      invariant Distinct(ask) && forall id :: id in ask <==> id in uncached && id !in left
      decreases left
    {
      var id :| id in left;
      ask := ask + [id];
      left := left - {id};
    }
  }

  /** `load_citations_by_ids`, corrected to validate each fetched item as a
      `Knowledge` record before `from_knowledge`. `order` is the order in
      which the set of cached ids was visited, and `requested` the id list
      sent to the service, `None` when every id was cached and no request
      was made. An HTTP error propagates and leaves the cache as it was; an
      item that does not validate raises after the items before it were
      cached. */
  method LoadCitationsByIds(citationIds: Ids, cache: CitationCache, fetch: seq<string> -> Result<seq<JsonValue>>,
                            validate: JsonValue -> Result<Knowledge>)
    returns (r: Result<seq<CitationData>>, order: seq<string>, requested: Option<seq<string>>)
    modifies cache
    ensures Visits(citationIds, old(cache.entries).Keys, order, requested)
    ensures forall id :: id in order ==> Some(id) in old(cache.entries)
    ensures r == LoadOutcome(old(cache.entries), order, requested, fetch, validate)
    ensures cache.entries == LoadedCache(old(cache.entries), requested, fetch, validate)
  {
    var citations, uncached;
    citations, order, uncached := CachedPart(citationIds, cache);
    if uncached == {} {
      requested := None;
      return Ok(citations), order, requested;
    }
    var ask := ListIds(uncached);
    requested := Some(ask);
    var response := fetch(ask);
    if response.Err? {
      return Err(response.error), order, requested;
    }
    r := AppendFetched(cache, citations, response.value, validate);
  }

  /** The fetch loop of the corrected loader: each item is validated,
      turned into a citation, appended and cached, until one fails to
      validate, which raises. */
  method AppendFetched(cache: CitationCache, citations: seq<CitationData>, items: seq<JsonValue>,
                       validate: JsonValue -> Result<Knowledge>)
    returns (r: Result<seq<CitationData>>)
    modifies cache
    ensures var v := Validated(items, validate);
      && cache.entries == Fill(old(cache.entries), v.0)
      && r == if v.1.Some? then Err(v.1.value) else Ok(citations + Converted(v.0))
  {
    ghost var entries0 := cache.entries;
    var acc := citations;
    ghost var records: seq<Knowledge> := [];
    var i := 0;
    while i < |items|
      invariant 0 <= i <= |items|
      invariant Validated(items[..i], validate) == (records, None)
      invariant acc == citations + Converted(records)
      invariant cache.entries == Fill(entries0, records)
    {
      assert items[..i + 1][..i] == items[..i];
      var knowledge := validate(items[i]);
      if knowledge.Err? {
        ValidatedStops(items, i + 1, validate);
        return Err(knowledge.error);
      }
      var c := new Citation();
      var citation := c.FromKnowledge(knowledge.value);
      var data := citation.Data();
      acc := acc + [data];
      cache.entries := cache.entries[data.id := data];
      ghost var prev := records;
      records := records + [knowledge.value];
      assert records[..|records| - 1] == prev;
      i := i + 1;
    }
    assert items[..i] == items;
    r := Ok(acc);
  }

  /** Once an item fails to validate, later items change nothing. */
  lemma {:induction false} ValidatedStops(items: seq<JsonValue>, k: nat, validate: JsonValue -> Result<Knowledge>)
    requires k <= |items| && Validated(items[..k], validate).1.Some?
    ensures Validated(items, validate) == Validated(items[..k], validate)
    decreases |items| - k
  {
    if k < |items| {
      assert items[..k + 1][..k] == items[..k];
      ValidatedStops(items, k + 1, validate);
    } else {
      assert items[..k] == items;
    }
  }

  /** `load_citations_by_ids` as written: every id is served as in the
      corrected loader, but the first fetched item raises `AttributeError`
      in `from_knowledge`, before anything is appended or cached. */
  method LoadCitationsByIdsAsWritten(citationIds: Ids, cache: CitationCache, fetch: seq<string> -> Result<seq<JsonValue>>)
    returns (r: Result<seq<CitationData>>, order: seq<string>, requested: Option<seq<string>>)
    ensures Visits(citationIds, cache.entries.Keys, order, requested)
    ensures forall id :: id in order ==> Some(id) in cache.entries
    ensures r == LoadOutcomeAsWritten(cache.entries, order, requested, fetch)
  {
    var citations, uncached;
    citations, order, uncached := CachedPart(citationIds, cache);
    if uncached == {} {
      requested := None;
      return Ok(citations), order, requested;
    }
    var ask := ListIds(uncached);
    requested := Some(ask);
    var response := fetch(ask);
    if response.Err? {
      return Err(response.error), order, requested;
    }
    if response.value != [] {
      return Err(NoSegmentId), order, requested;
    }
    r := Ok(citations);
  }
}
