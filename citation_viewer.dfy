/** The ordering logic of `show_citations` in
    src/hurag_webui/viewers/citation_viewer.py: nothing is loaded for an
    empty id collection; loaded citations are sorted by
    `f"{doc_id}_{id}"` when the ids came as a set, and otherwise follow the
    order of the ids, dropping ids without a citation; the cards are
    labelled `1.`, `2.`, ... in the final order. The card, the spinner and
    the notifications are not modelled. */
module CitationViewer {
  import opened Wrappers
  import opened Text
  import opened CitationModel
  import opened CitationService

  /** `not ids`. */
  predicate NoIds(ids: Ids) {
    match ids
    case Listed(list) => list == []
    case Unordered(items) => items == {}
  }

  /** The sort key `f"{c.doc_id}_{c.id}"`. */
  function SortKey(c: CitationData): string {
    Show(c.docId) + "_" + Show(c.id)
  }

  // ---------------------------------------------------------------------
  // Python's string order: lexicographic by code point

  predicate StrLe(a: string, b: string) {
    a == [] || (b != [] && (a[0] < b[0] || (a[0] == b[0] && StrLe(a[1..], b[1..]))))
  }

  lemma {:induction false} StrLeRefl(a: string)
    ensures StrLe(a, a)
  {
    if a != [] {
      StrLeRefl(a[1..]);
    }
  }

  lemma {:induction false} StrLeTotal(a: string, b: string)
    ensures StrLe(a, b) || StrLe(b, a)
  {
    if a != [] && b != [] && a[0] == b[0] {
      StrLeTotal(a[1..], b[1..]);
    }
  }

  lemma {:induction false} StrLeTrans(a: string, b: string, c: string)
    requires StrLe(a, b) && StrLe(b, c)
    ensures StrLe(a, c)
  {
    if a != [] && a[0] == b[0] && b[0] == c[0] {
      StrLeTrans(a[1..], b[1..], c[1..]);
    }
  }

  // ---------------------------------------------------------------------
  // `citations.sort(key=lambda c: f"{c.doc_id}_{c.id}")`

  predicate SortedByKey(xs: seq<CitationData>) {
    forall i, j :: 0 <= i < j < |xs| ==> StrLe(SortKey(xs[i]), SortKey(xs[j]))
  }

  /** Places `x` after every element whose key is not greater. */
  function Insert(ys: seq<CitationData>, x: CitationData): (r: seq<CitationData>)
    ensures multiset(r) == multiset(ys) + multiset{x}
  {
    if ys == [] then [x]
    else if StrLe(SortKey(ys[0]), SortKey(x)) then
      assert ys == [ys[0]] + ys[1..];
      [ys[0]] + Insert(ys[1..], x)
    else [x] + ys
  }

  /** Python's sort: stable, so citations with the same key keep the order
      in which they were loaded. */
  function SortByKey(xs: seq<CitationData>): seq<CitationData> {
    if xs == [] then [] else Insert(SortByKey(xs[..|xs| - 1]), xs[|xs| - 1])
  }

  /** The citations with key `k`, in order. */
  function WithKey(xs: seq<CitationData>, k: string): seq<CitationData> {
    if xs == [] then [] else (if SortKey(xs[0]) == k then [xs[0]] else []) + WithKey(xs[1..], k)
  }

  lemma {:induction false} WithKeyConcat(a: seq<CitationData>, b: seq<CitationData>, k: string)
    ensures WithKey(a + b, k) == WithKey(a, k) + WithKey(b, k)
  {
    if a != [] {
      assert (a + b)[1..] == a[1..] + b;
      WithKeyConcat(a[1..], b, k);
    } else {
      assert a + b == b;
    }
  }

  lemma {:induction false} WithKeyNone(xs: seq<CitationData>, k: string)
    requires forall i :: 0 <= i < |xs| ==> SortKey(xs[i]) != k
    ensures WithKey(xs, k) == []
  {
    if xs != [] {
      WithKeyNone(xs[1..], k);
    }
  }

  lemma {:induction false} InsertSorted(ys: seq<CitationData>, x: CitationData)
    requires SortedByKey(ys)
    ensures SortedByKey(Insert(ys, x))
  {
    if ys != [] {
      var k0 := SortKey(ys[0]);
      var r := Insert(ys, x);
      if StrLe(k0, SortKey(x)) {
        var rest := Insert(ys[1..], x);
        InsertSorted(ys[1..], x);
        assert r == [ys[0]] + rest;
        forall j | 0 <= j < |rest|
          ensures StrLe(k0, SortKey(rest[j]))
        {
          assert rest[j] in multiset(rest);
          if rest[j] != x {
            assert rest[j] in multiset(ys[1..]);
            var m :| 0 <= m < |ys[1..]| && ys[1..][m] == rest[j];
            assert ys[m + 1] == rest[j];
          }
        }
      } else {
        StrLeTotal(k0, SortKey(x));
        forall j | 0 <= j < |ys|
          ensures StrLe(SortKey(x), SortKey(ys[j]))
        {
          if j > 0 {
            StrLeTrans(SortKey(x), k0, SortKey(ys[j]));
          }
        }
      }
    }
  }

  /** Inserting `x` adds it after the citations that share its key. */
  lemma {:induction false} InsertStable(ys: seq<CitationData>, x: CitationData, k: string)
    requires SortedByKey(ys)
    ensures WithKey(Insert(ys, x), k) == WithKey(ys, k) + (if SortKey(x) == k then [x] else [])
  {
    if ys == [] {
    } else if StrLe(SortKey(ys[0]), SortKey(x)) {
      InsertStable(ys[1..], x, k);
      InsertStableSkip(ys, x, k);
    } else {
      InsertStableFront(ys, x, k);
    }
  }

  /** When `x` goes after the first citation, the first citation stays
      first and the rest is an insertion into the tail. */
  lemma InsertStableSkip(ys: seq<CitationData>, x: CitationData, k: string)
    requires ys != [] && StrLe(SortKey(ys[0]), SortKey(x))
    requires WithKey(Insert(ys[1..], x), k) == WithKey(ys[1..], k) + (if SortKey(x) == k then [x] else [])
    ensures WithKey(Insert(ys, x), k) == WithKey(ys, k) + (if SortKey(x) == k then [x] else [])
  {
    var rest := Insert(ys[1..], x);
    var h := if SortKey(ys[0]) == k then [ys[0]] else [];
    var t := if SortKey(x) == k then [x] else [];
    calc {
      WithKey(Insert(ys, x), k);
      == { InsertAfterFirst(ys, x); }
      WithKey([ys[0]] + rest, k);
      == { WithKeyCons(ys[0], rest, k); }
      h + WithKey(rest, k);
      == { ConcatAssoc(h, WithKey(ys[1..], k), t); }
      (h + WithKey(ys[1..], k)) + t;
      == { WithKeyCons(ys[0], ys[1..], k); assert [ys[0]] + ys[1..] == ys; }
      WithKey(ys, k) + t;
    }
  }

  lemma ConcatAssoc<T>(a: seq<T>, b: seq<T>, c: seq<T>)
    ensures a + (b + c) == (a + b) + c
  {
  }

  lemma InsertAfterFirst(ys: seq<CitationData>, x: CitationData)
    requires ys != [] && StrLe(SortKey(ys[0]), SortKey(x))
    ensures Insert(ys, x) == [ys[0]] + Insert(ys[1..], x)
  {
  }

  lemma WithKeyCons(c: CitationData, rest: seq<CitationData>, k: string)
    ensures WithKey([c] + rest, k) == (if SortKey(c) == k then [c] else []) + WithKey(rest, k)
  {
    assert ([c] + rest)[1..] == rest;
  }

  /** When `x` goes in front, no citation of `ys` shares its key. */
  lemma InsertStableFront(ys: seq<CitationData>, x: CitationData, k: string)
    requires SortedByKey(ys) && ys != [] && !StrLe(SortKey(ys[0]), SortKey(x))
    ensures WithKey(Insert(ys, x), k) == WithKey(ys, k) + (if SortKey(x) == k then [x] else [])
  {
    var r := Insert(ys, x);
    assert r == [x] + ys;
    assert r[1..] == ys;
    if SortKey(x) == k {
      StrLeRefl(k);
      forall i | 0 <= i < |ys|
        ensures SortKey(ys[i]) != k
      {
        if i > 0 {
          assert StrLe(SortKey(ys[0]), SortKey(ys[i]));
        }
      }
      WithKeyNone(ys, k);
    }
  }

  /** The sort puts the citations in key order, loses or adds none, and
      keeps the loaded order among citations with the same key: together
      these determine the result. */
  lemma {:induction false} SortByKeySpec(xs: seq<CitationData>)
    ensures SortedByKey(SortByKey(xs))
    ensures multiset(SortByKey(xs)) == multiset(xs)
    ensures forall k :: WithKey(SortByKey(xs), k) == WithKey(xs, k)
  {
    if xs != [] {
      var front := xs[..|xs| - 1];
      var x := xs[|xs| - 1];
      SortByKeySpec(front);
      assert xs == front + [x];
      assert SortByKey(xs) == Insert(SortByKey(front), x);
      SortStep(front, x, SortByKey(front), SortByKey(xs), xs);
    }
  }

  /** One step of the insertion: inserting `x` into a sorted, stable
      arrangement of `front` gives one of `front + [x]`. */
  lemma SortStep(front: seq<CitationData>, x: CitationData, sorted: seq<CitationData>,
                 r: seq<CitationData>, xs: seq<CitationData>)
    requires SortedByKey(sorted) && multiset(sorted) == multiset(front)
    requires forall k :: WithKey(sorted, k) == WithKey(front, k)
    requires r == Insert(sorted, x) && xs == front + [x]
    ensures SortedByKey(r)
    ensures multiset(r) == multiset(xs)
    ensures forall k :: WithKey(r, k) == WithKey(xs, k)
  {
    InsertSorted(sorted, x);
    forall k
      ensures WithKey(r, k) == WithKey(xs, k)
    {
      StableStep(front, x, sorted, k);
    }
  }

  lemma StableStep(front: seq<CitationData>, x: CitationData, sorted: seq<CitationData>, k: string)
    requires SortedByKey(sorted) && WithKey(sorted, k) == WithKey(front, k)
    ensures WithKey(Insert(sorted, x), k) == WithKey(front + [x], k)
  {
    InsertStable(sorted, x, k);
    WithKeyConcat(front, [x], k);
    assert [x][1..] == [];
  }

  // ---------------------------------------------------------------------
  // `id_to_citation` and the comprehension over `ids`

  /** `{c.id: c for c in citations}`: the last citation with an id wins. */
  function IdToCitation(cs: seq<CitationData>): map<Option<string>, CitationData> {
    if cs == [] then map[] else IdToCitation(cs[..|cs| - 1])[cs[|cs| - 1].id := cs[|cs| - 1]]
  }

  /** The keys are exactly the ids of the loaded citations. */
  lemma {:induction false} IdToCitationKeys(cs: seq<CitationData>)
    ensures forall key :: key in IdToCitation(cs) <==> exists i :: 0 <= i < |cs| && cs[i].id == key
  {
    if cs != [] {
      var front := cs[..|cs| - 1];
      var last := cs[|cs| - 1];
      IdToCitationKeys(front);
      forall key
        ensures key in IdToCitation(cs) <==> exists i :: 0 <= i < |cs| && cs[i].id == key
      {
        if key != last.id && exists i :: 0 <= i < |cs| && cs[i].id == key {
          var i :| 0 <= i < |cs| && cs[i].id == key;
          assert front[i].id == key;
        }
        if key in IdToCitation(front) {
          var i :| 0 <= i < |front| && front[i].id == key;
          assert cs[i].id == key;
        }
      }
    }
  }

  /** The citation an id maps to is the last loaded citation with that id. */
  predicate LastWithId(cs: seq<CitationData>, key: Option<string>, c: CitationData) {
    exists i :: 0 <= i < |cs| && c == cs[i] && cs[i].id == key && forall j :: i < j < |cs| ==> cs[j].id != key
  }

  lemma {:induction false} IdToCitationLastWins(cs: seq<CitationData>)
    ensures forall key :: key in IdToCitation(cs) ==> LastWithId(cs, key, IdToCitation(cs)[key])
  {
    if cs != [] {
      var front := cs[..|cs| - 1];
      var last := cs[|cs| - 1];
      IdToCitationLastWins(front);
      forall key | key in IdToCitation(cs)
        ensures LastWithId(cs, key, IdToCitation(cs)[key])
      {
        if key == last.id {
          assert IdToCitation(cs)[key] == cs[|cs| - 1];
        } else {
          assert LastWithId(front, key, IdToCitation(front)[key]);
          var i :| 0 <= i < |front| && IdToCitation(front)[key] == front[i] && front[i].id == key
            && forall j :: i < j < |front| ==> front[j].id != key;
          assert IdToCitation(cs)[key] == cs[i];
        }
      }
    }
  }

  /** `[id_to_citation[cid] for cid in ids if cid in id_to_citation]`. */
  function Reorder(ids: seq<string>, m: map<Option<string>, CitationData>): seq<CitationData> {
    if ids == [] then []
    else
      var last := ids[|ids| - 1];
      Reorder(ids[..|ids| - 1], m) + (if Some(last) in m then [m[Some(last)]] else [])
  }

  /** The ids that have a citation, in order, with repetitions. */
  function PresentIds(ids: seq<string>, m: map<Option<string>, CitationData>): (r: seq<string>)
    ensures forall id :: id in r <==> id in ids && Some(id) in m
  {
    if ids == [] then []
    else
      var last := ids[|ids| - 1];
      PresentIds(ids[..|ids| - 1], m) + (if Some(last) in m then [last] else [])
  }

  /** The reordered list has one citation per id that has one, in the
      order of the ids: an id listed twice shows its citation twice, and an
      id without a citation is skipped. */
  lemma {:induction false} ReorderSpec(ids: seq<string>, m: map<Option<string>, CitationData>)
    ensures |Reorder(ids, m)| == |PresentIds(ids, m)|
    ensures forall i :: 0 <= i < |PresentIds(ids, m)| ==> Some(PresentIds(ids, m)[i]) in m
    ensures forall i :: 0 <= i < |PresentIds(ids, m)| ==> Reorder(ids, m)[i] == m[Some(PresentIds(ids, m)[i])]
  {
    if ids != [] {
      ReorderSpec(ids[..|ids| - 1], m);
    }
  }

  /** When every id has a citation, the list follows the ids one to one. */
  lemma {:induction false} AllPresentFollowsIds(ids: seq<string>, m: map<Option<string>, CitationData>)
    requires forall i :: 0 <= i < |ids| ==> Some(ids[i]) in m
    ensures |Reorder(ids, m)| == |ids|
    ensures forall i :: 0 <= i < |ids| ==> Reorder(ids, m)[i] == m[Some(ids[i])]
  {
    if ids != [] {
      AllPresentFollowsIds(ids[..|ids| - 1], m);
    }
  }

  /** The order in which the citations are shown. */
  function Order(ids: Ids, loaded: seq<CitationData>): seq<CitationData> {
    match ids
    case Unordered(_) => SortByKey(loaded)
    case Listed(list) => Reorder(list, IdToCitation(loaded))
  }

  // ---------------------------------------------------------------------
  // Labels

  /** `f"{i + 1}.{ct.doc}"`. */
  function Label(i: nat, c: CitationData): string {
    NatToString(i + 1) + "." + Show(c.doc)
  }

  function Labels(cs: seq<CitationData>): (r: seq<string>)
    ensures |r| == |cs|
  {
    seq(|cs|, i requires 0 <= i < |cs| => Label(i, cs[i]))
  }

  /** Cards at different positions get different labels, whatever their
      titles: the number before the first `.` is the position plus one. */
  lemma LabelsDistinct(i: nat, j: nat, c: CitationData, d: CitationData)
    requires i != j
    ensures Label(i, c) != Label(j, d)
  {
    var p := NatToString(i + 1);
    var q := NatToString(j + 1);
    var a := Label(i, c);
    var b := Label(j, d);
    assert a[..|p|] == p && a[|p|] == '.';
    assert b[..|q|] == q && b[|q|] == '.';
    if |p| < |q| {
      assert b[|p|] == q[|p|] && q[|p|] != '.';
    } else if |q| < |p| {
      assert a[|q|] == p[|q|] && p[|q|] != '.';
    } else {
      assert p != q by {
        if p == q {
          NatToStringInjective(i + 1, j + 1);
        }
      }
    }
  }

  /** What awaiting the list the synchronous loader returns raises. */
  const AwaitList := TypeError("object list can't be used in 'await' expression")

  /** `show_citations`, corrected to call the synchronous loader without
      `await`: `None` when there is nothing to show (the warning case,
      nothing is loaded); otherwise the loader's outcome and, when it
      succeeded, the labels of the cards in display order. `loaded` is what
      the loader returned, and `order` and `requested` are how it visited
      the cached ids and what it asked the service for. */
  method ShowCitations(cache: CitationCache, ids: Ids, fetch: seq<string> -> Result<seq<JsonValue>>,
                       validate: JsonValue -> Result<Knowledge>)
    returns (shown: Option<Result<seq<string>>>, loaded: seq<CitationData>, ordered: seq<CitationData>,
             order: seq<string>, requested: Option<seq<string>>)
    modifies cache
    ensures NoIds(ids) <==> shown.None?
    ensures NoIds(ids) ==> cache.entries == old(cache.entries)
    ensures !NoIds(ids) ==>
      && Visits(ids, old(cache.entries).Keys, order, requested)
      && (forall id :: id in order ==> Some(id) in old(cache.entries))
      && cache.entries == LoadedCache(old(cache.entries), requested, fetch, validate)
      && var r := LoadOutcome(old(cache.entries), order, requested, fetch, validate);
         && (r.Err? ==> shown == Some(Err(r.error)))
         && (r.Ok? ==> loaded == r.value && ordered == Order(ids, loaded) && shown == Some(Ok(Labels(ordered))))
  {
    if NoIds(ids) {
      return None, [], [], [], None;
    }
    var r;
    r, order, requested := LoadCitationsByIds(ids, cache, fetch, validate);
    if r.Err? {
      return Some(Err(r.error)), [], [], order, requested;
    }
    loaded := r.value;
    ordered := Order(ids, loaded);
    shown := Some(Ok(Labels(ordered)));
  }

  /** `show_citations` as written: it awaits the list the synchronous
      loader returns, so for any ids at all no card is ever labelled; the
      call raises the loader's error, or `TypeError` once the loader has
      returned. The as-written loader never writes the cache. */
  method ShowCitationsAsWritten(cache: CitationCache, ids: Ids, fetch: seq<string> -> Result<seq<JsonValue>>)
    returns (shown: Option<Result<seq<string>>>, order: seq<string>, requested: Option<seq<string>>)
    ensures NoIds(ids) <==> shown.None?
    ensures shown.Some? ==> shown.value.Err?
    ensures !NoIds(ids) ==>
      && Visits(ids, cache.entries.Keys, order, requested)
      && (forall id :: id in order ==> Some(id) in cache.entries)
      && var r := LoadOutcomeAsWritten(cache.entries, order, requested, fetch);
         shown == Some(Err(if r.Ok? then AwaitList else r.error))
  {
    if NoIds(ids) {
      return None, [], None;
    }
    var r;
    r, order, requested := LoadCitationsByIdsAsWritten(ids, cache, fetch);
    if r.Err? {
      return Some(Err(r.error)), order, requested;
    }
    shown := Some(Err(AwaitList));
  }
}
