/**
 * The page cache shared by the apps, users, roles and sessions slices: a map
 * from page number to the records the server returned for that page, and the
 * list of loaded page numbers kept beside it.
 */
module PageCache {
  import opened Wrappers

  /** A cached row: its id, its `isActive` flag and everything else, opaque. */
  datatype Record = Record(id: int, isActive: bool, payload: string)

  /** `paginatedPages`: page number to the records of that page. */
  type Pages = map<int, seq<Record>>

  /**
   * The flat reference list (`apps`, `users`, `roles`, `sessions`); `Unloaded`
   * is the initial `['empty']` sentinel.
   */
  datatype RefList = Unloaded | Loaded(items: seq<Record>)

  /** The body of a paginated response: the record list and `totalPages`, either possibly missing. */
  datatype PageData = PageData(records: Option<seq<Record>>, totalPages: Option<int>)

  /** `data.<entity> || []`: a missing list reads as an empty page. */
  function RecordsOf(d: PageData): (r: seq<Record>)
    ensures d.records.Some? ==> r == d.records.value
    ensures d.records.None? ==> r == []
  {
    d.records.GetOr([])
  }

  /** `data.totalPages || 0`: a missing or zero count reads as 0. */
  function TotalOf(d: PageData): (t: int)
    ensures d.totalPages.Some? ==> t == d.totalPages.value
    ensures d.totalPages.None? ==> t == 0
  {
    d.totalPages.GetOr(0)
  }

  predicate NoDup(s: seq<int>) {
    forall i, j :: 0 <= i < j < |s| ==> s[i] != s[j]
  }

  /**
   * The cache invariant: the loaded list has no duplicates and holds exactly
   * the page numbers the map has entries for.
   */
  ghost predicate Coherent(pages: Pages, loaded: seq<int>) {
    NoDup(loaded) && forall p :: p in pages <==> p in loaded
  }

  /** `if (!loaded.includes(p)) loaded.push(p)`. */
  function AddLoaded(loaded: seq<int>, p: int): (r: seq<int>)
    ensures forall q :: q in r <==> q in loaded || q == p
    ensures NoDup(loaded) ==> NoDup(r)
    ensures p in loaded ==> r == loaded
    ensures p !in loaded ==> r == loaded + [p]
  {
    if p in loaded then loaded else loaded + [p]
  }

  /**
   * Storing a page keeps the cache coherent, makes the page present with the
   * given content whatever was there before, and leaves every other page alone.
   */
  lemma StoreCoherent(pages: Pages, loaded: seq<int>, p: int, recs: seq<Record>)
    requires Coherent(pages, loaded)
    ensures Coherent(pages[p := recs], AddLoaded(loaded, p))
    ensures p in AddLoaded(loaded, p) && pages[p := recs][p] == recs
    ensures forall q :: q in pages && q != p ==> pages[p := recs][q] == pages[q]
  {
  }

  /** Replaying the same page fulfilment changes nothing the first did not. */
  lemma StoreIdempotent(pages: Pages, loaded: seq<int>, p: int, recs: seq<Record>)
    ensures pages[p := recs][p := recs] == pages[p := recs]
    ensures AddLoaded(AddLoaded(loaded, p), p) == AddLoaded(loaded, p)
  {
  }

  /** Some record of the list carries this id. */
  predicate HasRecord(s: seq<Record>, id: int) {
    exists k :: 0 <= k < |s| && s[k].id == id
  }

  /** `records.findIndex(r => r.id === id)`: the first index holding `id`, or -1. */
  function FindIndex(s: seq<Record>, id: int): (i: int)
    ensures -1 <= i < |s|
    ensures i == -1 <==> !HasRecord(s, id)
    ensures i >= 0 ==> s[i].id == id && forall k :: 0 <= k < i ==> s[k].id != id
  {
    if |s| == 0 then -1
    else if s[0].id == id then 0
    else
      var j := FindIndex(s[1..], id);
      assert forall k :: 1 <= k < |s| ==> s[k] == s[1..][k - 1];
      if j == -1 then -1 else j + 1
  }

  /** `records.filter(r => r.id !== id)`. */
  function RemoveId(s: seq<Record>, id: int): (r: seq<Record>)
    ensures |r| <= |s|
    ensures !HasRecord(r, id)
    ensures !HasRecord(s, id) ==> r == s
    decreases |s|
  {
    if |s| == 0 then []
    else
      var rest := RemoveId(s[1..], id);
      assert s == [s[0]] + s[1..];
      if s[0].id == id then rest
      else
        assert forall k :: 1 <= k < |[s[0]] + rest| ==> ([s[0]] + rest)[k] == rest[k - 1];
        [s[0]] + rest
  }

  /** The filter keeps exactly the records whose id differs. */
  lemma {:induction false} RemoveIdMembers(s: seq<Record>, id: int, x: Record)
    ensures x in RemoveId(s, id) <==> x in s && x.id != id
    decreases |s|
  {
    if |s| > 0 {
      RemoveIdMembers(s[1..], id, x);
      assert s == [s[0]] + s[1..];
    }
  }

  /** Filtering distributes over concatenation, so the kept records stay in order. */
  lemma {:induction false} RemoveIdAppend(a: seq<Record>, b: seq<Record>, id: int)
    ensures RemoveId(a + b, id) == RemoveId(a, id) + RemoveId(b, id)
    decreases |a|
  {
    if |a| == 0 {
      assert a + b == b;
    } else {
      assert (a + b)[1..] == a[1..] + b;
      RemoveIdAppend(a[1..], b, id);
    }
  }

  /** Filtering twice is filtering once. */
  lemma RemoveIdIdempotent(s: seq<Record>, id: int)
    ensures RemoveId(RemoveId(s, id), id) == RemoveId(s, id)
  {
  }

  /** No record of the page shares an id with another. */
  predicate UniqueIds(s: seq<Record>) {
    forall i, j :: 0 <= i < j < |s| ==> s[i].id != s[j].id
  }

  /** `list.map(x => x.id === r.id ? r : x)`. */
  function ReplaceById(s: seq<Record>, r: Record): (t: seq<Record>)
  {
    seq(|s|, k requires 0 <= k < |s| => if s[k].id == r.id then r else s[k])
  }

  /**
   * The mapped list has the same length; every entry with that id becomes the
   * new record and every other entry stays at its index.
   */
  lemma ReplaceByIdSpec(s: seq<Record>, r: Record)
    ensures |ReplaceById(s, r)| == |s|
    ensures forall k :: 0 <= k < |s| && s[k].id == r.id ==> ReplaceById(s, r)[k] == r
    ensures forall k :: 0 <= k < |s| && s[k].id != r.id ==> ReplaceById(s, r)[k] == s[k]
  {
  }

  /**
   * The walk over one cached page on an update: when the page holds the id,
   * either the first copy is overwritten (`keep`) or every copy is filtered
   * out; a page without the id is left alone.
   */
  function PatchPage(s: seq<Record>, r: Record, keep: bool): seq<Record> {
    var i := FindIndex(s, r.id);
    if i == -1 then s
    else if keep then s[i := r]
    else RemoveId(s, r.id)
  }

  /** Every page of the map patched as `PatchPage` says. */
  function PatchedPages(pages: Pages, r: Record, keep: bool): (out: Pages)
    ensures out.Keys == pages.Keys
  {
    map p | p in pages :: PatchPage(pages[p], r, keep)
  }

  /** Some cached page holds a record with this id (`findIndex(...) !== -1`). */
  ghost predicate HasId(pages: Pages, id: int) {
    exists p :: p in pages && HasRecord(pages[p], id)
  }

  /** The map after the walk has visited the pages in `done`. */
  function PartlyPatched(pages: Pages, done: seq<int>, r: Record, keep: bool): (out: Pages)
    ensures out.Keys == pages.Keys
  {
    map p | p in pages :: if p in done then PatchPage(pages[p], r, keep) else pages[p]
  }

  /** Some page in `done` held the id. */
  ghost predicate FoundIn(pages: Pages, done: seq<int>, id: int) {
    exists p :: p in done && p in pages && HasRecord(pages[p], id)
  }

  /** Visiting one more page patches just that page. */
  lemma PartlyPatchedStep(pages: Pages, keys: seq<int>, i: nat, r: Record, keep: bool)
    requires i < |keys| && NoDup(keys) && keys[i] in pages
    ensures PartlyPatched(pages, keys[..i + 1], r, keep)
            == PartlyPatched(pages, keys[..i], r, keep)[keys[i] := PatchPage(pages[keys[i]], r, keep)]
    ensures PartlyPatched(pages, keys[..i], r, keep)[keys[i]] == pages[keys[i]]
    ensures FoundIn(pages, keys[..i + 1], r.id) <==> FoundIn(pages, keys[..i], r.id) || HasRecord(pages[keys[i]], r.id)
  {
    assert keys[..i + 1] == keys[..i] + [keys[i]];
    assert keys[i] !in keys[..i];
    var x := PartlyPatched(pages, keys[..i + 1], r, keep);
    var y := PartlyPatched(pages, keys[..i], r, keep)[keys[i] := PatchPage(pages[keys[i]], r, keep)];
    assert x.Keys == y.Keys;
    assert forall p :: p in x ==> x[p] == y[p];
  }

  /** Once every key is visited, the walk has patched the whole map. */
  lemma PartlyPatchedAll(pages: Pages, keys: seq<int>, r: Record, keep: bool)
    requires forall p :: p in pages <==> p in keys
    ensures PartlyPatched(pages, keys, r, keep) == PatchedPages(pages, r, keep)
    ensures FoundIn(pages, keys, r.id) <==> HasId(pages, r.id)
  {
    var x, y := PartlyPatched(pages, keys, r, keep), PatchedPages(pages, r, keep);
    assert x.Keys == y.Keys;
    assert forall p :: p in x ==> x[p] == y[p];
  }

  /**
   * `Object.keys(pages).forEach(...)` on an update: each page is patched
   * independently; `found` says whether any page held the id. `keys` lists
   * the page numbers of the map once each (the slices pass their loaded list,
   * which holds exactly those numbers).
   */
  method PatchPages(pages: Pages, keys: seq<int>, r: Record, keep: bool) returns (out: Pages, found: bool)
    requires NoDup(keys) && forall p :: p in pages <==> p in keys
    ensures out == PatchedPages(pages, r, keep)
    ensures found <==> HasId(pages, r.id)
  {
    out, found := pages, false;
    assert keys[..0] == [];
    assert out == PartlyPatched(pages, keys[..0], r, keep);
    for i := 0 to |keys|
      invariant out == PartlyPatched(pages, keys[..i], r, keep)
      invariant found <==> FoundIn(pages, keys[..i], r.id)
    {
      var p := keys[i];
      PartlyPatchedStep(pages, keys, i, r, keep);
      var page := out[p];
      var j := FindIndex(page, r.id);
      if j != -1 {
        found := true;
        if keep {
          out := out[p := page[j := r]];
        } else {
          out := out[p := RemoveId(page, r.id)];
        }
      }
    }
    assert keys[..|keys|] == keys;
    PartlyPatchedAll(pages, keys, r, keep);
  }

  /**
   * An in-place patch keeps every page's length and every record other than
   * the first copy of the id; with ids unique on each page, every copy of the
   * id left in the cache is the new record.
   */
  lemma PatchKeepInPlace(pages: Pages, r: Record)
    ensures forall p :: p in pages ==> |PatchedPages(pages, r, true)[p]| == |pages[p]|
    ensures forall p, k :: p in pages && 0 <= k < |pages[p]| && pages[p][k].id != r.id
              ==> PatchedPages(pages, r, true)[p][k] == pages[p][k]
    ensures (forall p :: p in pages ==> UniqueIds(pages[p])) ==>
              forall p, k :: p in pages && 0 <= k < |pages[p]| && pages[p][k].id == r.id
                ==> PatchedPages(pages, r, true)[p][k] == r
  {
    var out := PatchedPages(pages, r, true);
    forall p, k | p in pages && 0 <= k < |pages[p]| && pages[p][k].id == r.id && UniqueIds(pages[p])
      ensures out[p][k] == r
    {
      var i := FindIndex(pages[p], r.id);
      assert i == k;
    }
  }

  /** After a removing patch no page holds the id, and the others keep their order. */
  lemma PatchRemoveGone(pages: Pages, r: Record)
    ensures !HasId(PatchedPages(pages, r, false), r.id)
    ensures forall p :: p in pages ==> PatchedPages(pages, r, false)[p] == RemoveId(pages[p], r.id)
  {
    var out := PatchedPages(pages, r, false);
    forall p | p in out ensures !HasRecord(out[p], r.id) {
    }
  }

  /** Every page with the id filtered out (the sessions delete). */
  function FilteredPages(pages: Pages, id: int): (out: Pages)
    ensures out.Keys == pages.Keys
    ensures !HasId(out, id)
  {
    map p | p in pages :: RemoveId(pages[p], id)
  }

  /** Deleting twice is deleting once. */
  lemma FilteredIdempotent(pages: Pages, id: int)
    ensures FilteredPages(FilteredPages(pages, id), id) == FilteredPages(pages, id)
  {
    var once := FilteredPages(pages, id);
    assert FilteredPages(once, id).Keys == once.Keys;
    assert forall p :: p in once ==> FilteredPages(once, id)[p] == once[p];
  }

  /** The map after the delete walk has visited the pages in `done`. */
  function PartlyFiltered(pages: Pages, done: seq<int>, id: int): (out: Pages)
    ensures out.Keys == pages.Keys
  {
    map p | p in pages :: if p in done then RemoveId(pages[p], id) else pages[p]
  }

  /** Visiting one more page filters just that page. */
  lemma PartlyFilteredStep(pages: Pages, keys: seq<int>, i: nat, id: int)
    requires i < |keys| && NoDup(keys) && keys[i] in pages
    ensures PartlyFiltered(pages, keys[..i + 1], id)
            == PartlyFiltered(pages, keys[..i], id)[keys[i] := RemoveId(pages[keys[i]], id)]
    ensures PartlyFiltered(pages, keys[..i], id)[keys[i]] == pages[keys[i]]
  {
    assert keys[..i + 1] == keys[..i] + [keys[i]];
    assert keys[i] !in keys[..i];
    var x := PartlyFiltered(pages, keys[..i + 1], id);
    var y := PartlyFiltered(pages, keys[..i], id)[keys[i] := RemoveId(pages[keys[i]], id)];
    assert x.Keys == y.Keys;
    assert forall p :: p in x ==> x[p] == y[p];
  }

  /** Once every key is visited, the walk has filtered the whole map. */
  lemma PartlyFilteredAll(pages: Pages, keys: seq<int>, id: int)
    requires forall p :: p in pages <==> p in keys
    ensures PartlyFiltered(pages, keys, id) == FilteredPages(pages, id)
  {
    var x, y := PartlyFiltered(pages, keys, id), FilteredPages(pages, id);
    assert x.Keys == y.Keys;
    assert forall p :: p in x ==> x[p] == y[p];
  }

  /** `Object.keys(pages).forEach(p => pages[p] = pages[p].filter(r => r.id !== id))`. */
  method FilterPages(pages: Pages, keys: seq<int>, id: int) returns (out: Pages)
    requires NoDup(keys) && forall p :: p in pages <==> p in keys
    ensures out == FilteredPages(pages, id)
  {
    out := pages;
    assert keys[..0] == [];
    assert out == PartlyFiltered(pages, keys[..0], id);
    for i := 0 to |keys|
      invariant out == PartlyFiltered(pages, keys[..i], id)
    {
      var p := keys[i];
      PartlyFilteredStep(pages, keys, i, id);
      out := out[p := RemoveId(out[p], id)];
    }
    assert keys[..|keys|] == keys;
    PartlyFilteredAll(pages, keys, id);
  }

  /**
   * One partition of a slice's cache as a value: `paginatedPages`,
   * `loadedPages` and `totalPages`.
   */
  datatype Cache = Cache(pages: Pages, loaded: seq<int>, total: int) {
    ghost predicate Valid() {
      Coherent(pages, loaded)
    }
  }

  /** The partition as `clearPaginatedCache` leaves it. */
  function Empty(): (c: Cache)
    ensures c.Valid() && c.pages == map[] && c.loaded == [] && c.total == 0
  {
    Cache(map[], [], 0)
  }

  /** A fulfilled page fetch: the page stored, marked loaded, the total overwritten. */
  function Store(c: Cache, page: int, data: PageData): Cache {
    Cache(c.pages[page := RecordsOf(data)], AddLoaded(c.loaded, page), TotalOf(data))
  }

  /** A create: pages and loaded list dropped, the total kept. */
  function Invalidate(c: Cache): Cache {
    Cache(map[], [], c.total)
  }

  /** An update walk over every cached page (see `PatchPage`). */
  function Patch(c: Cache, r: Record, keep: bool): Cache {
    Cache(PatchedPages(c.pages, r, keep), c.loaded, c.total)
  }

  /** A delete: the id filtered out of every cached page. */
  function Filter(c: Cache, id: int): Cache {
    Cache(FilteredPages(c.pages, id), c.loaded, c.total)
  }

  /** The cached page, if loaded. */
  function Lookup(c: Cache, page: int): Option<seq<Record>> {
    if page in c.pages then Some(c.pages[page]) else None
  }

  /**
   * A fulfilled fetch keeps the partition coherent; the page is then loaded and
   * holds `data.<entity> || []` whatever it held before, the total is
   * `data.totalPages || 0`, and every other page is as it was.
   */
  lemma StoreSpec(c: Cache, page: int, data: PageData)
    requires c.Valid()
    ensures Store(c, page, data).Valid()
    ensures page in Store(c, page, data).loaded
    ensures Lookup(Store(c, page, data), page) == Some(RecordsOf(data))
    ensures Store(c, page, data).total == TotalOf(data)
    ensures forall q :: q != page ==> Lookup(Store(c, page, data), q) == Lookup(c, q)
    ensures |Store(c, page, data).loaded| == |c.loaded| + (if page in c.loaded then 0 else 1)
  {
    StoreCoherent(c.pages, c.loaded, page, RecordsOf(data));
  }

  /** Replaying a fulfilment is the same as applying it once (last write wins). */
  lemma StoreReplay(c: Cache, page: int, data: PageData)
    ensures Store(Store(c, page, data), page, data) == Store(c, page, data)
  {
    StoreIdempotent(c.pages, c.loaded, page, RecordsOf(data));
  }

  /** Two fulfilments of one page: the later one is what stays cached. */
  lemma StoreLastWins(c: Cache, page: int, d1: PageData, d2: PageData)
    ensures Store(Store(c, page, d1), page, d2) == Store(c, page, d2)
  {
    var s := Store(Store(c, page, d1), page, d2);
    var t := Store(c, page, d2);
    assert s.pages.Keys == t.pages.Keys;
    assert forall q :: q in s.pages ==> s.pages[q] == t.pages[q];
  }

  /** After a create no page of the partition is loaded; its total is kept. */
  lemma InvalidateSpec(c: Cache)
    ensures Invalidate(c).Valid()
    ensures forall q :: Lookup(Invalidate(c), q).None? && q !in Invalidate(c).loaded
    ensures Invalidate(c).total == c.total
  {
  }

  /**
   * An in-place update walk keeps the loaded list, the total, every page's
   * length and every record with another id at its index; with ids unique on
   * each page every copy of the id becomes the new record.
   */
  lemma PatchKeepSpec(c: Cache, r: Record)
    requires c.Valid()
    ensures Patch(c, r, true).Valid()
    ensures Patch(c, r, true).loaded == c.loaded && Patch(c, r, true).total == c.total
    ensures Patch(c, r, true).pages.Keys == c.pages.Keys
    ensures forall p :: p in c.pages ==> |Patch(c, r, true).pages[p]| == |c.pages[p]|
    ensures forall p, k :: p in c.pages && 0 <= k < |c.pages[p]| && c.pages[p][k].id != r.id
              ==> Patch(c, r, true).pages[p][k] == c.pages[p][k]
    ensures (forall p :: p in c.pages ==> UniqueIds(c.pages[p])) ==>
              forall p, k :: p in c.pages && 0 <= k < |c.pages[p]| && c.pages[p][k].id == r.id
                ==> Patch(c, r, true).pages[p][k] == r
  {
    PatchKeepInPlace(c.pages, r);
  }

  /** A removing walk keeps the partition coherent and leaves no copy of the id. */
  lemma PatchRemoveSpec(c: Cache, r: Record)
    requires c.Valid()
    ensures Patch(c, r, false).Valid()
    ensures Patch(c, r, false).loaded == c.loaded
    ensures !HasId(Patch(c, r, false).pages, r.id)
    ensures forall p :: p in c.pages ==> Patch(c, r, false).pages[p] == RemoveId(c.pages[p], r.id)
  {
    PatchRemoveGone(c.pages, r);
  }

  /**
   * A delete keeps the page numbers and the loaded list, leaves no record with
   * the id, keeps every other record, and is idempotent.
   */
  lemma FilterSpec(c: Cache, id: int)
    requires c.Valid()
    ensures Filter(c, id).Valid()
    ensures Filter(c, id).loaded == c.loaded && Filter(c, id).pages.Keys == c.pages.Keys
    ensures !HasId(Filter(c, id).pages, id)
    ensures forall p, x :: p in c.pages && x in c.pages[p] && x.id != id ==> x in Filter(c, id).pages[p]
    ensures Filter(Filter(c, id), id) == Filter(c, id)
  {
    forall p, x | p in c.pages && x in c.pages[p] && x.id != id
      ensures x in Filter(c, id).pages[p]
    {
      RemoveIdMembers(c.pages[p], id, x);
    }
    FilteredIdempotent(c.pages, id);
  }

  /** The reference list after `list.map(x => x.id === r.id ? r : x)`, unless still the sentinel. */
  function RefReplaced(l: RefList, r: Record): (out: RefList)
    ensures l.Unloaded? ==> out.Unloaded?
    ensures l.Loaded? ==> out == Loaded(ReplaceById(l.items, r))
  {
    if l.Loaded? then Loaded(ReplaceById(l.items, r)) else Unloaded
  }

  /** The reference list after `list.push(r)`, unless still the sentinel. */
  function RefAppended(l: RefList, r: Record): (out: RefList)
    ensures l.Unloaded? ==> out.Unloaded?
    ensures l.Loaded? ==> out == Loaded(l.items + [r])
  {
    if l.Loaded? then Loaded(l.items + [r]) else Unloaded
  }

  /** The reference list after `list.filter(x => x.id !== id)`, unless still the sentinel. */
  function RefFiltered(l: RefList, id: int): (out: RefList)
    ensures l.Unloaded? ==> out.Unloaded?
    ensures l.Loaded? ==> out == Loaded(RemoveId(l.items, id))
  {
    if l.Loaded? then Loaded(RemoveId(l.items, id)) else Unloaded
  }

  /** An update walk keeps the page numbers, hence the coherence. */
  lemma PatchValid(c: Cache, r: Record, keep: bool)
    requires c.Valid()
    ensures Patch(c, r, keep).Valid()
  {
  }

  /** A walk that removes an id no page holds changes nothing. */
  lemma PatchAbsent(c: Cache, r: Record, keep: bool)
    requires !HasId(c.pages, r.id)
    ensures Patch(c, r, keep) == c
  {
    var out := PatchedPages(c.pages, r, keep);
    assert out.Keys == c.pages.Keys;
    assert forall p :: p in out ==> out[p] == c.pages[p];
  }

  /** The active and inactive partitions of the apps and users slices. */
  datatype Partitions = Partitions(active: Cache, inactive: Cache) {
    ghost predicate Valid() {
      active.Valid() && inactive.Valid()
    }

    /** The partition an `isActive` flag selects. */
    function Of(isActive: bool): Cache {
      if isActive then active else inactive
    }
  }

  /**
   * A fulfilled fetch in the partition chosen by `isActive`: that partition
   * stores the page, the other is untouched.
   */
  function StoreIn(c: Partitions, isActive: bool, page: int, data: PageData): (out: Partitions)
    ensures out.Of(isActive) == Store(c.Of(isActive), page, data)
    ensures out.Of(!isActive) == c.Of(!isActive)
  {
    if isActive then Partitions(Store(c.active, page, data), c.inactive)
    else Partitions(c.active, Store(c.inactive, page, data))
  }
}
