/** The browse page's request building and paging: the filter object, the
    pruning of inactive filters before a fetch, the two updaters that reset
    the page, and the previous/next clamps and page links. The fetch itself
    is a parameter. */
module Browse {
  import opened Wrappers

  const PetsPerPage: nat := 9
  const LoadFailed := "Could not load pets. Please try again later."

  /** A filter value: the page holds strings and one boolean. */
  datatype FilterValue = Text(s: string) | Flag(b: bool)

  /** A filter object as its entries, in JavaScript's key order. */
  type Filters = seq<(string, FilterValue)>

  /** The initial `{ species: 'all', breed: '', vaccinated: false, status: 'all' }`. */
  const InitialFilters: Filters := [("species", Text("all")), ("breed", Text("")), ("vaccinated", Flag(false)), ("status", Text("all"))]

  predicate Truthy(v: FilterValue)
  {
    match v
    case Text(s) => s != ""
    case Flag(b) => b
  }

  /** `value && value !== 'all'`. */
  predicate Keep(v: FilterValue)
  {
    Truthy(v) && v != Text("all")
  }

  predicate DistinctKeys(fs: Filters)
  {
    forall i, j :: 0 <= i < j < |fs| ==> fs[i].0 != fs[j].0
  }

  function Lookup(fs: Filters, key: string): Option<FilterValue>
  {
    if fs == [] then None else if fs[0].0 == key then Some(fs[0].1) else Lookup(fs[1..], key)
  }

  /** `{ ...prev, [key]: value }`: an existing key keeps its place, a new one goes last. */
  function Put(fs: Filters, key: string, v: FilterValue): (r: Filters)
    ensures |r| == |fs| || |r| == |fs| + 1
    ensures forall k :: 0 <= k < |r| ==> r[k].0 == key || r[k] in fs
    ensures forall k :: 0 <= k < |fs| ==> fs[k].0 == r[k].0
  {
    if fs == [] then [(key, v)]
    else if fs[0].0 == key then [(key, v)] + fs[1..]
    else [fs[0]] + Put(fs[1..], key, v)
  }

  /** The updated key reads back the new value and every other key reads as before. */
  lemma {:induction false} PutLookup(fs: Filters, key: string, v: FilterValue, other: string)
    requires other != key
    ensures Lookup(Put(fs, key, v), key) == Some(v)
    ensures Lookup(Put(fs, key, v), other) == Lookup(fs, other)
  {
    if fs != [] && fs[0].0 != key {
      PutLookup(fs[1..], key, v, other);
      assert Put(fs, key, v)[1..] == Put(fs[1..], key, v);
    }
  }

  /** An update keeps the keys distinct. */
  lemma {:induction false} PutDistinct(fs: Filters, key: string, v: FilterValue)
    requires DistinctKeys(fs)
    ensures DistinctKeys(Put(fs, key, v))
  {
    if fs != [] && fs[0].0 != key {
      PutDistinct(fs[1..], key, v);
      var r := Put(fs, key, v);
      assert r == [fs[0]] + Put(fs[1..], key, v);
      PutKeys(fs[1..], key, v, fs[0].0);
    }
  }

  lemma {:induction false} PutKeys(fs: Filters, key: string, v: FilterValue, k0: string)
    requires k0 != key && forall k :: 0 <= k < |fs| ==> fs[k].0 != k0
    ensures forall k :: 0 <= k < |Put(fs, key, v)| ==> Put(fs, key, v)[k].0 != k0
  {
    if fs != [] && fs[0].0 != key {
      PutKeys(fs[1..], key, v, k0);
    }
  }

  /** The entries `fetchPets` keeps, in order. */
  function Active(fs: Filters): (r: Filters)
    ensures |r| <= |fs|
    ensures forall k :: 0 <= k < |r| ==> r[k] in fs && Keep(r[k].1)
  {
    if fs == [] then [] else (if Keep(fs[0].1) then [fs[0]] else []) + Active(fs[1..])
  }

  /** An entry survives pruning exactly when its value is kept: `false`, `''` and `'all'` are dropped. */
  lemma {:induction false} ActiveExact(fs: Filters)
    ensures forall e :: e in Active(fs) <==> e in fs && Keep(e.1)
  {
    if fs != [] {
      ActiveExact(fs[1..]);
      assert fs == [fs[0]] + fs[1..];
    }
  }

  /** The initial filters send no filter at all. */
  lemma InitialFiltersInactive()
    ensures Active(InitialFilters) == []
  {
  }

  /** The query `getAllPets` is given. */
  datatype Query = Query(filters: Filters, page: int, limit: nat)

  /** Previous: `Math.max(1, p - 1)`. */
  function PreviousPage(p: int): (r: int)
    ensures r >= 1 && r <= (if p > 1 then p - 1 else 1)
    ensures p > 1 ==> r == p - 1
  {
    if p - 1 > 1 then p - 1 else 1
  }

  /** Next: `Math.min(totalPages, p + 1)`. */
  function NextPage(p: int, totalPages: int): (r: int)
    ensures r <= totalPages && r <= p + 1
    ensures p < totalPages ==> r == p + 1
    ensures p + 1 >= totalPages ==> r == totalPages
  {
    if totalPages < p + 1 then totalPages else p + 1
  }

  /** A page inside `[1, totalPages]` stays inside it under both buttons. */
  lemma PagesStayInRange(p: int, totalPages: int)
    requires 1 <= p <= totalPages
    ensures 1 <= PreviousPage(p) <= totalPages
    ensures 1 <= NextPage(p, totalPages) <= totalPages
  {
  }

  /** The page links: shown only for more than one page, numbered 1 to `totalPages`. */
  function PageLinks(totalPages: int): (r: seq<int>)
    ensures totalPages > 1 ==> |r| == totalPages && forall k :: 0 <= k < |r| ==> r[k] == k + 1
    ensures totalPages <= 1 ==> r == []
  {
    if totalPages > 1 then seq(totalPages, k => k + 1) else []
  }

  /** Exactly one link is active when the current page is in range, and none otherwise. */
  lemma ExactlyOneActive(currentPage: int, totalPages: int)
    requires totalPages > 1
    ensures 1 <= currentPage <= totalPages ==>
              var links := PageLinks(totalPages);
              && (exists k :: 0 <= k < |links| && links[k] == currentPage)
              && (forall i, j :: 0 <= i < j < |links| ==> !(links[i] == currentPage && links[j] == currentPage))
    ensures !(1 <= currentPage <= totalPages) ==> forall k :: 0 <= k < |PageLinks(totalPages)| ==> PageLinks(totalPages)[k] != currentPage
  {
    if 1 <= currentPage <= totalPages {
      assert PageLinks(totalPages)[currentPage - 1] == currentPage;
    }
  }

  lemma ActiveStep(fs: Filters, i: nat)
    requires i < |fs|
    ensures Active(fs[i..]) == (if Keep(fs[i].1) then [fs[i]] else []) + Active(fs[i + 1..])
  {
    assert fs[i..][0] == fs[i] && fs[i..][1..] == fs[i + 1..];
  }

  /** The `forEach` of `fetchPets` that copies the kept entries into `activeFilters`. */
  method PruneFilters(fs: Filters) returns (active: Filters)
    ensures active == Active(fs)
  {
    active := [];
    var i := 0;
    while i < |fs|
      invariant 0 <= i <= |fs|
      invariant active + Active(fs[i..]) == Active(fs)
    {
      ActiveStep(fs, i);
      var (key, value) := fs[i];
      if Keep(value) {
        active := active + [(key, value)];
      }
      i := i + 1;
    }
    assert fs[i..] == [];
  }

  class BrowsePage {
    var filters: Filters
    var currentPage: int
    var totalPages: int
    var isLoading: bool
    var error: Option<string>

    constructor()
      ensures filters == InitialFilters && currentPage == 1 && totalPages == 1 && isLoading && error == None
    {
      filters := InitialFilters;
      currentPage := 1;
      totalPages := 1;
      isLoading := true;
      error := None;
    }

    /** `fetchPets`: the inactive filters are pruned by one pass over the
        entries, the page and the limit are added, and the page count of the
        answer is kept. `pages` is `None` when the request fails. */
    method FetchPets(pages: Option<int>) returns (query: Query)
      modifies this
      ensures query == Query(Active(filters), currentPage, PetsPerPage)
      ensures filters == old(filters) && currentPage == old(currentPage) && !isLoading
      ensures pages.Some? ==> totalPages == pages.value && error == None
      ensures pages.None? ==> totalPages == old(totalPages) && error == Some(LoadFailed)
    {
      isLoading := true;
      error := None;
      var active := PruneFilters(filters);
      query := Query(active, currentPage, PetsPerPage);
      if pages.Some? {
        totalPages := pages.value;
      } else {
        error := Some(LoadFailed);
      }
      isLoading := false;
    }

    /** `handleFilterChange`: one key updated, back to the first page. */
    method HandleFilterChange(key: string, v: FilterValue)
      modifies this
      ensures filters == Put(old(filters), key, v) && currentPage == 1
      ensures totalPages == old(totalPages) && isLoading == old(isLoading) && error == old(error)
    {
      currentPage := 1;
      filters := Put(filters, key, v);
    }

    /** `handleSearchChange`: only `search_by` and `search_query` updated, back to the first page. */
    method HandleSearchChange(searchBy: string, query: string)
      modifies this
      ensures filters == Put(Put(old(filters), "search_by", Text(searchBy)), "search_query", Text(query))
      ensures currentPage == 1
      ensures totalPages == old(totalPages) && isLoading == old(isLoading) && error == old(error)
    {
      currentPage := 1;
      filters := Put(Put(filters, "search_by", Text(searchBy)), "search_query", Text(query));
    }

    method Previous()
      modifies this
      ensures currentPage == PreviousPage(old(currentPage))
      ensures filters == old(filters) && totalPages == old(totalPages) && isLoading == old(isLoading) && error == old(error)
    {
      currentPage := PreviousPage(currentPage);
    }

    method Next()
      modifies this
      ensures currentPage == NextPage(old(currentPage), old(totalPages))
      ensures filters == old(filters) && totalPages == old(totalPages) && isLoading == old(isLoading) && error == old(error)
    {
      currentPage := NextPage(currentPage, totalPages);
    }
  }

  /** After a search change the two search keys hold the new values and every other filter is as it was. */
  lemma SearchChangeTouchesOnlySearch(fs: Filters, searchBy: string, query: string, other: string)
    requires other != "search_by" && other != "search_query"
    ensures Lookup(Put(Put(fs, "search_by", Text(searchBy)), "search_query", Text(query)), "search_by") == Some(Text(searchBy))
    ensures Lookup(Put(Put(fs, "search_by", Text(searchBy)), "search_query", Text(query)), "search_query") == Some(Text(query))
    ensures Lookup(Put(Put(fs, "search_by", Text(searchBy)), "search_query", Text(query)), other) == Lookup(fs, other)
  {
    PutLookup(fs, "search_by", Text(searchBy), other);
    PutLookup(fs, "search_by", Text(searchBy), "search_query");
    PutLookup(Put(fs, "search_by", Text(searchBy)), "search_query", Text(query), other);
    PutLookup(Put(fs, "search_by", Text(searchBy)), "search_query", Text(query), "search_by");
  }
}
