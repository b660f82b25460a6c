/** The explore page of `src/pages/jelajah.js`: the type, search, category and village
    filters, the debounced search term, the query sent to the list endpoint, the
    parameters written back to the address bar, and the reset of the category when
    the type changes.

    The page's effects are modelled in the order React runs them after a render:
    the debounce timer of `useDebounce`, the category reset, the fetch, and the
    address-bar update. A state set by an effect only shows in the next render, so the
    effects of one render all see the values of that render. */
module Jelajah {
  import opened Js
  import opened JsObject
  import Debounce

  const SEARCH_DELAY: nat := 500
  const DEFAULT_TIPE: string := "produk"

  /** The list endpoints the page can call. */
  datatype Fetcher = ApiGetProduk | ApiGetWisata | ApiGetDesa

  /** `'wisata'` lists tourist spots, `'desa'` villages, and anything else products. */
  function FetchFunction(tipe: string): (f: Fetcher)
    ensures f == ApiGetWisata <==> tipe == "wisata"
    ensures f == ApiGetDesa <==> tipe == "desa"
    ensures f == ApiGetProduk <==> tipe != "wisata" && tipe != "desa"
  {
    if tipe == "wisata" then ApiGetWisata
    else if tipe == "desa" then ApiGetDesa
    else ApiGetProduk
  }

  // ---------------------------------------------------------------------------------
  // The query of the list call

  /** `if (c) params[k] = v` on an object that does not have `k` yet. */
  function SetIf(p: seq<Entry<string>>, c: bool, k: string, v: string): seq<Entry<string>> {
    if c then p + [Entry(k, v)] else p
  }

  /** Reading back after a conditional write of a new key. */
  lemma SetIfGet(p: seq<Entry<string>>, c: bool, k: string, v: string, k': string)
    requires Get(p, k).None?
    ensures Get(SetIf(p, c, k, v), k') == if c && k' == k then Some(v) else Get(p, k')
  {
    if c {
      GetSnoc(p, k, v);
    }
  }

  /** A conditional write of a new key keeps the keys unique and adds only that key. */
  lemma SetIfKeys(p: seq<Entry<string>>, c: bool, k: string, v: string)
    requires UniqueKeys(p) && Get(p, k).None?
    ensures UniqueKeys(SetIf(p, c, k, v))
    ensures Keys(SetIf(p, c, k, v)) == Keys(p) + (if c then {k} else {})
  {
    if c {
      var r := p + [Entry(k, v)];
      assert Find(p, k) == |p|;
      assert forall i :: 0 <= i < |p| ==> r[i] == p[i];
      assert Keys(r) == Keys(p) + {k} by {
        forall x | x in Keys(r) ensures x in Keys(p) + {k} {
          var i :| 0 <= i < |r| && r[i].key == x;
          if i < |p| { assert p[i].key == x; }
        }
        assert r[|p|].key == k;
      }
    }
  }

  /** The `params` object handed to the list endpoint, key by key in the order written. */
  function QueryParams(tipe: string, term: string, kategori: string, desa: string): seq<Entry<string>> {
    var p0 := SetIf([], term != "", "search", term);
    var p1 := SetIf(p0, tipe != "desa" && kategori != "", "kategori", kategori);
    SetIf(p1, tipe != "desa" && desa != "", "desa", desa)
  }

  /** `search` is sent exactly when the (debounced) term is non-empty; `kategori` and
      `desa` exactly when they are non-empty and the type is not `'desa'`. */
  lemma QueryParamsSpec(tipe: string, term: string, kategori: string, desa: string)
    ensures var p := QueryParams(tipe, term, kategori, desa);
            && Get(p, "search") == (if term != "" then Some(term) else None)
            && Get(p, "kategori") == (if tipe != "desa" && kategori != "" then Some(kategori) else None)
            && Get(p, "desa") == (if tipe != "desa" && desa != "" then Some(desa) else None)
  {
    var p0: seq<Entry<string>> := [];
    SetIfGet(p0, term != "", "search", term, "search");
    SetIfGet(p0, term != "", "search", term, "kategori");
    SetIfGet(p0, term != "", "search", term, "desa");
    var p1 := SetIf(p0, term != "", "search", term);
    SetIfGet(p1, tipe != "desa" && kategori != "", "kategori", kategori, "search");
    SetIfGet(p1, tipe != "desa" && kategori != "", "kategori", kategori, "kategori");
    SetIfGet(p1, tipe != "desa" && kategori != "", "kategori", kategori, "desa");
    var p2 := SetIf(p1, tipe != "desa" && kategori != "", "kategori", kategori);
    SetIfGet(p2, tipe != "desa" && desa != "", "desa", desa, "search");
    SetIfGet(p2, tipe != "desa" && desa != "", "desa", desa, "kategori");
    SetIfGet(p2, tipe != "desa" && desa != "", "desa", desa, "desa");
  }

  /** Nothing else is sent, and no key twice. */
  lemma QueryParamsKeys(tipe: string, term: string, kategori: string, desa: string)
    ensures var p := QueryParams(tipe, term, kategori, desa);
            UniqueKeys(p) && Keys(p) <= {"search", "kategori", "desa"}
  {
    var p0: seq<Entry<string>> := [];
    assert Keys(p0) == {};
    SetIfKeys(p0, term != "", "search", term);
    SetIfGet(p0, term != "", "search", term, "kategori");
    SetIfGet(p0, term != "", "search", term, "desa");
    var p1 := SetIf(p0, term != "", "search", term);
    SetIfKeys(p1, tipe != "desa" && kategori != "", "kategori", kategori);
    SetIfGet(p1, tipe != "desa" && kategori != "", "kategori", kategori, "desa");
    var p2 := SetIf(p1, tipe != "desa" && kategori != "", "kategori", kategori);
    SetIfKeys(p2, tipe != "desa" && desa != "", "desa", desa);
  }

  /** `params` filled by the conditional assignments of the fetch effect. */
  method BuildQueryParams(tipe: string, term: string, kategori: string, desa: string)
    returns (params: seq<Entry<string>>)
    ensures params == QueryParams(tipe, term, kategori, desa)
  {
    params := [];
    if term != "" {
      params := Put(params, "search", term);
    }
    if tipe != "desa" {
      if kategori != "" {
        assert forall i :: 0 <= i < |params| ==> params[i].key == "search";
        PutAbsent(params, "kategori", kategori);
        params := Put(params, "kategori", kategori);
      }
      if desa != "" {
        assert forall i :: 0 <= i < |params| ==> params[i].key in {"search", "kategori"};
        PutAbsent(params, "desa", desa);
        params := Put(params, "desa", desa);
      }
    }
  }

  // ---------------------------------------------------------------------------------
  // The address bar

  /** The `URLSearchParams` pushed to `/jelajah?…`, key by key in the order set. */
  function UrlParams(tipe: string, searchTerm: string, kategori: string, desa: string): seq<Entry<string>> {
    var p0 := SetIf([], tipe != "", "tipe", tipe);
    var p1 := SetIf(p0, searchTerm != "", "q", searchTerm);
    var p2 := SetIf(p1, tipe != "desa" && kategori != "", "kategori", kategori);
    SetIf(p2, tipe != "desa" && desa != "", "desa", desa)
  }

  /** `tipe` is written when non-empty, `q` is the RAW search term (not the debounced
      one) when non-empty, and `kategori` and `desa` only off the village type. */
  lemma UrlParamsSpec(tipe: string, searchTerm: string, kategori: string, desa: string)
    ensures var p := UrlParams(tipe, searchTerm, kategori, desa);
            && Get(p, "tipe") == (if tipe != "" then Some(tipe) else None)
            && Get(p, "q") == (if searchTerm != "" then Some(searchTerm) else None)
            && Get(p, "kategori") == (if tipe != "desa" && kategori != "" then Some(kategori) else None)
            && Get(p, "desa") == (if tipe != "desa" && desa != "" then Some(desa) else None)
  {
    var p0: seq<Entry<string>> := [];
    SetIfGet(p0, tipe != "", "tipe", tipe, "tipe");
    SetIfGet(p0, tipe != "", "tipe", tipe, "q");
    SetIfGet(p0, tipe != "", "tipe", tipe, "kategori");
    SetIfGet(p0, tipe != "", "tipe", tipe, "desa");
    var p1 := SetIf(p0, tipe != "", "tipe", tipe);
    SetIfGet(p1, searchTerm != "", "q", searchTerm, "tipe");
    SetIfGet(p1, searchTerm != "", "q", searchTerm, "q");
    SetIfGet(p1, searchTerm != "", "q", searchTerm, "kategori");
    SetIfGet(p1, searchTerm != "", "q", searchTerm, "desa");
    var p2 := SetIf(p1, searchTerm != "", "q", searchTerm);
    SetIfGet(p2, tipe != "desa" && kategori != "", "kategori", kategori, "tipe");
    SetIfGet(p2, tipe != "desa" && kategori != "", "kategori", kategori, "q");
    SetIfGet(p2, tipe != "desa" && kategori != "", "kategori", kategori, "kategori");
    SetIfGet(p2, tipe != "desa" && kategori != "", "kategori", kategori, "desa");
    var p3 := SetIf(p2, tipe != "desa" && kategori != "", "kategori", kategori);
    SetIfGet(p3, tipe != "desa" && desa != "", "desa", desa, "tipe");
    SetIfGet(p3, tipe != "desa" && desa != "", "desa", desa, "q");
    SetIfGet(p3, tipe != "desa" && desa != "", "desa", desa, "kategori");
    SetIfGet(p3, tipe != "desa" && desa != "", "desa", desa, "desa");
  }

  /** No other key is written, and no key twice. */
  lemma UrlParamsKeys(tipe: string, searchTerm: string, kategori: string, desa: string)
    ensures var p := UrlParams(tipe, searchTerm, kategori, desa);
            UniqueKeys(p) && Keys(p) <= {"tipe", "q", "kategori", "desa"}
  {
    var p0: seq<Entry<string>> := [];
    assert Keys(p0) == {};
    SetIfKeys(p0, tipe != "", "tipe", tipe);
    SetIfGet(p0, tipe != "", "tipe", tipe, "q");
    SetIfGet(p0, tipe != "", "tipe", tipe, "kategori");
    SetIfGet(p0, tipe != "", "tipe", tipe, "desa");
    var p1 := SetIf(p0, tipe != "", "tipe", tipe);
    assert UniqueKeys(p1) && Keys(p1) <= {"tipe"};
    SetIfKeys(p1, searchTerm != "", "q", searchTerm);
    SetIfGet(p1, searchTerm != "", "q", searchTerm, "kategori");
    SetIfGet(p1, searchTerm != "", "q", searchTerm, "desa");
    var p2 := SetIf(p1, searchTerm != "", "q", searchTerm);
    assert UniqueKeys(p2) && Keys(p2) <= {"tipe", "q"};
    SetIfKeys(p2, tipe != "desa" && kategori != "", "kategori", kategori);
    SetIfGet(p2, tipe != "desa" && kategori != "", "kategori", kategori, "desa");
    var p3 := SetIf(p2, tipe != "desa" && kategori != "", "kategori", kategori);
    assert UniqueKeys(p3) && Keys(p3) <= {"tipe", "q", "kategori"};
    SetIfKeys(p3, tipe != "desa" && desa != "", "desa", desa);
  }

  /** `new URLSearchParams()` filled by `params.set(…)`. */
  method BuildUrlParams(tipe: string, searchTerm: string, kategori: string, desa: string)
    returns (params: seq<Entry<string>>)
    ensures params == UrlParams(tipe, searchTerm, kategori, desa)
  {
    params := [];
    if tipe != "" {
      params := Put(params, "tipe", tipe);
    }
    if searchTerm != "" {
      assert forall i :: 0 <= i < |params| ==> params[i].key == "tipe";
      PutAbsent(params, "q", searchTerm);
      params := Put(params, "q", searchTerm);
    }
    if tipe != "desa" {
      if kategori != "" {
        assert forall i :: 0 <= i < |params| ==> params[i].key in {"tipe", "q"};
        PutAbsent(params, "kategori", kategori);
        params := Put(params, "kategori", kategori);
      }
      if desa != "" {
        assert forall i :: 0 <= i < |params| ==> params[i].key in {"tipe", "q", "kategori"};
        PutAbsent(params, "desa", desa);
        params := Put(params, "desa", desa);
      }
    }
  }

  // ---------------------------------------------------------------------------------
  // The page

  /** `router.query` as the page reads it. */
  datatype RouterQuery = RouterQuery(tipe: Option<string>, q: Option<string>,
                                     kategori: Option<string>, desa: Option<string>)

  /** A listed product, tourist spot or village; only its identity matters here. */
  datatype Listing = Listing(id: string)

  /** One call of a list endpoint. */
  datatype Fetch = Fetch(fn: Fetcher, params: seq<Entry<string>>)

  /** The call the fetch effect makes from the state of a render. */
  function FetchOf(tipe: string, debouncedSearchTerm: string, kategori: string, desa: string): Fetch {
    Fetch(FetchFunction(tipe), QueryParams(tipe, debouncedSearchTerm, kategori, desa))
  }

  class JelajahPage {
    var tipe: string
    var searchTerm: string
    var kategori: string
    var desa: string
    /** The value `useDebounce` returns, and the timer of its effect. */
    var debouncedSearchTerm: string
    var searchTimer: Debounce.Timer<string>
    var results: seq<Listing>
    var isLoading: bool
    /** The list calls made, oldest first. */
    var fetches: seq<Fetch>
    /** The parameters of every `router.push`, oldest first. */
    var urls: seq<seq<Entry<string>>>
    var toasts: seq<string>

    /** The first render: the initial state is read from the address bar. */
    constructor (query: RouterQuery)
      ensures tipe == Or(query.tipe, DEFAULT_TIPE) && searchTerm == Or(query.q, "")
      ensures kategori == Or(query.kategori, "") && desa == Or(query.desa, "")
      ensures debouncedSearchTerm == searchTerm && searchTimer == Debounce.Timer(0, None)
      ensures results == [] && isLoading
      ensures fetches == [] && urls == [] && toasts == []
    {
      tipe := Or(query.tipe, DEFAULT_TIPE);
      searchTerm := Or(query.q, "");
      kategori := Or(query.kategori, "");
      desa := Or(query.desa, "");
      debouncedSearchTerm := Or(query.q, "");
      searchTimer := Debounce.Timer(0, None);
      results := [];
      isLoading := true;
      fetches := [];
      urls := [];
      toasts := [];
    }

    /** The fetch effect: `setIsLoading(true)` and the list call. */
    method RunFetch()
      modifies this`fetches, this`isLoading
      ensures fetches == old(fetches) + [FetchOf(tipe, debouncedSearchTerm, kategori, desa)] && isLoading
    {
      isLoading := true;
      var params := BuildQueryParams(tipe, debouncedSearchTerm, kategori, desa);
      fetches := fetches + [Fetch(FetchFunction(tipe), params)];
    }

    /** The address-bar effect. */
    method PushUrl()
      modifies this`urls
      ensures urls == old(urls) + [UrlParams(tipe, searchTerm, kategori, desa)]
    {
      var params := BuildUrlParams(tipe, searchTerm, kategori, desa);
      urls := urls + [params];
    }

    /** The category reset of a render whose type is new: the fetch and address-bar
        effects of that render still see the old category; when it was not already
        empty, the reset causes one more render in which both run again with `''`. */
    method ResetKategori()
      modifies this`kategori, this`fetches, this`isLoading, this`urls
      ensures kategori == ""
      ensures old(kategori) == "" ==> fetches == old(fetches) && urls == old(urls) && isLoading == old(isLoading)
      ensures old(kategori) != "" ==> fetches == old(fetches) + [FetchOf(tipe, debouncedSearchTerm, kategori, desa)] && urls == old(urls) + [UrlParams(tipe, searchTerm, kategori, desa)] && isLoading
    {
      if kategori != "" {
        kategori := "";
        RunFetch();
        PushUrl();
      }
    }

    /** All effects run once after the first render. */
    method Mount()
      modifies this
      ensures tipe == old(tipe) && searchTerm == old(searchTerm) && desa == old(desa) && kategori == ""
      ensures debouncedSearchTerm == old(debouncedSearchTerm) && results == old(results) && toasts == old(toasts)
      ensures searchTimer == Debounce.Schedule(old(searchTimer), searchTerm, SEARCH_DELAY)
      ensures isLoading
      ensures var first := FetchOf(tipe, debouncedSearchTerm, old(kategori), desa);
              var firstUrl := UrlParams(tipe, searchTerm, old(kategori), desa);
              && fetches == old(fetches) + [first] + (if old(kategori) != "" then [FetchOf(tipe, debouncedSearchTerm, kategori, desa)] else [])
              && urls == old(urls) + [firstUrl] + (if old(kategori) != "" then [UrlParams(tipe, searchTerm, kategori, desa)] else [])
    {
      searchTimer := Debounce.Schedule(searchTimer, searchTerm, SEARCH_DELAY);
      RunFetch();
      PushUrl();
      ResetKategori();
    }

    /** `setTipe(t)` from the type toggler. */
    method SetTipe(t: string)
      modifies this
      ensures tipe == t && searchTerm == old(searchTerm) && desa == old(desa)
      ensures debouncedSearchTerm == old(debouncedSearchTerm) && searchTimer == old(searchTimer)
      ensures results == old(results) && toasts == old(toasts)
      ensures t == old(tipe) ==>
                kategori == old(kategori) && fetches == old(fetches) && urls == old(urls) && isLoading == old(isLoading)
      ensures t != old(tipe) ==>
                var first := FetchOf(t, debouncedSearchTerm, old(kategori), desa);
                var firstUrl := UrlParams(t, searchTerm, old(kategori), desa);
                && kategori == "" && isLoading
                && fetches == old(fetches) + [first] + (if old(kategori) != "" then [FetchOf(tipe, debouncedSearchTerm, kategori, desa)] else [])
                && urls == old(urls) + [firstUrl] + (if old(kategori) != "" then [UrlParams(tipe, searchTerm, kategori, desa)] else [])
    {
      if t != tipe {
        tipe := t;
        RunFetch();
        PushUrl();
        ResetKategori();
      }
    }

    /** Typing in the search box: the address bar follows at once, the fetch waits for
        the debounce timer, which each change restarts. */
    method SetSearchTerm(v: string)
      modifies this`searchTerm, this`searchTimer, this`urls
      ensures searchTerm == v
      ensures v == old(searchTerm) ==> searchTimer == old(searchTimer) && urls == old(urls)
      ensures v != old(searchTerm) ==>
                searchTimer == Debounce.Schedule(old(searchTimer), v, SEARCH_DELAY) && urls == old(urls) + [UrlParams(tipe, searchTerm, kategori, desa)]
    {
      if v != searchTerm {
        searchTerm := v;
        searchTimer := Debounce.Schedule(searchTimer, v, SEARCH_DELAY);
        PushUrl();
      }
    }

    /** `setKategori(k)` from the category select. */
    method SetKategori(k: string)
      modifies this`kategori, this`fetches, this`isLoading, this`urls
      ensures kategori == k
      ensures k == old(kategori) ==> fetches == old(fetches) && urls == old(urls) && isLoading == old(isLoading)
      ensures k != old(kategori) ==> fetches == old(fetches) + [FetchOf(tipe, debouncedSearchTerm, kategori, desa)] && urls == old(urls) + [UrlParams(tipe, searchTerm, kategori, desa)] && isLoading
    {
      if k != kategori {
        kategori := k;
        RunFetch();
        PushUrl();
      }
    }

    /** `setDesa(d)` from the village select. */
    method SetDesa(d: string)
      modifies this`desa, this`fetches, this`isLoading, this`urls
      ensures desa == d
      ensures d == old(desa) ==> fetches == old(fetches) && urls == old(urls) && isLoading == old(isLoading)
      ensures d != old(desa) ==> fetches == old(fetches) + [FetchOf(tipe, debouncedSearchTerm, kategori, desa)] && urls == old(urls) + [UrlParams(tipe, searchTerm, kategori, desa)] && isLoading
    {
      if d != desa {
        desa := d;
        RunFetch();
        PushUrl();
      }
    }

    /** One tick of the clock: when the search timer expires with a new value, the
        debounced term changes and the fetch effect runs. */
    method Tick()
      modifies this`searchTimer, this`debouncedSearchTerm, this`fetches, this`isLoading
      ensures var s := Debounce.Advance(old(searchTimer));
              && searchTimer == s.timer
              && (if s.fired.Some? && s.fired.value != old(debouncedSearchTerm) then
                    debouncedSearchTerm == s.fired.value && fetches == old(fetches) + [FetchOf(tipe, debouncedSearchTerm, kategori, desa)] && isLoading
                  else
                    debouncedSearchTerm == old(debouncedSearchTerm) && fetches == old(fetches) && isLoading == old(isLoading))
    {
      var s := Debounce.Advance(searchTimer);
      searchTimer := s.timer;
      if s.fired.Some? && s.fired.value != debouncedSearchTerm {
        debouncedSearchTerm := s.fired.value;
        RunFetch();
      }
    }

    /** `n` ticks during which the pending search timer does not expire. */
    method TickQuietly(n: nat)
      requires searchTimer.pending.Some? && searchTimer.now + n < searchTimer.pending.value.due
      modifies this`searchTimer, this`debouncedSearchTerm, this`fetches, this`isLoading
      ensures searchTimer == Debounce.Timer(old(searchTimer.now) + n, old(searchTimer.pending))
      ensures debouncedSearchTerm == old(debouncedSearchTerm) && fetches == old(fetches) && isLoading == old(isLoading)
    {
      var k: nat := 0;
      while k < n
        invariant k <= n
        invariant searchTimer == Debounce.Timer(old(searchTimer.now) + k, old(searchTimer.pending))
        invariant debouncedSearchTerm == old(debouncedSearchTerm) && fetches == old(fetches) && isLoading == old(isLoading)
      {
        Tick();
        k := k + 1;
      }
    }

    /** A list call settles: its `data.data || []`, or `[]` and a toast on failure. */
    method Receive(reply: Result<Option<seq<Listing>>>)
      modifies this`results, this`isLoading, this`toasts
      ensures !isLoading
      ensures reply.Ok? ==> results == OrEmpty(reply.value) && toasts == old(toasts)
      ensures reply.Err? ==> results == [] && toasts == old(toasts) + [reply.message]
    {
      if reply.Ok? {
        results := OrEmpty(reply.value);
      } else {
        toasts := toasts + [reply.message];
        results := [];
      }
      isLoading := false;
    }
  }

  /** Opening `/jelajah?kategori=…` without a type: the first list call does filter by
      that category, but the reset effect runs on mount too, so the category is cleared
      at once and a second, unfiltered call follows. */
  method MountDropsQueryKategori(k: string) returns (kategori: string, fetches: seq<Fetch>)
    requires k != ""
    ensures kategori == ""
    ensures fetches == [Fetch(ApiGetProduk, [Entry("kategori", k)]), Fetch(ApiGetProduk, [])]
  {
    var page := new JelajahPage(RouterQuery(None, None, Some(k), None));
    assert page.tipe == "produk" && page.kategori == k && page.searchTerm == "" && page.desa == "";
    assert QueryParams("produk", "", k, "") == [Entry("kategori", k)];
    assert QueryParams("produk", "", "", "") == [];
    assert FetchFunction("produk") == ApiGetProduk;
    page.Mount();
    assert page.fetches[0] == Fetch(ApiGetProduk, [Entry("kategori", k)]);
    assert page.fetches[1] == Fetch(ApiGetProduk, []);
    kategori, fetches := page.kategori, page.fetches;
  }

  /** The parameters of the default type, with no category and no village. */
  lemma DefaultTipeParams(term: string)
    ensures UrlParams(DEFAULT_TIPE, term, "", "") ==
              if term != "" then [Entry("tipe", DEFAULT_TIPE), Entry("q", term)] else [Entry("tipe", DEFAULT_TIPE)]
    ensures FetchOf(DEFAULT_TIPE, term, "", "") == Fetch(ApiGetProduk, if term != "" then [Entry("search", term)] else [])
  {
    assert DEFAULT_TIPE != "" && DEFAULT_TIPE != "desa" && DEFAULT_TIPE != "wisata";
  }

  /** A fresh page on the default type with an empty query, mounted. */
  method MountedDefault() returns (page: JelajahPage)
    ensures fresh(page)
    ensures page.tipe == DEFAULT_TIPE && page.kategori == "" && page.desa == "" && page.searchTerm == ""
    ensures page.debouncedSearchTerm == ""
    ensures page.searchTimer == Debounce.Timer(0, Some(Debounce.Pending("", SEARCH_DELAY)))
    ensures page.fetches == [Fetch(ApiGetProduk, [])]
    ensures page.urls == [[Entry("tipe", DEFAULT_TIPE)]]
  {
    page := new JelajahPage(RouterQuery(None, None, None, None));
    DefaultTipeParams("");
    page.Mount();
  }

  /** A fresh page on the default type, mounted, then two changes of the search box
      in a row. */
  method TypeTwice(first: string, second: string) returns (page: JelajahPage)
    requires first != "" && second != "" && first != second
    ensures fresh(page)
    ensures page.tipe == DEFAULT_TIPE && page.kategori == "" && page.desa == "" && page.searchTerm == second
    ensures page.debouncedSearchTerm == ""
    ensures page.searchTimer == Debounce.Timer(0, Some(Debounce.Pending(second, SEARCH_DELAY)))
    ensures page.fetches == [Fetch(ApiGetProduk, [])]
    ensures page.urls == [[Entry("tipe", DEFAULT_TIPE)], [Entry("tipe", DEFAULT_TIPE), Entry("q", first)],
                          [Entry("tipe", DEFAULT_TIPE), Entry("q", second)]]
  {
    page := MountedDefault();
    DefaultTipeParams(first);
    page.SetSearchTerm(first);
    DefaultTipeParams(second);
    page.SetSearchTerm(second);
  }

  /** Two changes of the search box in a row, then a pause of the search delay: the
      address bar shows each term as typed, but only the last one reaches the list
      endpoint, once, when the delay has passed. */
  method TypingFetchesOnceAfterPause(first: string, second: string)
    returns (fetches: seq<Fetch>, urls: seq<seq<Entry<string>>>)
    requires first != "" && second != "" && first != second
    ensures fetches == [Fetch(ApiGetProduk, []), Fetch(ApiGetProduk, [Entry("search", second)])]
    ensures urls == [[Entry("tipe", "produk")], [Entry("tipe", "produk"), Entry("q", first)],
                     [Entry("tipe", "produk"), Entry("q", second)]]
  {
    var page := TypeTwice(first, second);
    page.TickQuietly(SEARCH_DELAY - 1);
    DefaultTipeParams(second);
    page.Tick();
    fetches, urls := page.fetches, page.urls;
  }
}
