/**
 * The search hook of src/hooks/usePokemonSearch.ts: when a search runs, with
 * which key and arguments, and the values the hook derives from the query
 * and from what the caching library reports.
 */
module UsePokemonSearch {
  import opened Wrappers
  import opened Text
  import opened ApiTypes
  import opened ApiClient
  import opened PokemonTypes
  import PokemonApi
  import Transformers
  import QueryClient

  const DEFAULT_SEARCH_LIMIT: int := 20

  /**
   * `shouldSearch`: the trimmed query is at least two UTF-16 code units long,
   * so one character outside the Basic Multilingual Plane already counts as two.
   */
  predicate ShouldSearch(query: string)
    ensures ShouldSearch(query) ==> Trim(query) != []
    ensures |Trim(query)| >= 2 ==> ShouldSearch(query)
  {
    Utf16Length(Trim(query)) >= 2
  }

  /** Two characters always suffice, and one character suffices exactly when it lies outside the Basic Multilingual Plane. */
  lemma ShouldSearchByLength(query: string)
    ensures |Trim(query)| >= 2 ==> ShouldSearch(query)
    ensures |Trim(query)| == 0 ==> !ShouldSearch(query)
    ensures |Trim(query)| == 1 ==> (ShouldSearch(query) <==> Trim(query)[0] as int > 0xFFFF)
  {
    if |Trim(query)| == 1 {
      assert Trim(query)[1..] == [];
    }
  }

  /** The query runs exactly when the caller enables it and the query is long enough. */
  function SearchEnabled(query: string, enabled: bool): (r: bool)
    ensures r ==> enabled && Utf16Length(Trim(query)) >= 2
    ensures enabled && Utf16Length(Trim(query)) >= 2 ==> r
    ensures !enabled ==> !r
  {
    enabled && ShouldSearch(query)
  }

  /** The cache key, built on the trimmed query. */
  function SearchQueryKey(query: string): (r: QueryClient.QueryKey)
    ensures QueryClient.IsPrefix(QueryClient.PokemonSearches(), r)
    ensures r == QueryClient.PokemonKey(QueryClient.Search(Trim(query)))
  {
    QueryClient.KeyHierarchy(None, None, QueryClient.ById(0), Trim(query));
    QueryClient.PokemonSearch(Trim(query))
  }

  /** Queries that differ only in surrounding whitespace share one cache entry. */
  lemma SearchKeyIgnoresPadding(q1: string, q2: string)
    requires Trim(q1) == Trim(q2)
    ensures SearchQueryKey(q1) == SearchQueryKey(q2)
  {}

  /**
   * The query function: `searchPokemon({ query: query.trim(), limit })` with
   * `limit` defaulting to 20, then `transformPokemonListResponse` with its
   * default, empty, favourites set.
   */
  function SearchQueryFn(query: string, limit: Option<int>,
                         fetchList: (int, int) -> Result<ListResponse, ApiError>,
                         fetchDetail: string -> Result<DetailResponse, ApiError>,
                         offsetOf: string -> int)
    : (r: Result<PokemonListPage, ApiError>)
    ensures var response := PokemonApi.SearchPokemon(Trim(query), Some(limit.GetOr(DEFAULT_SEARCH_LIMIT)), fetchList, fetchDetail);
            && (response.Err? ==> r == Err(response.error))
            && (response.Ok? ==> r == Ok(Transformers.TransformPokemonListResponse(response.value, {}, offsetOf)))
  {
    match PokemonApi.SearchPokemon(Trim(query), Some(limit.GetOr(DEFAULT_SEARCH_LIMIT)), fetchList, fetchDetail)
    case Err(e) => Err(e)
    case Ok(response) => Ok(Transformers.TransformPokemonListResponse(response, {}, offsetOf))
  }

  /**
   * Whenever the query is allowed to run, an exact hit on the lower-cased,
   * trimmed query gives a single, non-favourite Pokémon with that id and no
   * further pages: the plain-list branch of the search is never reached.
   */
  lemma EnabledSearchExactHit(query: string, limit: Option<int>,
                              fetchList: (int, int) -> Result<ListResponse, ApiError>,
                              fetchDetail: string -> Result<DetailResponse, ApiError>,
                              offsetOf: string -> int)
    requires ShouldSearch(query)
    requires fetchDetail(LowerStr(Trim(query))).Ok?
    requires fetchDetail(LowerStr(Trim(query))).value.id >= 0
    ensures var r := SearchQueryFn(query, limit, fetchList, fetchDetail, offsetOf);
            var hit := fetchDetail(LowerStr(Trim(query))).value;
            && r.Ok? && |r.value.pokemon| == 1 && r.value.totalCount == 1
            && r.value.pokemon[0].id == hit.id && r.value.pokemon[0].name == hit.name
            && !r.value.pokemon[0].isFavorite
            && !r.value.hasNextPage && !r.value.hasPreviousPage
  {
    TrimIdempotent(query);
    var hit := fetchDetail(LowerStr(Trim(query))).value;
    PokemonApi.ExactHitRoundTrip(hit);
  }

  /**
   * Whenever the query is allowed to run and the exact lookup fails, the
   * result is the filtered list: every Pokémon in it matches the trimmed
   * query and there is never a next page.
   */
  lemma EnabledSearchFallback(query: string, limit: Option<int>,
                              fetchList: (int, int) -> Result<ListResponse, ApiError>,
                              fetchDetail: string -> Result<DetailResponse, ApiError>,
                              offsetOf: string -> int)
    requires ShouldSearch(query)
    requires fetchDetail(LowerStr(Trim(query))).Err?
    requires fetchList(0, PokemonApi.SEARCH_FETCH_LIMIT).Ok?
    ensures var r := SearchQueryFn(query, limit, fetchList, fetchDetail, offsetOf);
            var all := fetchList(0, PokemonApi.SEARCH_FETCH_LIMIT).value.results;
            && r.Ok? && !r.value.hasNextPage && !r.value.hasPreviousPage
            && r.value.totalCount == |PokemonApi.FilterByName(all, Trim(query))|
            && (forall p :: p in r.value.pokemon ==> exists x :: x in all && PokemonApi.NameMatches(x.name, Trim(query)) && p.name == x.name)
  {
    TrimIdempotent(query);
    var all := fetchList(0, PokemonApi.SEARCH_FETCH_LIMIT).value.results;
    var response := PokemonApi.SearchPokemon(Trim(query), Some(limit.GetOr(DEFAULT_SEARCH_LIMIT)), fetchList, fetchDetail);
    var r := SearchQueryFn(query, limit, fetchList, fetchDetail, offsetOf);
    forall p | p in r.value.pokemon
      ensures exists x :: x in all && PokemonApi.NameMatches(x.name, Trim(query)) && p.name == x.name
    {
      var i :| 0 <= i < |r.value.pokemon| && r.value.pokemon[i] == p;
      var x := response.value.results[i];
      assert x in response.value.results;
    }
  }

  /** What the caching library reports about the search query. */
  datatype SearchQueryState = SearchQueryState(data: Option<PokemonListPage>, isLoading: bool, error: Option<ApiError>)

  /** What the hook returns (`SearchState`). */
  datatype SearchView = SearchView(
    query: string,
    results: seq<Pokemon>,
    hasSearched: bool,
    isLoading: bool,
    error: Option<string>)

  /** The hook's derived values. */
  function UsePokemonSearchView(query: string, state: SearchQueryState): (r: SearchView)
    ensures r.query == query
    ensures r.hasSearched <==> Utf16Length(Trim(query)) >= 2
    ensures state.data.None? ==> r.results == []
    ensures state.data.Some? ==> r.results == state.data.value.pokemon
    ensures !ShouldSearch(query) ==> !r.isLoading && r.error.None?
    ensures ShouldSearch(query) ==> r.isLoading == state.isLoading
    ensures r.error.Some? <==> ShouldSearch(query) && state.error.Some?
    ensures r.error.Some? ==> r.error.value == state.error.value.message
  {
    var searching := ShouldSearch(query);
    SearchView(
      query,
      if state.data.Some? then state.data.value.pokemon else [],
      searching,
      if searching then state.isLoading else false,
      if searching && state.error.Some? then Some(state.error.value.message) else None)
  }
}
