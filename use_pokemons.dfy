/**
 * The infinite-list hook of src/hooks/usePokemons.ts: how one page is
 * fetched and converted, how the page parameters are derived, how the loaded
 * pages are flattened, the guard on fetching the next page, and the values
 * the hook exposes. The caching library's own scheduling is not modelled:
 * the state it reports is an input.
 */
module UsePokemons {
  import opened Wrappers
  import opened ApiTypes
  import opened ApiClient
  import opened PokemonTypes
  import PokemonApi
  import Transformers
  import QueryClient

  const DEFAULT_LIMIT: int := 20

  /** The hook's cache key: `queryKeys.pokemon.list({ limit })`, no offset. */
  function ListQueryKey(limit: int): (r: QueryClient.QueryKey)
    ensures QueryClient.IsPrefix(QueryClient.PokemonLists(), r)
    ensures r == QueryClient.PokemonKey(QueryClient.List(None, Some(limit)))
  {
    QueryClient.KeyHierarchy(None, Some(limit), QueryClient.ById(0), "");
    QueryClient.PokemonList(None, Some(limit))
  }

  /**
   * The query function for one page: `getPokemonList({offset: pageParam, limit})`
   * then `transformPokemonListResponse(response)` with its default, empty,
   * favourites set.
   */
  function FetchPage(pageParam: int, limit: int,
                     fetchList: (int, int) -> Result<ListResponse, ApiError>,
                     offsetOf: string -> int)
    : (r: Result<PokemonListPage, ApiError>)
    ensures fetchList(pageParam, limit).Err? ==> r == Err(fetchList(pageParam, limit).error)
    ensures fetchList(pageParam, limit).Ok? ==>
              r == Ok(Transformers.TransformPokemonListResponse(fetchList(pageParam, limit).value, {}, offsetOf))
    ensures r.Ok? ==> forall p :: p in r.value.pokemon ==> !p.isFavorite
  {
    match PokemonApi.GetPokemonList(PokemonApi.ListParams(Some(pageParam), Some(limit)), fetchList)
    case Err(e) => Err(e)
    case Ok(response) => Ok(Transformers.TransformPokemonListResponse(response, {}, offsetOf))
  }

  /* --------------------------------------------------------- page params */

  /**
   * `getNextPageParam`: `lastPage.hasNextPage ? lastPage.nextOffset : undefined`.
   * On a converted page the converse holds as well: `PageParamsFollowResponse`
   * shows the parameter is present exactly when the API's `next` is truthy.
   */
  function NextPageParam(lastPage: PokemonListPage): (r: Option<int>)
    ensures r.Some? ==> lastPage.hasNextPage && lastPage.nextOffset == r
    ensures !lastPage.hasNextPage ==> r.None?
  {
    if lastPage.hasNextPage then lastPage.nextOffset else None
  }

  /**
   * `getPreviousPageParam`: `firstPage.hasPreviousPage ? firstPage.previousOffset : undefined`.
   * The converse on converted pages is in `PageParamsFollowResponse`.
   */
  function PreviousPageParam(firstPage: PokemonListPage): (r: Option<int>)
    ensures r.Some? ==> firstPage.hasPreviousPage && firstPage.previousOffset == r
    ensures !firstPage.hasPreviousPage ==> r.None?
  {
    if firstPage.hasPreviousPage then firstPage.previousOffset else None
  }

  /**
   * On a converted page, there is a next (previous) page parameter exactly
   * when the API gave a non-empty `next` (`previous`) URL, and it is that
   * URL's offset.
   */
  lemma PageParamsFollowResponse(api: ListResponse, favoriteIds: set<int>, offsetOf: string -> int)
    ensures var page := Transformers.TransformPokemonListResponse(api, favoriteIds, offsetOf);
            && (NextPageParam(page).Some? <==> Transformers.Truthy(api.next))
            && (NextPageParam(page).Some? ==> NextPageParam(page).value == offsetOf(api.next.value))
            && (PreviousPageParam(page).Some? <==> Transformers.Truthy(api.previous))
            && (PreviousPageParam(page).Some? ==> PreviousPageParam(page).value == offsetOf(api.previous.value))
  {
    var page := Transformers.TransformPokemonListResponse(api, favoriteIds, offsetOf);
    assert Transformers.Truthy(api.next) ==> page.hasNextPage;
    assert Transformers.Truthy(api.previous) ==> page.hasPreviousPage;
  }

  /** `initialPageParam`: the offset the first page is fetched at (also the query function's `pageParam` default). */
  const INITIAL_PAGE_PARAM: int := 0

  /**
   * The offset the library fetches next, given the pages loaded so far:
   * `initialPageParam` when none is loaded, then `getNextPageParam` of the
   * last page; `None` means there is no next page to fetch.
   */
  function NextRequest(pages: seq<PokemonListPage>): (r: Option<int>)
    ensures pages == [] ==> r == Some(0)
    ensures pages != [] ==> (r.Some? <==> pages[|pages| - 1].hasNextPage && pages[|pages| - 1].nextOffset.Some?)
    ensures pages != [] && r.Some? ==> r == pages[|pages| - 1].nextOffset
  {
    if pages == [] then Some(INITIAL_PAGE_PARAM) else NextPageParam(pages[|pages| - 1])
  }

  /**
   * After a page converted from the API's response is loaded, the next
   * request exists exactly when that response's `next` URL is non-empty,
   * and it is the offset that URL carries.
   */
  lemma NextRequestAfterPage(pages: seq<PokemonListPage>, api: ListResponse, offsetOf: string -> int)
    ensures var r := NextRequest(pages + [Transformers.TransformPokemonListResponse(api, {}, offsetOf)]);
            && (r.Some? <==> Transformers.Truthy(api.next))
            && (r.Some? ==> r.value == offsetOf(api.next.value))
  {
    var page := Transformers.TransformPokemonListResponse(api, {}, offsetOf);
    assert (pages + [page])[|pages + [page]| - 1] == page;
    PageParamsFollowResponse(api, {}, offsetOf);
  }

  /** The pages the hook builds from a run of API responses, each converted without favourites. */
  function ConvertPages(apis: seq<ListResponse>, offsetOf: string -> int): (r: seq<PokemonListPage>)
    ensures |r| == |apis|
    ensures forall i :: 0 <= i < |apis| ==> r[i] == Transformers.TransformPokemonListResponse(apis[i], {}, offsetOf)
  {
    if apis == [] then [] else [Transformers.TransformPokemonListResponse(apis[0], {}, offsetOf)] + ConvertPages(apis[1..], offsetOf)
  }

  /**
   * The offsets requested along a run of loaded pages: the first is 0, and
   * after k pages there is a next request exactly when the k-th response's
   * `next` URL is non-empty, at the offset that URL carries.
   */
  lemma RequestedOffsets(apis: seq<ListResponse>, offsetOf: string -> int, k: nat)
    requires k <= |apis|
    ensures var r := NextRequest(ConvertPages(apis[..k], offsetOf));
            && (k == 0 ==> r == Some(INITIAL_PAGE_PARAM))
            && (k > 0 ==> (r.Some? <==> Transformers.Truthy(apis[k - 1].next)))
            && (k > 0 && r.Some? ==> r.value == offsetOf(apis[k - 1].next.value))
  {
    if k > 0 {
      var pages := ConvertPages(apis[..k], offsetOf);
      assert pages[k - 1] == Transformers.TransformPokemonListResponse(apis[k - 1], {}, offsetOf);
      PageParamsFollowResponse(apis[k - 1], {}, offsetOf);
    }
  }

  /* ---------------------------------------------------------- flattening */

  /** `pages.reduce((acc, page) => [...acc, ...page.pokemon], acc)` */
  function Reduce(acc: seq<Pokemon>, pages: seq<PokemonListPage>): seq<Pokemon>
    decreases |pages|
  {
    if pages == [] then acc else Reduce(acc + pages[0].pokemon, pages[1..])
  }

  /** The pages' items one after the other, the reference the reduction is held to. */
  function Concat(pages: seq<PokemonListPage>): seq<Pokemon> {
    if pages == [] then [] else pages[0].pokemon + Concat(pages[1..])
  }

  /** The total number of items over all pages. */
  function TotalItems(pages: seq<PokemonListPage>): nat {
    if pages == [] then 0 else |pages[0].pokemon| + TotalItems(pages[1..])
  }

  /** The reduction appends the pages' items to its accumulator, in page order. */
  lemma {:induction false} ReduceIsConcat(acc: seq<Pokemon>, pages: seq<PokemonListPage>)
    ensures Reduce(acc, pages) == acc + Concat(pages)
    decreases |pages|
  {
    if pages != [] {
      ReduceIsConcat(acc + pages[0].pokemon, pages[1..]);
      assert acc + pages[0].pokemon + Concat(pages[1..]) == acc + (pages[0].pokemon + Concat(pages[1..]));
    }
  }

  lemma {:induction false} ConcatLength(pages: seq<PokemonListPage>)
    ensures |Concat(pages)| == TotalItems(pages)
  {
    if pages != [] {
      ConcatLength(pages[1..]);
    }
  }

  /** Loading one more page appends exactly its items to the flattened list. */
  lemma {:induction false} ConcatAppendPage(pages: seq<PokemonListPage>, page: PokemonListPage)
    ensures Concat(pages + [page]) == Concat(pages) + page.pokemon
  {
    if pages == [] {
      assert [page][1..] == [];
    } else {
      assert (pages + [page])[1..] == pages[1..] + [page];
      ConcatAppendPage(pages[1..], page);
    }
  }

  /** An item is in the flattened list exactly when it is on one of the pages. */
  lemma {:induction false} ConcatMembers(pages: seq<PokemonListPage>, x: Pokemon)
    ensures x in Concat(pages) <==> exists k :: 0 <= k < |pages| && x in pages[k].pokemon
  {
    if pages != [] {
      ConcatMembers(pages[1..], x);
      if x in Concat(pages[1..]) {
        var k :| 0 <= k < |pages[1..]| && x in pages[1..][k].pokemon;
        assert x in pages[k + 1].pokemon;
      }
      if exists k :: 0 <= k < |pages| && x in pages[k].pokemon {
        var k :| 0 <= k < |pages| && x in pages[k].pokemon;
        if k > 0 {
          assert x in pages[1..][k - 1].pokemon;
        }
      }
    }
  }

  /** The hook's `pokemon`: no data gives the empty list, else the pages flattened. */
  function FlattenPages(pages: Option<seq<PokemonListPage>>): (r: seq<Pokemon>)
    ensures pages.None? ==> r == []
    ensures pages.Some? ==> r == Concat(pages.value) && |r| == TotalItems(pages.value)
  {
    if pages.None? then []
    else
      ReduceIsConcat([], pages.value);
      ConcatLength(pages.value);
      Reduce([], pages.value)
  }

  /* ---------------------------------------------------- guard and result */

  /**
   * `handleFetchNextPage`: a next page is requested only if there is one and
   * none is on its way; `UsePokemonsView` states the guard as an if-and-only-if.
   */
  function ShouldFetchNextPage(hasNextPage: bool, isFetchingNextPage: bool): (r: bool)
    ensures r ==> hasNextPage
    ensures isFetchingNextPage ==> !r
  {
    hasNextPage && !isFetchingNextPage
  }

  /** The list's `retry(failureCount, error)`: `retryable && failureCount < 3`. */
  function ListRetry(failureCount: nat, error: ApiError): (r: bool)
    ensures !error.retryable ==> !r
    ensures r ==> failureCount < QueryClient.QUERY_MAX_FAILURES
  {
    error.retryable && failureCount < 3
  }

  /** The list's own retry predicate decides exactly as the client-wide query default. */
  lemma ListRetryIsQueryDefault(failureCount: nat, error: ApiError)
    ensures ListRetry(failureCount, error) == QueryClient.QueryRetry(failureCount, error)
  {}

  /** What the caching library reports about the list query. */
  datatype ListQueryState = ListQueryState(
    pages: Option<seq<PokemonListPage>>,
    error: Option<ApiError>,
    hasNextPage: Option<bool>,
    isFetchingNextPage: bool)

  /** What the hook returns of it. */
  datatype ListView = ListView(pokemon: seq<Pokemon>, error: Option<ApiError>, hasNextPage: bool, fetchNextPageAllowed: bool)

  /** The hook's result: flattened pages, `error ?? null`, `hasNextPage ?? false`, and the guarded fetch. */
  function UsePokemonsView(state: ListQueryState): (r: ListView)
    ensures r.pokemon == if state.pages.Some? then Concat(state.pages.value) else []
    ensures r.error == state.error
    ensures r.hasNextPage <==> state.hasNextPage == Some(true)
    ensures r.fetchNextPageAllowed <==> state.hasNextPage == Some(true) && !state.isFetchingNextPage
  {
    var hasNext := state.hasNextPage.GetOr(false);
    ListView(FlattenPages(state.pages), state.error, hasNext, ShouldFetchNextPage(hasNext, state.isFetchingNextPage))
  }
}
