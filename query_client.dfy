/**
 * The caching layer's configuration in src/api/queryClient.ts: the retry
 * predicates and backoff formulas for queries and mutations, and the
 * constructors of the query keys whose prefixes invalidation relies on.
 * The caching library itself (scheduling, freshness, garbage collection) is
 * not modelled; a filter key invalidates the cached keys it is a prefix of.
 */
module QueryClient {
  import opened Wrappers
  import opened ApiClient

  const QUERY_MAX_FAILURES: nat := 3
  const MUTATION_MAX_FAILURES: nat := 2
  const QUERY_MAX_DELAY: nat := 30000
  const MUTATION_MAX_DELAY: nat := 10000
  const BASE_DELAY: nat := 1000

  /* ------------------------------------------------------------ retrying */

  /** The queries' `retry(failureCount, error)`: never for a non-retryable error, else below 3 failures. */
  function QueryRetry(failureCount: nat, error: ApiError): (r: bool)
    ensures !error.retryable ==> !r
    ensures r ==> failureCount < QUERY_MAX_FAILURES
  {
    if !error.retryable then false else failureCount < QUERY_MAX_FAILURES
  }

  /** The mutations' `retry(failureCount, error)` */
  function MutationRetry(failureCount: nat, error: ApiError): (r: bool)
    ensures !error.retryable ==> !r
    ensures r ==> failureCount < MUTATION_MAX_FAILURES
  {
    error.retryable && failureCount < MUTATION_MAX_FAILURES
  }

  /** The failure counts at which a retry is still allowed: three for a query, two for a mutation. */
  lemma RetryBudgets(error: ApiError)
    requires error.retryable
    ensures forall n: nat :: QueryRetry(n, error) <==> n in {0, 1, 2}
    ensures forall n: nat :: MutationRetry(n, error) <==> n in {0, 1}
  {}

  /** A non-retryable error is never retried, and once a retry is refused it stays refused. */
  lemma RetryStopsForGood(failureCount: nat, error: ApiError)
    ensures !error.retryable ==> !QueryRetry(failureCount, error) && !MutationRetry(failureCount, error)
    ensures !QueryRetry(failureCount, error) ==> !QueryRetry(failureCount + 1, error)
    ensures !MutationRetry(failureCount, error) ==> !MutationRetry(failureCount + 1, error)
    ensures MutationRetry(failureCount, error) ==> QueryRetry(failureCount, error)
  {}

  /** `Math.min(1000 * 2 ** attemptIndex, cap)` */
  function CappedBackoff(attemptIndex: nat, cap: nat): (r: nat)
    ensures r <= cap
    ensures BASE_DELAY <= cap ==> BASE_DELAY <= r
  {
    var d := BASE_DELAY * Pow2(attemptIndex);
    if d < cap then d else cap
  }

  /** The queries' `retryDelay` */
  function QueryRetryDelay(attemptIndex: nat): (r: nat)
    ensures BASE_DELAY <= r <= QUERY_MAX_DELAY
  {
    CappedBackoff(attemptIndex, QUERY_MAX_DELAY)
  }

  /** The mutations' `retryDelay` */
  function MutationRetryDelay(attemptIndex: nat): (r: nat)
    ensures BASE_DELAY <= r <= MUTATION_MAX_DELAY
  {
    CappedBackoff(attemptIndex, MUTATION_MAX_DELAY)
  }

  lemma {:induction false} Pow2Monotone(i: nat, j: nat)
    requires i <= j
    ensures Pow2(i) <= Pow2(j)
    decreases j - i
  {
    if i < j {
      Pow2Monotone(i, j - 1);
    }
  }

  /** Backoff never exceeds its cap and never shrinks from one attempt to the next. */
  lemma CappedBackoffMonotone(i: nat, j: nat, cap: nat)
    requires i <= j
    ensures CappedBackoff(i, cap) <= CappedBackoff(j, cap) <= cap
  {
    Pow2Monotone(i, j);
  }

  /** Below the cap each delay is twice the one before. */
  lemma CappedBackoffDoubles(i: nat, cap: nat)
    requires CappedBackoff(i + 1, cap) < cap
    ensures CappedBackoff(i + 1, cap) == 2 * CappedBackoff(i, cap)
  {
    Pow2Monotone(i, i + 1);
  }

  /** Query delays run 1s, 2s, 4s, 8s, 16s and are capped at 30s from the sixth on. */
  lemma {:induction false} QueryRetryDelayShape(i: nat)
    ensures QueryRetryDelay(i) <= QUERY_MAX_DELAY
    ensures QueryRetryDelay(i) == QUERY_MAX_DELAY <==> i >= 5
    ensures i < 5 ==> QueryRetryDelay(i) == 1000 * Pow2(i)
  {
    assert Pow2(5) == 32 by { assert Pow2(4) == 16 by { assert Pow2(2) == 4; } }
    if i >= 5 {
      Pow2Monotone(5, i);
    } else {
      Pow2Monotone(i, 4);
      assert Pow2(4) == 16 by { assert Pow2(2) == 4; }
    }
  }

  /** Mutation delays run 1s, 2s, 4s, 8s and are capped at 10s from the fifth on. */
  lemma {:induction false} MutationRetryDelayShape(i: nat)
    ensures MutationRetryDelay(i) <= MUTATION_MAX_DELAY
    ensures MutationRetryDelay(i) == MUTATION_MAX_DELAY <==> i >= 4
    ensures i < 4 ==> MutationRetryDelay(i) == 1000 * Pow2(i)
  {
    assert Pow2(4) == 16 by { assert Pow2(2) == 4; }
    if i >= 4 {
      Pow2Monotone(4, i);
    } else {
      Pow2Monotone(i, 3);
      assert Pow2(3) == 8;
    }
  }

  /* ---------------------------------------------------------- query keys */

  /** One element of a query key: a string, a number, or the list's `{ offset?, limit? }` object. */
  datatype KeyPart = Str(s: string) | Num(n: int) | Params(offset: Option<int>, limit: Option<int>)

  type QueryKey = seq<KeyPart>

  /** `id: string | number` */
  datatype IdOrName = ById(id: int) | ByName(name: string)

  function IdPart(id: IdOrName): KeyPart {
    match id
    case ById(n) => Num(n)
    case ByName(s) => Str(s)
  }

  /** `filter` is a prefix of `key`: invalidating `filter` invalidates `key`. */
  predicate IsPrefix(filter: QueryKey, key: QueryKey) {
    |filter| <= |key| && key[..|filter|] == filter
  }

  /** `queryKeys.pokemon.all` */
  function PokemonAll(): (r: QueryKey)
    ensures |r| == 1 && r[0] == Str("pokemon")
  {
    [Str("pokemon")]
  }
  /** `queryKeys.pokemon.lists()` */
  function PokemonLists(): (r: QueryKey)
    ensures IsPrefix(PokemonAll(), r) && |r| == 2 && r[1] == Str("list")
  {
    PokemonAll() + [Str("list")]
  }
  /** `queryKeys.pokemon.list(params)` */
  function PokemonList(offset: Option<int>, limit: Option<int>): (r: QueryKey)
    ensures IsPrefix(PokemonLists(), r) && |r| == 3 && r[2] == Params(offset, limit)
  {
    PokemonLists() + [Params(offset, limit)]
  }
  /** `queryKeys.pokemon.details()` */
  function PokemonDetails(): (r: QueryKey)
    ensures IsPrefix(PokemonAll(), r) && |r| == 2 && r[1] == Str("detail")
  {
    PokemonAll() + [Str("detail")]
  }
  /** `queryKeys.pokemon.detail(id)` */
  function PokemonDetailKey(id: IdOrName): (r: QueryKey)
    ensures IsPrefix(PokemonDetails(), r) && |r| == 3 && r[2] == IdPart(id)
  {
    PokemonDetails() + [IdPart(id)]
  }
  /** `queryKeys.pokemon.search(query)` */
  function PokemonSearch(query: string): (r: QueryKey)
    ensures IsPrefix(PokemonSearches(), r) && |r| == 3 && r[2] == Str(query)
  {
    PokemonAll() + [Str("search"), Str(query)]
  }
  /** `queryKeys.pokemon.favorites()` */
  function PokemonFavorites(): (r: QueryKey)
    ensures IsPrefix(PokemonAll(), r) && |r| == 2 && r[1] == Str("favorites")
  {
    PokemonAll() + [Str("favorites")]
  }
  /** The key `invalidatePokemonSearch` uses: `[...all, 'search']`. */
  function PokemonSearches(): (r: QueryKey)
    ensures IsPrefix(PokemonAll(), r) && |r| == 2 && r[1] == Str("search")
  {
    PokemonAll() + [Str("search")]
  }
  /** `queryKeys.species.all` */
  function SpeciesAll(): (r: QueryKey)
    ensures |r| == 1 && r[0] == Str("species") && !IsPrefix(PokemonAll(), r)
  {
    [Str("species")]
  }
  /** `queryKeys.species.detail(id)` */
  function SpeciesDetail(id: IdOrName): (r: QueryKey)
    ensures IsPrefix(SpeciesAll(), r) && |r| == 2 && r[1] == IdPart(id)
  {
    SpeciesAll() + [IdPart(id)]
  }

  /** Every key constructor under `queryKeys.pokemon`, with its arguments. */
  datatype PokemonKeyRequest =
    | All | Lists | List(offset: Option<int>, limit: Option<int>) | Details | Detail(id: IdOrName)
    | Search(query: string) | Favorites

  function PokemonKey(r: PokemonKeyRequest): QueryKey {
    match r
    case All => PokemonAll()
    case Lists => PokemonLists()
    case List(o, l) => PokemonList(o, l)
    case Details => PokemonDetails()
    case Detail(id) => PokemonDetailKey(id)
    case Search(q) => PokemonSearch(q)
    case Favorites => PokemonFavorites()
  }

  /** `invalidateAllPokemon` reaches every Pokémon key, and no species key. */
  lemma InvalidateAllPokemonCoversAll(r: PokemonKeyRequest, id: IdOrName)
    ensures IsPrefix(PokemonAll(), PokemonKey(r))
    ensures !IsPrefix(PokemonAll(), SpeciesDetail(id)) && !IsPrefix(PokemonAll(), SpeciesAll())
  {
    assert PokemonKey(r)[..1] == PokemonAll();
    assert SpeciesDetail(id)[..1] == SpeciesAll();
  }

  /** Species keys and Pokémon keys never cover each other. */
  lemma SpeciesKeysApart(r: PokemonKeyRequest, id: IdOrName)
    ensures SpeciesDetail(id)[0] == Str("species") && PokemonKey(r)[0] == Str("pokemon")
    ensures !IsPrefix(SpeciesAll(), PokemonKey(r)) && !IsPrefix(SpeciesDetail(id), PokemonKey(r))
    ensures !IsPrefix(PokemonKey(r), SpeciesDetail(id))
  {
    assert PokemonKey(r)[..1] == PokemonAll();
    assert SpeciesDetail(id)[..1] == SpeciesAll();
  }

  /** `invalidatePokemonLists` reaches exactly the list keys. */
  lemma InvalidateListsExactly(r: PokemonKeyRequest)
    ensures IsPrefix(PokemonLists(), PokemonKey(r)) <==> r.Lists? || r.List?
  {
    if IsPrefix(PokemonLists(), PokemonKey(r)) {
      assert PokemonKey(r)[1] == Str("list");
    }
  }

  /** `invalidatePokemonDetail(id)` reaches the detail key of that id and nothing else. */
  lemma InvalidateDetailExactly(r: PokemonKeyRequest, id: IdOrName)
    ensures IsPrefix(PokemonDetailKey(id), PokemonKey(r)) <==> r == Detail(id)
  {
    if IsPrefix(PokemonDetailKey(id), PokemonKey(r)) {
      assert PokemonKey(r)[1] == Str("detail");
      assert r.Detail?;
      assert IdPart(r.id) == PokemonKey(r)[2] == IdPart(id);
    }
  }

  /** `invalidatePokemonSearch` reaches exactly the search keys; `search(q)` sits under it. */
  lemma InvalidateSearchesExactly(r: PokemonKeyRequest)
    ensures IsPrefix(PokemonSearches(), PokemonKey(r)) <==> r.Search?
  {
    if IsPrefix(PokemonSearches(), PokemonKey(r)) {
      assert PokemonKey(r)[1] == Str("search");
    }
  }

  /** Each child key is built on its parent: `list(p)` under `lists()`, `detail(id)` under `details()`. */
  lemma KeyHierarchy(offset: Option<int>, limit: Option<int>, id: IdOrName, query: string)
    ensures IsPrefix(PokemonLists(), PokemonList(offset, limit))
    ensures IsPrefix(PokemonDetails(), PokemonDetailKey(id))
    ensures IsPrefix(PokemonSearches(), PokemonSearch(query))
    ensures IsPrefix(SpeciesAll(), SpeciesDetail(id))
  {
    assert PokemonList(offset, limit)[..2] == PokemonLists();
    assert PokemonDetailKey(id)[..2] == PokemonDetails();
    assert PokemonSearch(query)[..2] == PokemonSearches();
    assert SpeciesDetail(id)[..1] == SpeciesAll();
  }
}
