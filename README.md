# Pokédex client logic in Dafny

This project models the logic layer of a React Native Pokédex client that
reads the public PokéAPI. It covers:

- the favourites store, which keeps the user's favourite Pokémon ids in memory
  and mirrors them into one storage slot;
- the conversion of API records into the application's own records, and the
  formatters for height, weight, names and `#NNN` numbers;
- the classification of failed requests into seven error codes, and the
  counted retry loop with exponential backoff;
- the search policy: a blank query gives the plain list, then an exact-name
  lookup, then a case-insensitive substring filter;
- the caching layer's retry predicates, backoff delays and query-key
  hierarchy;
- the rules of the two data hooks: how pages are flattened and continued, and
  when a search runs.

Network requests, storage access and the caching library are not executed.
Each request is an oracle parameter (`fetchList`, `fetchDetail`, `call`).
Each storage outcome is a boolean parameter (`writeOk`, `readOk`,
`removeOk`). The state the caching library reports is an input datatype.

Modules, one per source file (plus shared helpers):

| module | file | models |
|---|---|---|
| `Wrappers` | wrappers.dfy | `Option` and `Result` |
| `Text` | text.dfy | the JavaScript string built-ins the core relies on: `trim`, ASCII `toLowerCase`/`toUpperCase`, `includes`, `padStart`, `split`/`join`, `toString` and `parseInt` on digit strings, and `length` in UTF-16 code units |
| `ApiTypes` | api_types.dfy | the API's response records |
| `PokemonTypes` | pokemon_types.dfy | src/types/pokemon.types.ts |
| `ApiClient` | api_client.dfy | src/api/apiClient.ts |
| `PokemonApi` | pokemon_api.dfy | src/api/pokemon.ts |
| `Transformers` | transformers.dfy | src/types/transformers.ts |
| `QueryClient` | query_client.dfy | src/api/queryClient.ts |
| `UsePokemons` | use_pokemons.dfy | src/hooks/usePokemons.ts |
| `UsePokemonSearch` | use_pokemon_search.dfy | src/hooks/usePokemonSearch.ts |
| `PokemonCard` | pokemon_card.dfy | the text helpers of src/components/pokemon/PokemonCard.tsx |
| `FavoritesStore` | favorites_store.dfy | src/store/favoritesStore.ts |

The favourites store is a class. It has fields `ids` (the JavaScript `Set`,
kept as a duplicate-free sequence in insertion order), `isLoading`, `error`
and `slot` (what storage holds under `@pokemon_favorites`). Its methods change
those fields as the store's actions do. `withRetry` is a method with the
source's loop, and it is proved equal to a recursive specification
`RetrySpec`. Everything else is pure and is modelled as functions.

Three behaviours of the code are easy to misread; the model follows the code:

- The list conversion sets `hasNextPage` when `next !== null`, but it sets
  `nextOffset` only when `next` is truthy. An empty `next` string therefore
  gives `hasNextPage` true with no offset (`Transformers.TransformPokemonListResponse`,
  `UsePokemons.PageParamsFollowResponse`).
- The list hook and the search hook call the list conversion without
  favourites. So every Pokémon they produce has `isFavorite` false
  (`UsePokemons.FetchPage`, `UsePokemonSearch.EnabledSearchExactHit`).
- `loadFavorites` cannot reach its error branch, because
  `loadFavoritesFromStorage` catches everything itself. The model therefore
  never sets 'Error al cargar favoritos' (`FavoritesStore.Store.LoadFavorites`).

## Model

| member | source | states |
|---|---|---|
| FavoritesStore.Store.constructor | src/store/favoritesStore.ts:28-32 | the store starts with no favourites, not loading and no error |
| FavoritesStore.Store.IsFavorite | src/store/favoritesStore.ts:35-37 | true exactly when the id is in the favourites set |
| FavoritesStore.Store.GetFavoriteIds | src/store/favoritesStore.ts:40-42 | a duplicate-free list whose elements are exactly the favourites set, one entry per favourite |
| FavoritesStore.Store.SaveFavoritesToStorage | src/store/favoritesStore.ts:166-176 | a successful write puts the encoded list in the slot; a failed write leaves the slot as it was and is reported to the caller; the in-memory state is not touched |
| FavoritesStore.Store.AddFavorite | src/store/favoritesStore.ts:56-81 | the set becomes old ∪ {id}, appended in insertion order, whether or not the write succeeds; a success stores exactly the new list and clears `error`; a failure keeps the old slot and sets 'Error al agregar <name> a favoritos'; `isLoading` is unchanged |
| FavoritesStore.Store.RemoveFavorite | src/store/favoritesStore.ts:84-109 | the set becomes old \ {id}, whether or not the write succeeds; a success stores exactly the new list and clears `error`; a failure keeps the old slot and sets 'Error al remover de favoritos' |
| FavoritesStore.Store.ToggleFavorite | src/store/favoritesStore.ts:45-53 | flips membership of `id` only, through remove for a favourite and add otherwise, with that branch's storage and error outcome |
| FavoritesStore.Store.LoadFavorites | src/store/favoritesStore.ts:112-138 | the set becomes the stored list with repeats collapsed (empty when the slot is missing, unreadable or malformed); afterwards `isLoading` is false, `error` is null and the slot is unchanged |
| FavoritesStore.Store.ClearFavorites | src/store/favoritesStore.ts:141-162 | the set is empty even when removing the slot fails; success empties the slot; failure keeps the slot and sets 'Error al limpiar favoritos' |
| FavoritesStore.LoadFavoritesFromStorage | src/store/favoritesStore.ts:178-204 | the stored numbers when the slot reads as an array of numbers; the empty list when the slot is absent, unreadable, unparsable or anything else |
| FavoritesStore.LoadAfterSave | src/store/favoritesStore.ts:166-191 | what a successful save writes, a successful load reads back unchanged |
| FavoritesStore.Dedup | src/store/favoritesStore.ts:117 | `new Set(list)`: no repeats, and the same elements as the list |
| FavoritesStore.DedupOfNoDup | src/store/favoritesStore.ts:117 | a list without repeats is its own `new Set(...)` |
| FavoritesStore.AddId | src/store/favoritesStore.ts:61-62 | adding keeps the list repeat-free, its elements become old ∪ {id}, and an id already present changes nothing |
| FavoritesStore.RemoveId | src/store/favoritesStore.ts:89-90 | removing keeps the list repeat-free, its elements become old \ {id}, an absent id changes nothing, and the length drops by one exactly when the id was present |
| FavoritesStore.RemoveAfterAdd | src/store/favoritesStore.ts:56-109 | adding a new id and then removing it gives back the very same list, order included |
| FavoritesStore.ToggleTwice | src/store/favoritesStore.ts:45-53 | toggling twice restores the set; a toggle flips the toggled id and leaves every other id as it was |
| FavoritesStore.ElementsCount | src/store/favoritesStore.ts:40-42 | a repeat-free list has as many entries as its set |
| FavoritesStore.Encode | src/store/favoritesStore.ts:168 | `JSON.stringify(ids)`: an array holding each id as a number, in order |
| FavoritesStore.Numbers | src/store/favoritesStore.ts:189-190 | the stored numbers, one per array item, in order |
| FavoritesStore.ToggleThenReload | src/store/favoritesStore.ts:45-122 | after a successful toggle, reloading from storage gives back exactly the in-memory favourites |
| FavoritesStore.ToggleTwiceRestores | src/store/favoritesStore.ts:45-53 | two successful toggles of one id restore the favourites set, keep the exact order when the id was new, and leave the slot holding the in-memory list |
| Transformers.ListItemIdAgrees | src/types/transformers.ts:35 | the id written out inline in the list conversion equals `extractPokemonId` of the URL |
| Transformers.ListItemImageIsDefaultSprite | src/types/transformers.ts:40 | the list item's image is the default sprite URL of its id |
| Transformers.TransformPokemonListItem | src/types/transformers.ts:30-44 | the id is the number of the leftmost `/pokemon/<digits>/` segment, else 0; the name is kept; the image is the default-sprite URL of the id (`getPokemonImageUrl(id, 'default')`), ending in `<id>.png`; the types are empty; `isFavorite` is membership of the id |
| Transformers.ListItemIdFromResourceUrl | src/types/transformers.ts:35 | an item carrying the API's resource URL for id n gets id n |
| Transformers.TransformItems | src/types/transformers.ts:53-55 | one converted item per result, same order |
| Transformers.TransformPokemonListResponse | src/types/transformers.ts:49-74 | keeps the results' count and order and the total; `hasNextPage`/`hasPreviousPage` exactly when `next`/`previous` is non-null; an offset exactly when the URL is non-empty, and then it is that URL's offset |
| Transformers.TransformPokemonTypes | src/types/transformers.ts:79-86 | one type per slot, in order, with the slot's name and the colour for that name |
| Transformers.TransformPokemonStats | src/types/transformers.ts:91-100 | one stat per slot, in order: name, display name and value from the slot, and the maximum `getStatMaxValue` gives for the stat's name |
| Transformers.CapitalizeAll | src/types/transformers.ts:112 | each word capitalised, same count and order |
| Transformers.TransformPokemonAbilities | src/types/transformers.ts:105-116 | one ability per slot, in order, with the name, the hidden flag and the title-cased display name |
| Transformers.AbilityDisplayNameShape | src/types/transformers.ts:110-113 | the display name has no '-', has the name's length, and has one more space for every hyphen of the name |
| Transformers.JoinLength | src/types/transformers.ts:113 | joining adds one separator between consecutive parts |
| Transformers.JoinAvoids | src/types/transformers.ts:113 | a character that is in no part and is not the separator is not in the join |
| Transformers.CapitalizeKeepsCount | src/types/transformers.ts:112 | capitalising keeps the count of every non-letter character |
| Transformers.CapitalizeAllSums | src/types/transformers.ts:112 | capitalising every word keeps the total length and the total count of any non-letter |
| Transformers.OrNull | src/types/transformers.ts:129-130 | `x \|\| null`: present exactly when the string is present and non-empty, and then unchanged |
| Transformers.TransformPokemonSprites | src/types/transformers.ts:121-132 | the four plain sprites are copied; each artwork entry is null exactly when the nested object or its URL is missing or empty, and otherwise is that URL |
| Transformers.DetailImageUrl | src/types/transformers.ts:149 | the official artwork if non-empty, else the default sprite if non-empty, else '' (and '' only then) |
| Transformers.TransformPokemonDetail | src/types/transformers.ts:137-160 | id, name, measures, experience and species copied; the favourite flag as given; types, stats and abilities are the conversions of the API's lists; the sprites converted and the image chosen from them |
| Transformers.TransformPokemonToDetail | src/types/transformers.ts:165-170 | the detail conversion, keeping the basic Pokémon's favourite flag |
| Transformers.UpdatePokemonFavoriteStatus | src/types/transformers.ts:175-183 | only the favourite flag changes |
| Transformers.UpdatePokemonListFavoriteStatus | src/types/transformers.ts:188-196 | same length and order; each element's flag becomes id ∈ set and nothing else changes |
| Transformers.ReflagTransformedItems | src/types/transformers.ts:188-196 | re-flagging converted items against a new set is the same as converting them with that set |
| Transformers.ReflagIdempotent | src/types/transformers.ts:188-196 | re-flagging twice with the same set is re-flagging once |
| Transformers.ParseFormatTenths | src/types/transformers.ts:201-212 | for natural N the text is `N div 10` "." `N mod 10` and the unit, and reading it back gives N |
| Transformers.FormatPokemonHeightInjective | src/types/transformers.ts:201-204 | different heights show differently |
| Transformers.FormatExamples | src/types/transformers.ts:201-212 | 7 decimetres show as "0.7 m"; 69 hectograms as "6.9 kg" |
| Transformers.FormatPokemonHeight | src/types/transformers.ts:201-204 | the text ends in " m" and reads back as the height in decimetres it came from |
| Transformers.FormatPokemonWeight | src/types/transformers.ts:209-212 | the text ends in " kg" and reads back as the weight in hectograms it came from |
| Transformers.FormatPokemonName | src/types/transformers.ts:217-219 | same length; the first character upper-cased and the rest unchanged |
| Text.Capitalize | src/types/transformers.ts:217-219 | `formatPokemonName`: same length, first character upper-cased, the rest unchanged, "" for "" |
| Text.CapitalizeIdempotent | src/types/transformers.ts:217-219 | formatting a formatted name changes nothing |
| PokemonTypes.GetPokemonTypeColor | src/types/pokemon.types.ts:166-168 | the table colour of the lower-cased name, '#68A090' for an unknown type; always a 7-character '#' colour |
| PokemonTypes.GetStatDisplayName | src/types/pokemon.types.ts:173-175 | the table entry for the lower-cased name, else the name unchanged |
| PokemonTypes.GetStatMaxValue | src/types/pokemon.types.ts:180-182 | the table entry for the lower-cased name, else 255; always within 1..255 |
| PokemonTypes.LookupsIgnoreCase | src/types/pokemon.types.ts:166-182 | every casing of a name gives the same colour and maximum, and the same display name for a known stat |
| Text.LowerStrIdempotent | src/types/pokemon.types.ts:167 | lower-casing twice is lower-casing once |
| ApiClient.TransformError | src/api/apiClient.ts:25-90 | the code follows the checks in order (ECONNABORTED, ERR_NETWORK, then 404, 429, 500/502/503/504, other status, no response); `retryable` is false exactly for NOT_FOUND and HTTP_ERROR; the HTTP_ERROR message contains the status |
| ApiClient.HttpErrorMessageContainsStatus | src/api/apiClient.ts:75 | the generic HTTP message contains the status number |
| ApiClient.MessageDeterminedByCode | src/api/apiClient.ts:25-90 | two failures with the same code (and the same status, for HTTP_ERROR) become the same error |
| ApiClient.WithRetry | src/api/apiClient.ts:134-168 | the loop's result, number of calls and waits are those of the recursive specification of `withRetry` |
| ApiClient.RetryCallsBound | src/api/apiClient.ts:141 | `apiCall` runs at least once and at most `maxRetries` times, and never when `maxRetries < 1` (then `undefined` is thrown) |
| ApiClient.RetryStopsAtFirstDecisiveAttempt | src/api/apiClient.ts:141-155 | every attempt before the last failed retryably; the run returns the last attempt's value when it succeeded; otherwise it throws that attempt's error, which is non-retryable unless it was attempt `maxRetries` |
| ApiClient.NonRetryableSurfacesAtOnce | src/api/apiClient.ts:148-150 | a non-retryable first failure is thrown after one call with no wait |
| ApiClient.DefaultRetryableRun | src/api/apiClient.ts:134-160 | with the defaults `maxRetries = 3` and `delay = 1000`, an error that stays retryable is tried three times and thrown as the third attempt's error, after waits of exactly 1000 and 2000 ms |
| ApiClient.DefaultRetryCallsAtMostThree | src/api/apiClient.ts:134-141 | with the defaults, `apiCall` runs between one and three times |
| ApiClient.RetryableExhaustsAttempts | src/api/apiClient.ts:141-155 | when every attempt fails retryably, `apiCall` runs exactly `maxRetries` times and the last error is thrown |
| ApiClient.RetryWaitsDouble | src/api/apiClient.ts:158-159 | one wait fewer than calls; the wait after attempt k is `delay * 2^(k-1)`, so each wait doubles the previous |
| PokemonApi.DigitRun | src/api/pokemon.ts:116 | the greedy `\d+`: the longest run of digits at the front |
| PokemonApi.FirstMatchFrom | src/api/pokemon.ts:116 | the leftmost match at or after a position: the result is the match at some position with no match before it, and none when no position matches |
| PokemonApi.PokemonUrlMatch | src/api/pokemon.ts:116 | the capture of the leftmost match, a non-empty digit string that occurs as `/pokemon/<digits>/`; none exactly when the pattern matches nowhere |
| PokemonApi.MatchesOccur | src/api/pokemon.ts:116 | wherever the pattern matches, the text `/pokemon/<digits>/` is there |
| PokemonApi.ExtractFromResourceUrl | src/api/pokemon.ts:115-118 | `extractPokemonId` of the API's resource URL for id n is n |
| PokemonApi.MatchAtSegment | src/api/pokemon.ts:116 | a URL with `/pokemon/<n>/` at a position matches there with the digits of n |
| PokemonApi.NoMatchInBase | src/api/pokemon.ts:116 | no match starts inside the API's base URL |
| PokemonApi.FirstMatchSkips | src/api/pokemon.ts:116 | positions with no match are skipped by the leftmost search |
| PokemonApi.ExtractPokemonId | src/api/pokemon.ts:115-118 | the digits of the leftmost `/pokemon/<digits>/` parsed as a number, and 0 when the pattern matches nowhere |
| PokemonApi.GetPokemonImageUrl | src/api/pokemon.ts:123-128 | the official-artwork path for `artwork`, the default-sprite path (not the artwork one) otherwise, both ending in `<id>.png`, with exactly the prefix, the decimal id and `.png` in between |
| PokemonApi.IsValidPokemonId | src/api/pokemon.ts:133-135 | true exactly when 0 < id ≤ 1010 |
| PokemonApi.ListRequest | src/api/pokemon.ts:17-20 | the request uses offset 0 and limit 20 for parameters left out, the given values otherwise |
| PokemonApi.GetPokemonList | src/api/pokemon.ts:17-28 | one request with offset and limit defaulted to 0 and 20; called with no parameters it requests the first 20 |
| PokemonApi.FilterByName | src/api/pokemon.ts:86-88 | an entry is kept exactly when its lower-cased name contains the lower-cased query; nothing is added |
| PokemonApi.FilterByNameAppend | src/api/pokemon.ts:86-88 | the filter works entry by entry, so it keeps the source order |
| PokemonApi.SliceEnd | src/api/pokemon.ts:94 | the end of `slice(0, limit)`: never past the length, counted from the back for a negative limit |
| PokemonApi.SearchPokemon | src/api/pokemon.ts:58-98 | a blank query is the plain list with the limit (default 20); an exact hit is one result, count 1, null continuations, URL `.../pokemon/<id>/`; otherwise the first 1000 entries filtered in order and cut to the limit, with `count` the uncut size; a failure of that list fetch is the error |
| PokemonApi.ExactHitRoundTrip | src/api/pokemon.ts:79 | the exact hit's URL gives back the hit's id |
| PokemonApi.SearchPikaExample | src/api/pokemon.ts:83-95 | with no exact hit, "pika" over [pikachu, raichu] gives [pikachu] with count 1 |
| PokemonApi.PikaFilter | src/api/pokemon.ts:86-88 | "pika" keeps pikachu and drops raichu |
| Text.TrimEmptyIff | src/api/pokemon.ts:64 | the query is blank exactly when all its characters are whitespace |
| Text.ContainsIff | src/api/pokemon.ts:87 | `includes` holds exactly when the text occurs at some position |
| QueryClient.RetryBudgets | src/api/queryClient.ts:15-44 | for a retryable error a query retries at failure counts 0, 1 and 2 and a mutation at 0 and 1 |
| QueryClient.RetryStopsForGood | src/api/queryClient.ts:15-44 | a non-retryable error is never retried; once refused, a retry stays refused; a mutation retry implies a query retry |
| QueryClient.QueryRetry | src/api/queryClient.ts:15-25 | a non-retryable error is never retried and no retry happens at 3 or more failures; the converse is in `RetryBudgets` |
| QueryClient.MutationRetry | src/api/queryClient.ts:41-44 | a non-retryable error is never retried and no retry happens at 2 or more failures; the converse is in `RetryBudgets` |
| QueryClient.QueryRetryDelay | src/api/queryClient.ts:28 | every query delay lies between 1000 and 30000 ms |
| QueryClient.MutationRetryDelay | src/api/queryClient.ts:47 | every mutation delay lies between 1000 and 10000 ms |
| QueryClient.CappedBackoffMonotone | src/api/queryClient.ts:28-47 | the delay never shrinks from one attempt to the next and never exceeds its cap |
| QueryClient.CappedBackoffDoubles | src/api/queryClient.ts:28-47 | below the cap each delay is twice the one before |
| QueryClient.QueryRetryDelayShape | src/api/queryClient.ts:28 | query delays are `1000·2^i` below 30000 and are exactly 30000 from index 5 on |
| QueryClient.MutationRetryDelayShape | src/api/queryClient.ts:47 | mutation delays are `1000·2^i` below 10000 and are exactly 10000 from index 4 on |
| QueryClient.InvalidateAllPokemonCoversAll | src/api/queryClient.ts:79-83 | every Pokémon key has ['pokemon'] as a prefix, and no species key does |
| QueryClient.SpeciesKeysApart | src/api/queryClient.ts:56-73 | species keys start with 'species' and never share a prefix with Pokémon keys in either direction |
| QueryClient.InvalidateListsExactly | src/api/queryClient.ts:86-90 | the lists key is a prefix of exactly the list keys |
| QueryClient.InvalidateDetailExactly | src/api/queryClient.ts:93-97 | a detail key covers that id's detail key and nothing else |
| QueryClient.InvalidateSearchesExactly | src/api/queryClient.ts:100-103 | ['pokemon','search'] is a prefix of exactly the search keys |
| QueryClient.KeyHierarchy | src/api/queryClient.ts:57-72 | `list(p)` lies under `lists()`, `detail(id)` under `details()`, `search(q)` under ['pokemon','search'], a species detail under ['species'] |
| QueryClient.PokemonAll | src/api/queryClient.ts:56 | the root key is the single element "pokemon" |
| QueryClient.PokemonLists | src/api/queryClient.ts:57 | the lists key extends the root with "list" |
| QueryClient.PokemonList | src/api/queryClient.ts:58-59 | a list key extends the lists key with its parameters object |
| QueryClient.PokemonDetails | src/api/queryClient.ts:60 | the details key extends the root with "detail" |
| QueryClient.PokemonDetailKey | src/api/queryClient.ts:61-62 | a detail key extends the details key with its id |
| QueryClient.PokemonSearch | src/api/queryClient.ts:63-64 | a search key extends the searches key with its query |
| QueryClient.PokemonFavorites | src/api/queryClient.ts:65 | the favourites key extends the root with "favorites" |
| QueryClient.PokemonSearches | src/api/queryClient.ts:100-103 | the search invalidation key extends the root with "search" |
| QueryClient.SpeciesAll | src/api/queryClient.ts:70 | the species root is the single element "species" and does not lie under the Pokémon root |
| QueryClient.SpeciesDetail | src/api/queryClient.ts:71-72 | a species key extends the species root with its id |
| UsePokemons.ListQueryKey | src/hooks/usePokemons.ts:59 | the list's key is `list({limit})` and lies under `lists()` |
| UsePokemons.FetchPage | src/hooks/usePokemons.ts:61-69 | one page is the list fetched at (pageParam, limit), converted; a fetch error is passed on; no Pokémon is flagged favourite |
| UsePokemons.NextPageParam | src/hooks/usePokemons.ts:73-75 | a next parameter only when the page has a next page, and then it is the page's `nextOffset` |
| UsePokemons.PreviousPageParam | src/hooks/usePokemons.ts:77-79 | a previous parameter only when the page has a previous page, and then it is the page's `previousOffset` |
| UsePokemons.NextRequest | src/hooks/usePokemons.ts:61-75 | the first page is fetched at offset 0 (`initialPageParam`); afterwards the next offset is the last page's `nextOffset`, present exactly when that page has a next page and an offset |
| UsePokemons.NextRequestAfterPage | src/hooks/usePokemons.ts:71-75 | after a converted page is loaded, a next request exists exactly when the API's `next` URL is non-empty, at that URL's offset |
| UsePokemons.ConvertPages | src/hooks/usePokemons.ts:61-68 | each loaded page is the conversion, without favourites, of its response, in order |
| UsePokemons.RequestedOffsets | src/hooks/usePokemons.ts:61-75 | along a run of loaded pages, the first request is at offset 0 and each later one is at the offset of the previous response's non-empty `next` URL, with none when it is empty |
| UsePokemons.PageParamsFollowResponse | src/hooks/usePokemons.ts:73-79 | on a converted page there is a next (previous) parameter exactly when the API's `next` (`previous`) is non-empty, and it is that URL's offset |
| UsePokemons.ReduceIsConcat | src/hooks/usePokemons.ts:103-105 | the reduction appends the pages' items to its accumulator in page order |
| UsePokemons.ConcatLength | src/hooks/usePokemons.ts:103-105 | the flattened length is the sum of the page lengths |
| UsePokemons.ConcatAppendPage | src/hooks/usePokemons.ts:103-105 | loading one more page appends exactly its items |
| UsePokemons.ConcatMembers | src/hooks/usePokemons.ts:103-105 | a Pokémon is in the flattened list exactly when it is on some page |
| UsePokemons.FlattenPages | src/hooks/usePokemons.ts:100-106 | no pages give the empty list; otherwise the pages' items in page order, as many as all pages hold |
| UsePokemons.ShouldFetchNextPage | src/hooks/usePokemons.ts:114-118 | a next page is requested only when there is one, and never while one is being fetched |
| UsePokemons.ListRetry | src/hooks/usePokemons.ts:88-91 | a non-retryable error is never retried and no retry happens at 3 or more failures |
| UsePokemons.ListRetryIsQueryDefault | src/hooks/usePokemons.ts:88-91 | the list's retry predicate decides as the client-wide query predicate does |
| UsePokemons.UsePokemonsView | src/hooks/usePokemons.ts:99-140 | `pokemon` is the flattened pages (empty without data); `error` is the reported error or null; `hasNextPage` is false unless reported true; the next-page action is allowed only then and when no page is being fetched |
| UsePokemonSearch.SearchEnabled | src/hooks/usePokemonSearch.ts:31-52 | the query runs exactly when the caller enables it and the trimmed query is at least two UTF-16 code units long |
| UsePokemonSearch.ShouldSearch | src/hooks/usePokemonSearch.ts:31 | a search needs a non-blank query, and any trimmed query of two characters or more qualifies |
| UsePokemonSearch.ShouldSearchByLength | src/hooks/usePokemonSearch.ts:31 | two characters always suffice; a single character suffices exactly when it lies outside the Basic Multilingual Plane, where `length` counts two code units |
| Text.Utf16Length | src/hooks/usePokemonSearch.ts:31 | `length` counts UTF-16 code units: at least one and at most two per character |
| UsePokemonSearch.SearchQueryKey | src/hooks/usePokemonSearch.ts:40 | the cache key is `search(query.trim())`, under ['pokemon','search'] |
| UsePokemonSearch.SearchKeyIgnoresPadding | src/hooks/usePokemonSearch.ts:40 | queries that differ only in surrounding whitespace share one cache entry |
| UsePokemonSearch.SearchQueryFn | src/hooks/usePokemonSearch.ts:42-50 | the search runs on the trimmed query with the limit (default 20); its error is passed on and its response converted |
| UsePokemonSearch.EnabledSearchExactHit | src/hooks/usePokemonSearch.ts:31-52 | when the search may run, an exact hit gives one non-favourite Pokémon with the hit's id and name and no further pages; the blank-query branch is never taken |
| UsePokemonSearch.EnabledSearchFallback | src/hooks/usePokemonSearch.ts:31-52 | when the search may run and the exact lookup fails, every result matches the trimmed query, the total is the match count and there are no further pages |
| UsePokemonSearch.UsePokemonSearchView | src/hooks/usePokemonSearch.ts:68-87 | `hasSearched` is `shouldSearch` on the UTF-16 length; `results` is the data's list or empty; when not searching, `isLoading` is false and `error` null; otherwise they pass the reported state, the error as its message |
| PokemonCard.FormatPokemonId | src/components/pokemon/PokemonCard.tsx:38-40 | '#' followed by the decimal id left-padded with '0' to 3 characters |
| PokemonCard.FormatPokemonIdRoundTrip | src/components/pokemon/PokemonCard.tsx:38-40 | the digits after '#' read back as the id, leading zeros and all |
| PokemonCard.FormatPokemonIdInjective | src/components/pokemon/PokemonCard.tsx:38-40 | different ids show different numbers |
| PokemonCard.FormatPokemonIdNeverTruncates | src/components/pokemon/PokemonCard.tsx:39 | an id of three or more characters appears unchanged after '#'; a shorter one is padded to exactly 3 |
| PokemonCard.FormatPokemonIdExamples | src/components/pokemon/PokemonCard.tsx:38-40 | 7 shows as "#007" and 25 as "#025" |
| PokemonCard.CardName | src/components/pokemon/PokemonCard.tsx:42-44 | the card's name formatting equals the transformer's `formatPokemonName` |
| PokemonCard.TypeChips | src/components/pokemon/PokemonCard.tsx:91-102 | at most two chips: the first two types in order, each labelled with its capitalised name on its colour |
| Text.PadStart | src/components/pokemon/PokemonCard.tsx:39 | `padStart`: unchanged when long enough, otherwise fill characters before the text up to the width |
| Text.ParseNatToString | src/api/pokemon.ts:117 | parsing a printed natural number gives it back |
| Text.JoinSplit | src/types/transformers.ts:110-113 | joining the pieces of a split with the same separator restores the text |
| Text.SplitCount | src/types/transformers.ts:111 | a split yields one piece more than there are separators |

## Left out

- Network I/O is not modelled. This covers the axios instance, its timeout
  and both interceptors (src/api/apiClient.ts:8-14, 93-131). Each request is
  an oracle whose outcome already includes its own retries.
- `getPokemonDetail`, `getPokemonSpecies` and `getPokemonByIds` are left out.
  They are single HTTP calls, and the last one is a `Promise.all` over them.
  The detail lookup appears only as the `fetchDetail` oracle of the search.
- The outer `withRetry` around the search body is left out
  (src/api/pokemon.ts:68). The oracles are deterministic, so a repeat would
  give the same outcome.
- The sleep in `withRetry` is not performed. The model records the computed
  waits instead.
- The caching library's scheduling is left out: stale and garbage-collection
  times, refetching, `refetch`/`refresh`, and the loading flags it reports.
  The model takes the library's reported state as an input.
- Invalidation is modelled as key prefix with element equality. The library
  also matches object elements partially, but no invalidation filter here
  holds an object.
- Reading an offset from a continuation URL (`new URL(...).searchParams`) is
  the abstract function `offsetOf`. The `currentOffset` in the list
  conversion is computed and never used, so it is not modelled.
- The search's `meta.errorMessage` and all `__DEV__` logging are left out.
- `clearSearch` is left out because its body is empty.
- The search's `retry: false` has no counterpart: each search is one call of
  the oracles, and the caching library's retries are not modelled.
- Upper- and lower-casing are ASCII only. Unicode case mappings that change a
  string's length are not modelled.
- Table lookups do not model keys inherited from the object prototype (such
  as "constructor").
- `parseInt` is exact: precision loss beyond 2^53 is not modelled.
- Stored JSON numbers are integers. Fractional numbers, which pass the
  `typeof === 'number'` test, are not modelled.
- `JSON.stringify` and `JSON.parse` are modelled by the `Blob` and `Json`
  datatypes rather than by text.
- The store's actions are not interleaved. Concurrent asynchronous actions
  and Zustand's subscriptions are not modelled.
- Transformers.FormatPokemonHeight: heights are natural numbers, and the
  formatting is exact decimal arithmetic. `toFixed(1)` on negative or
  fractional input is not modelled, nor is the precision loss of
  `(n / 10).toFixed(1)` above 2^53 or its exponent notation from 1e21 on.
- Transformers.FormatPokemonWeight: weights are natural numbers, for the same
  reasons.
- Rendering, styles, navigation and the other screens and components are not
  modelled.
