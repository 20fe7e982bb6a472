/**
 * The data-access functions of src/api/pokemon.ts. The HTTP requests are
 * oracles: `fetchList(offset, limit)` is the outcome of `getPokemonList` for
 * those parameters and `fetchDetail(idOrName)` the outcome of
 * `getPokemonDetail`, each including its own retries. What is modelled is the
 * policy around them and the pure helpers.
 */
module PokemonApi {
  import opened Wrappers
  import opened Text
  import opened ApiTypes
  import opened ApiClient

  const DEFAULT_LIMIT: int := 20
  const MAX_POKEMON_ID: int := 1010
  /** How many entries the search fallback fetches to filter. */
  const SEARCH_FETCH_LIMIT: int := 1000

  const SPRITES_BASE: string := "https://raw.githubusercontent.com/PokeAPI/sprites/master/sprites/pokemon/"
  const ARTWORK_BASE: string := SPRITES_BASE + "other/official-artwork/"

  /* ------------------------------------- the resource-URL regular expression */

  /** The literal part `/pokemon/` of the pattern `/\/pokemon\/(\d+)\//`. */
  const POKEMON_SEGMENT: string := "/pokemon/"

  /** The longest run of decimal digits at the front of `s` (what a greedy `\d+` takes). */
  function DigitRun(s: string): (r: string)
    ensures |r| <= |s| && r == s[..|r|] && AllDigits(r)
    ensures |r| < |s| ==> !IsDigit(s[|r|])
  {
    if s != [] && IsDigit(s[0]) then [s[0]] + DigitRun(s[1..]) else []
  }

  /**
   * The capture group when the pattern matches at position `i`: `/pokemon/`,
   * one or more digits, then `/`. Because the greedy run stops at the first
   * non-digit, backtracking to a shorter run can never find the closing `/`.
   */
  function MatchAt(url: string, i: nat): Option<string>
    requires i <= |url|
  {
    if !StartsWith(url[i..], POKEMON_SEGMENT) then None
    else
      var rest := url[i + |POKEMON_SEGMENT|..];
      var digits := DigitRun(rest);
      if digits != [] && |digits| < |rest| && rest[|digits|] == '/' then Some(digits) else None
  }

  /** The leftmost position at or after `i` where the pattern matches; `|url| + 1` when there is none. */
  function FirstMatchIndex(url: string, i: nat): (k: nat)
    requires i <= |url|
    ensures i <= k <= |url| + 1
    ensures k <= |url| ==> MatchAt(url, k).Some?
    ensures forall j :: i <= j < k && j <= |url| ==> MatchAt(url, j).None?
    decreases |url| - i
  {
    if MatchAt(url, i).Some? then i
    else if i == |url| then |url| + 1
    else FirstMatchIndex(url, i + 1)
  }

  /** The leftmost match at or after position `i`. */
  function FirstMatchFrom(url: string, i: nat): (r: Option<string>)
    requires i <= |url|
    ensures r.Some? ==> exists k :: i <= k <= |url| && MatchAt(url, k) == r
                                    && forall j :: i <= j < k ==> MatchAt(url, j).None?
    ensures r.None? ==> forall k :: i <= k <= |url| ==> MatchAt(url, k).None?
  {
    var k := FirstMatchIndex(url, i);
    if k <= |url| then MatchAt(url, k) else None
  }

  /** `url.match(/\/pokemon\/(\d+)\//)?.[1]`: the digits of the leftmost match, if any. */
  function PokemonUrlMatch(url: string): (r: Option<string>)
    ensures r.Some? ==> r.value != [] && AllDigits(r.value)
                        && exists k :: OccursAt(url, POKEMON_SEGMENT + r.value + "/", k)
    ensures r.Some? ==> exists k :: 0 <= k <= |url| && MatchAt(url, k) == r
                                    && forall j :: 0 <= j < k ==> MatchAt(url, j).None?
    ensures r.None? <==> forall k :: 0 <= k <= |url| ==> MatchAt(url, k).None?
  {
    MatchesOccur(url);
    FirstMatchFrom(url, 0)
  }

  /** Wherever the pattern matches, the text `/pokemon/<digits>/` is there. */
  lemma MatchesOccur(url: string)
    ensures forall k :: 0 <= k <= |url| && MatchAt(url, k).Some? ==>
              OccursAt(url, POKEMON_SEGMENT + MatchAt(url, k).value + "/", k)
  {
    forall k | 0 <= k <= |url| && MatchAt(url, k).Some?
      ensures OccursAt(url, POKEMON_SEGMENT + MatchAt(url, k).value + "/", k)
    {
      var d := MatchAt(url, k).value;
      var rest := url[k + |POKEMON_SEGMENT|..];
      var n := |POKEMON_SEGMENT|;
      assert url[k..][..n] == POKEMON_SEGMENT;
      assert rest[..|d| + 1] == d + "/";
      var w := url[k..k + n + |d| + 1];
      assert w[..n] == url[k..][..n];
      assert w[n..] == rest[..|d| + 1];
      assert w == w[..n] + w[n..];
      assert POKEMON_SEGMENT + d + "/" == POKEMON_SEGMENT + (d + "/");
    }
  }

  /** `extractPokemonId`: the number in the first `/pokemon/<digits>/` segment, else 0. */
  function ExtractPokemonId(url: string): (r: nat)
    ensures PokemonUrlMatch(url).None? ==> r == 0
    ensures PokemonUrlMatch(url).Some? ==> r == ParseDigits(PokemonUrlMatch(url).value)
  {
    match PokemonUrlMatch(url)
    case Some(digits) => ParseDigits(digits)
    case None => 0
  }

  /** The resource URL the API gives for the Pokémon with number `id`. */
  function PokemonResourceUrl(id: int): string {
    API_BASE_URL + POKEMON_SEGMENT + IntToString(id) + "/"
  }

  /** A URL that starts with `/pokemon/<n>/` yields `n`. */
  lemma {:induction false} MatchAtSegment(url: string, i: nat, n: nat)
    requires i + |POKEMON_SEGMENT + NatToString(n) + "/"| <= |url|
    requires url[i..i + |POKEMON_SEGMENT + NatToString(n) + "/"|] == POKEMON_SEGMENT + NatToString(n) + "/"
    ensures MatchAt(url, i) == Some(NatToString(n))
  {
    var d := NatToString(n);
    var rest := url[i + |POKEMON_SEGMENT|..];
    assert StartsWith(url[i..], POKEMON_SEGMENT) by {
      assert url[i..][..|POKEMON_SEGMENT|] == url[i..i + |POKEMON_SEGMENT + d + "/"|][..|POKEMON_SEGMENT|];
    }
    var whole := POKEMON_SEGMENT + d + "/";
    assert rest[..|d| + 1] == url[i..i + |whole|][|POKEMON_SEGMENT|..] == whole[|POKEMON_SEGMENT|..] == d + "/";
    assert rest[..|d|] == rest[..|d| + 1][..|d|] == (d + "/")[..|d|] == d;
    assert rest[|d|] == rest[..|d| + 1][|d|] == '/';
    DigitRunOfDigits(rest, d);
  }

  lemma {:induction false} DigitRunOfDigits(s: string, d: string)
    requires AllDigits(d) && |d| < |s| && s[..|d|] == d && !IsDigit(s[|d|])
    ensures DigitRun(s) == d
  {
    if d != [] {
      assert s[1..][..|d| - 1] == d[1..];
      DigitRunOfDigits(s[1..], d[1..]);
    }
  }

  /** No match starts inside the API's base URL. */
  lemma NoMatchInBase(url: string, i: nat)
    requires |API_BASE_URL| <= |url| && url[..|API_BASE_URL|] == API_BASE_URL
    requires i < |API_BASE_URL|
    ensures MatchAt(url, i).None?
  {
    var b := API_BASE_URL;
    assert b == "https://pokeapi.co/api/v2";
    if i + |POKEMON_SEGMENT| <= |url| {
      var w := url[i..i + |POKEMON_SEGMENT|];
      assert url[i..][..|POKEMON_SEGMENT|] == w;
      forall k | 0 <= k < |POKEMON_SEGMENT| && i + k < |b|
        ensures w[k] == b[i + k]
      {
        assert w[k] == url[i + k];
        assert url[..|b|][i + k] == url[i + k];
      }
      if i == 7 {
        assert w[5] == b[12];
      } else {
        assert w[0] == b[i];
        if b[i] == '/' {
          assert i == 6 || i == 18 || i == 22;
          assert w[1] == b[i + 1];
        }
      }
      assert w != POKEMON_SEGMENT;
    }
  }

  /** Extracting the id from the API's own resource URL gives the id back. */
  lemma ExtractFromResourceUrl(id: nat)
    ensures ExtractPokemonId(PokemonResourceUrl(id)) == id
  {
    var url := PokemonResourceUrl(id);
    var b := |API_BASE_URL|;
    assert url[..b] == API_BASE_URL;
    forall i | 0 <= i < b ensures MatchAt(url, i).None? {
      NoMatchInBase(url, i);
    }
    assert url[b..b + |POKEMON_SEGMENT + NatToString(id) + "/"|] == POKEMON_SEGMENT + NatToString(id) + "/";
    MatchAtSegment(url, b, id);
    FirstMatchSkips(url, 0, b);
    ParseNatToString(id);
  }

  /** Positions with no match are skipped by the leftmost search. */
  lemma {:induction false} FirstMatchSkips(url: string, i: nat, j: nat)
    requires i <= j <= |url|
    requires forall k :: i <= k < j ==> MatchAt(url, k).None?
    ensures FirstMatchFrom(url, i) == FirstMatchFrom(url, j)
    decreases j - i
  {
    if i < j {
      FirstMatchSkips(url, i + 1, j);
      assert FirstMatchIndex(url, i) == FirstMatchIndex(url, i + 1);
    }
  }

  /* ---------------------------------------------------- other pure helpers */

  datatype ImageVariant = DefaultSprite | Artwork

  /** `getPokemonImageUrl`: the official-artwork file for `Artwork`, the default sprite otherwise. */
  function GetPokemonImageUrl(id: int, variant: ImageVariant): (r: string)
    ensures variant == Artwork ==> StartsWith(r, ARTWORK_BASE)
    ensures variant == DefaultSprite ==> StartsWith(r, SPRITES_BASE) && !StartsWith(r, ARTWORK_BASE)
    ensures EndsWith(r, IntToString(id) + ".png")
    ensures |r| == |(if variant == Artwork then ARTWORK_BASE else SPRITES_BASE)| + |IntToString(id)| + 4
  {
    var file := IntToString(id) + ".png";
    if variant == Artwork then
      assert (ARTWORK_BASE + file)[..|ARTWORK_BASE|] == ARTWORK_BASE;
      ARTWORK_BASE + file
    else
      var r := SPRITES_BASE + file;
      assert r[..|SPRITES_BASE|] == SPRITES_BASE;
      assert r[|SPRITES_BASE|] == file[0] != ARTWORK_BASE[|SPRITES_BASE|];
      r
  }

  /** `isValidPokemonId` */
  function IsValidPokemonId(id: int): (r: bool)
    ensures r <==> 1 <= id <= MAX_POKEMON_ID
  {
    id > 0 && id <= MAX_POKEMON_ID
  }

  /** `GetPokemonListParams`, whose two fields may be left out. */
  datatype ListParams = ListParams(offset: Option<int>, limit: Option<int>)

  /** The `(offset, limit)` that `getPokemonList` requests: 0 and 20 when left out. */
  function ListRequest(params: ListParams): (r: (int, int))
    ensures params.offset.None? ==> r.0 == 0
    ensures params.limit.None? ==> r.1 == DEFAULT_LIMIT
    ensures params.offset.Some? ==> r.0 == params.offset.value
    ensures params.limit.Some? ==> r.1 == params.limit.value
  {
    (params.offset.GetOr(0), params.limit.GetOr(DEFAULT_LIMIT))
  }

  /** `getPokemonList`: one request with the defaulted parameters. */
  function GetPokemonList(params: ListParams, fetchList: (int, int) -> Result<ListResponse, ApiError>)
    : (r: Result<ListResponse, ApiError>)
    ensures r == fetchList(params.offset.GetOr(0), params.limit.GetOr(DEFAULT_LIMIT))
    ensures params == ListParams(None, None) ==> r == fetchList(0, DEFAULT_LIMIT)
  {
    var (offset, limit) := ListRequest(params);
    fetchList(offset, limit)
  }

  /* ---------------------------------------------------------------- search */

  /** `pokemon.name.toLowerCase().includes(query.toLowerCase())` */
  predicate NameMatches(name: string, query: string) {
    Contains(LowerStr(name), LowerStr(query))
  }

  /** `results.filter(...)` with that test, order kept. */
  function FilterByName(items: seq<ListItem>, query: string): (r: seq<ListItem>)
    ensures |r| <= |items|
    ensures forall x :: x in r <==> x in items && NameMatches(x.name, query)
  {
    if items == [] then []
    else if NameMatches(items[0].name, query) then [items[0]] + FilterByName(items[1..], query)
    else FilterByName(items[1..], query)
  }

  /** Filtering keeps the order: the filter of a concatenation is the concatenation of the filters. */
  lemma {:induction false} FilterByNameAppend(a: seq<ListItem>, b: seq<ListItem>, query: string)
    ensures FilterByName(a + b, query) == FilterByName(a, query) + FilterByName(b, query)
  {
    if a == [] {
      assert a + b == b;
    } else {
      assert (a + b)[1..] == a[1..] + b;
      FilterByNameAppend(a[1..], b, query);
    }
  }

  /** The end index of `s.slice(0, end)`: a negative end counts from the back, and it never passes the length. */
  function SliceEnd(len: nat, end: int): (r: nat)
    ensures r <= len
    ensures 0 <= end ==> r == if end < len then end else len
    ensures end < 0 ==> r == if len + end > 0 then len + end else 0
  {
    if end < 0 then (if len + end > 0 then len + end else 0)
    else if end < len then end else len
  }

  /** The response for an exact-name hit: one entry with the canonical resource URL. */
  function ExactMatchResponse(hit: DetailResponse): ListResponse {
    ListResponse(1, None, None, [ListItem(hit.name, PokemonResourceUrl(hit.id))])
  }

  /**
   * `searchPokemon({query, limit})`. A blank query is the plain list. Otherwise
   * an exact lookup of the lower-cased query; on any failure of it, the first
   * 1000 entries filtered by name, truncated to `limit`, counted before the cut.
   */
  function SearchPokemon(
    query: string,
    limit: Option<int>,
    fetchList: (int, int) -> Result<ListResponse, ApiError>,
    fetchDetail: string -> Result<DetailResponse, ApiError>)
    : (r: Result<ListResponse, ApiError>)
    ensures Trim(query) == [] ==> r == fetchList(0, limit.GetOr(DEFAULT_LIMIT))
    ensures Trim(query) != [] && fetchDetail(LowerStr(query)).Ok? ==>
              var hit := fetchDetail(LowerStr(query)).value;
              && r.Ok? && r.value.count == 1 && r.value.next.None? && r.value.previous.None?
              && r.value.results == [ListItem(hit.name, PokemonResourceUrl(hit.id))]
    ensures Trim(query) != [] && fetchDetail(LowerStr(query)).Err? && fetchList(0, SEARCH_FETCH_LIMIT).Err? ==>
              r == Err(fetchList(0, SEARCH_FETCH_LIMIT).error)
    ensures Trim(query) != [] && fetchDetail(LowerStr(query)).Err? && fetchList(0, SEARCH_FETCH_LIMIT).Ok? ==>
              var all := fetchList(0, SEARCH_FETCH_LIMIT).value.results;
              var matching := FilterByName(all, query);
              && r.Ok? && r.value.next.None? && r.value.previous.None?
              && r.value.count == |matching|
              && r.value.results == matching[..SliceEnd(|matching|, limit.GetOr(DEFAULT_LIMIT))]
              && (forall x :: x in r.value.results ==> x in all && NameMatches(x.name, query))
  {
    var lim := limit.GetOr(DEFAULT_LIMIT);
    if Trim(query) == [] then
      GetPokemonList(ListParams(None, Some(lim)), fetchList)
    else
      match fetchDetail(LowerStr(query))
      case Ok(hit) => Ok(ExactMatchResponse(hit))
      case Err(_) =>
        match GetPokemonList(ListParams(None, Some(SEARCH_FETCH_LIMIT)), fetchList)
        case Err(e) => Err(e)
        case Ok(full) =>
          var matching := FilterByName(full.results, query);
          Ok(ListResponse(|matching|, None, None, matching[..SliceEnd(|matching|, lim)]))
  }

  /** The exact-hit entry points back at the Pokémon that was found. */
  lemma ExactHitRoundTrip(hit: DetailResponse)
    requires hit.id >= 0
    ensures ExtractPokemonId(ExactMatchResponse(hit).results[0].url) == hit.id
  {
    ExtractFromResourceUrl(hit.id);
  }

  /** The fallback over "pikachu" and "raichu" finds "pikachu" for "pika" and leaves out "raichu". */
  lemma SearchPikaExample(fetchList: (int, int) -> Result<ListResponse, ApiError>,
                          fetchDetail: string -> Result<DetailResponse, ApiError>,
                          pikachu: ListItem, raichu: ListItem)
    requires pikachu.name == "pikachu" && raichu.name == "raichu"
    requires fetchDetail("pika").Err?
    requires fetchList(0, SEARCH_FETCH_LIMIT) == Ok(ListResponse(2, None, None, [pikachu, raichu]))
    ensures SearchPokemon("pika", None, fetchList, fetchDetail) == Ok(ListResponse(1, None, None, [pikachu]))
  {
    PikaFilter(pikachu, raichu);
    LowerStrOfLower("pika");
    TrimUntouched("pika");
    var r := SearchPokemon("pika", None, fetchList, fetchDetail);
    assert r.Ok?;
    assert r.value.count == 1;
    assert r.value.results == [pikachu][..SliceEnd(1, DEFAULT_LIMIT)];
  }

  lemma PikaFilter(pikachu: ListItem, raichu: ListItem)
    requires pikachu.name == "pikachu" && raichu.name == "raichu"
    ensures FilterByName([pikachu, raichu], "pika") == [pikachu]
  {
    LowerStrOfLower("pika");
    LowerStrOfLower("pikachu");
    LowerStrOfLower("raichu");
    assert NameMatches("pikachu", "pika") by {
      assert StartsWith("pikachu", "pika");
    }
    assert !NameMatches("raichu", "pika") by {
      NotContainsFirstChar("raichu", "pika");
    }
    assert [pikachu, raichu][1..] == [raichu];
  }
}
