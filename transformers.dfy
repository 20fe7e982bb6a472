/**
 * The pure conversions of src/types/transformers.ts from API records to the
 * application's records, and the height, weight and name formatters.
 */
module Transformers {
  import opened Wrappers
  import opened Text
  import opened ApiTypes
  import opened PokemonTypes
  import PokemonApi

  /* ------------------------------------------------------------ list items */

  /** `parseInt(item.url.match(/\/pokemon\/(\d+)\//)?.[1] || '0', 10)`, written out inline in the transformer. */
  function ListItemId(url: string): nat {
    var group := PokemonApi.PokemonUrlMatch(url);
    ParseDigits(if group.Some? && group.value != "" then group.value else "0")
  }

  /** The inline id computation agrees with `extractPokemonId`. */
  lemma ListItemIdAgrees(url: string)
    ensures ListItemId(url) == PokemonApi.ExtractPokemonId(url)
  {
    assert ParseDigits("0") == 0 by {
      assert "0"[..0] == [];
    }
  }

  /** The sprite URL a list item gets: the default sprite of its id. */
  function ListItemImageUrl(id: int): string {
    PokemonApi.SPRITES_BASE + IntToString(id) + ".png"
  }

  /** The list item's sprite is what `getPokemonImageUrl` gives for the default variant. */
  lemma ListItemImageIsDefaultSprite(id: int)
    ensures ListItemImageUrl(id) == PokemonApi.GetPokemonImageUrl(id, PokemonApi.DefaultSprite)
  {}

  /** `transformPokemonListItem(item, favoriteIds)` */
  function TransformPokemonListItem(item: ListItem, favoriteIds: set<int>): (r: Pokemon)
    ensures r.id == PokemonApi.ExtractPokemonId(item.url)
    ensures r.name == item.name
    ensures EndsWith(r.imageUrl, IntToString(r.id) + ".png")
    ensures r.imageUrl == PokemonApi.GetPokemonImageUrl(r.id, PokemonApi.DefaultSprite)
    ensures r.types == []
    ensures r.isFavorite <==> r.id in favoriteIds
  {
    var id := ListItemId(item.url);
    ListItemIdAgrees(item.url);
    ListItemImageIsDefaultSprite(id);
    Pokemon(id, item.name, ListItemImageUrl(id), [], id in favoriteIds)
  }

  /** An item whose URL is the API's resource URL for `id` gets that id back. */
  lemma ListItemIdFromResourceUrl(name: string, id: nat, favoriteIds: set<int>)
    ensures TransformPokemonListItem(ListItem(name, PokemonApi.PokemonResourceUrl(id)), favoriteIds).id == id
  {
    PokemonApi.ExtractFromResourceUrl(id);
  }

  /** `results.map(item => transformPokemonListItem(item, favoriteIds))` */
  function TransformItems(items: seq<ListItem>, favoriteIds: set<int>): (r: seq<Pokemon>)
    ensures |r| == |items|
    ensures forall i :: 0 <= i < |items| ==> r[i] == TransformPokemonListItem(items[i], favoriteIds)
  {
    if items == [] then [] else [TransformPokemonListItem(items[0], favoriteIds)] + TransformItems(items[1..], favoriteIds)
  }

  /** JavaScript truthiness of a `string | null`: present and not empty. */
  predicate Truthy(s: Option<string>) {
    s.Some? && s.value != ""
  }

  /**
   * `transformPokemonListResponse`. `offsetOf(url)` stands for
   * `parseInt(new URL(url).searchParams.get('offset') || '0')`. The page
   * flags test `!== null` while the offsets test truthiness, so an empty
   * continuation URL gives a page flag without an offset.
   */
  function TransformPokemonListResponse(api: ListResponse, favoriteIds: set<int>, offsetOf: string -> int)
    : (r: PokemonListPage)
    ensures |r.pokemon| == |api.results|
    ensures forall i :: 0 <= i < |api.results| ==> r.pokemon[i] == TransformPokemonListItem(api.results[i], favoriteIds)
    ensures r.totalCount == api.count
    ensures r.hasNextPage <==> api.next.Some?
    ensures r.hasPreviousPage <==> api.previous.Some?
    ensures r.nextOffset.Some? <==> Truthy(api.next)
    ensures r.nextOffset.Some? ==> r.nextOffset.value == offsetOf(api.next.value)
    ensures r.previousOffset.Some? <==> Truthy(api.previous)
    ensures r.previousOffset.Some? ==> r.previousOffset.value == offsetOf(api.previous.value)
  {
    PokemonListPage(
      TransformItems(api.results, favoriteIds),
      api.count,
      api.next.Some?,
      api.previous.Some?,
      if Truthy(api.next) then Some(offsetOf(api.next.value)) else None,
      if Truthy(api.previous) then Some(offsetOf(api.previous.value)) else None)
  }

  /* ----------------------------------------------------- detail conversions */

  /** `transformPokemonTypes` */
  function TransformPokemonTypes(slots: seq<TypeSlot>): (r: seq<PokemonType>)
    ensures |r| == |slots|
    ensures forall i :: 0 <= i < |slots| ==>
              r[i].name == slots[i].kind.name && r[i].color == GetPokemonTypeColor(slots[i].kind.name)
  {
    if slots == [] then []
    else [PokemonType(slots[0].kind.name, GetPokemonTypeColor(slots[0].kind.name))] + TransformPokemonTypes(slots[1..])
  }

  /** `transformPokemonStats`: every stat keeps its name and value and gets the table's maximum for its name. */
  function TransformPokemonStats(slots: seq<StatSlot>): (r: seq<PokemonStat>)
    ensures |r| == |slots|
    ensures forall i :: 0 <= i < |slots| ==>
              && r[i].name == slots[i].stat.name
              && r[i].displayName == GetStatDisplayName(slots[i].stat.name)
              && r[i].value == slots[i].baseStat
              && r[i].maxValue == GetStatMaxValue(slots[i].stat.name)
  {
    if slots == [] then []
    else
      var s := slots[0].stat.name;
      [PokemonStat(s, GetStatDisplayName(s), slots[0].baseStat, GetStatMaxValue(s))] + TransformPokemonStats(slots[1..])
  }

  /** `words.map(word => word.charAt(0).toUpperCase() + word.slice(1))` */
  function CapitalizeAll(words: seq<string>): (r: seq<string>)
    ensures |r| == |words|
    ensures forall i :: 0 <= i < |words| ==> r[i] == Capitalize(words[i])
  {
    if words == [] then [] else [Capitalize(words[0])] + CapitalizeAll(words[1..])
  }

  /** An ability's display name: split on '-', capitalise each word, join with ' '. */
  function AbilityDisplayName(name: string): string {
    Join(CapitalizeAll(Split(name, '-')), ' ')
  }

  /** `transformPokemonAbilities` */
  function TransformPokemonAbilities(slots: seq<AbilitySlot>): (r: seq<PokemonAbility>)
    ensures |r| == |slots|
    ensures forall i :: 0 <= i < |slots| ==>
              && r[i].name == slots[i].ability.name
              && r[i].displayName == AbilityDisplayName(slots[i].ability.name)
              && r[i].isHidden == slots[i].isHidden
  {
    if slots == [] then []
    else
      var a := slots[0].ability.name;
      [PokemonAbility(a, AbilityDisplayName(a), slots[0].isHidden)] + TransformPokemonAbilities(slots[1..])
  }

  /* The display name's shape */

  function SumLength(parts: seq<string>): nat {
    if parts == [] then 0 else |parts[0]| + SumLength(parts[1..])
  }

  lemma {:induction false} JoinLength(parts: seq<string>, sep: char)
    requires |parts| >= 1
    ensures |Join(parts, sep)| == SumLength(parts) + |parts| - 1
  {
    if |parts| > 1 {
      JoinLength(parts[1..], sep);
    }
  }

  lemma {:induction false} JoinAvoids(parts: seq<string>, sep: char, c: char)
    requires |parts| >= 1 && c != sep
    requires forall p :: p in parts ==> c !in p
    ensures c !in Join(parts, sep)
  {
    if |parts| > 1 {
      assert parts[0] in parts;
      forall p | p in parts[1..] ensures c !in p {
        assert p in parts;
      }
      JoinAvoids(parts[1..], sep, c);
    }
  }

  /** Capitalising keeps the count of any character that is not an ASCII letter. */
  lemma CapitalizeKeepsCount(s: string, c: char)
    requires !IsAsciiUpper(c) && !IsAsciiLower(c)
    ensures Count(Capitalize(s), c) == Count(s, c)
  {
    if s != [] {
      var t := Capitalize(s);
      assert t[0] == Upper(s[0]) && t[1..] == s[1..];
      assert (Upper(s[0]) == c) == (s[0] == c);
      assert Count(t, c) == (if t[0] == c then 1 else 0) + Count(t[1..], c);
    }
  }

  lemma {:induction false} CapitalizeAllSums(parts: seq<string>, c: char)
    requires !IsAsciiUpper(c) && !IsAsciiLower(c)
    ensures SumCount(CapitalizeAll(parts), c) == SumCount(parts, c)
    ensures SumLength(CapitalizeAll(parts)) == SumLength(parts)
  {
    if parts != [] {
      CapitalizeKeepsCount(parts[0], c);
      assert CapitalizeAll(parts)[1..] == CapitalizeAll(parts[1..]);
      CapitalizeAllSums(parts[1..], c);
    }
  }

  /**
   * The display name has no '-', is as long as the name, and has one space
   * for every space or hyphen of the name: each hyphen became a space.
   */
  lemma AbilityDisplayNameShape(name: string)
    ensures '-' !in AbilityDisplayName(name)
    ensures |AbilityDisplayName(name)| == |name|
    ensures Count(AbilityDisplayName(name), ' ') == Count(name, ' ') + Count(name, '-')
  {
    var parts := Split(name, '-');
    var caps := CapitalizeAll(parts);
    forall p | p in caps ensures '-' !in p {
      var i :| 0 <= i < |caps| && caps[i] == p;
      assert parts[i] in parts;
      assert '-' !in parts[i];
    }
    JoinAvoids(caps, ' ', '-');
    JoinSplit(name, '-');
    JoinLength(parts, '-');
    JoinLength(caps, ' ');
    CapitalizeAllSums(parts, ' ');
    CountJoin(caps, ' ', ' ');
    CountJoin(parts, '-', ' ');
    SplitCount(name, '-');
  }

  /** `value || null`: a missing or empty URL becomes null. */
  function OrNull(s: Option<string>): (r: Option<string>)
    ensures r.Some? <==> Truthy(s)
    ensures r.Some? ==> r == s
  {
    if Truthy(s) then s else None
  }

  /** `apiSprites.other?.['official-artwork']?.front_default || null` */
  function OfficialArtwork(raw: RawSprites): Option<string> {
    if raw.other.Some? && raw.other.value.officialArtwork.Some? then
      OrNull(raw.other.value.officialArtwork.value.frontDefault)
    else None
  }

  /** `apiSprites.other?.home?.front_default || null` */
  function HomeArtwork(raw: RawSprites): Option<string> {
    if raw.other.Some? && raw.other.value.home.Some? then OrNull(raw.other.value.home.value.frontDefault)
    else None
  }

  /** `transformPokemonSprites`: the four plain sprites as given; the two artworks null when missing or empty. */
  function TransformPokemonSprites(raw: RawSprites): (r: PokemonSprites)
    ensures r.frontDefault == raw.frontDefault && r.frontShiny == raw.frontShiny
    ensures r.backDefault == raw.backDefault && r.backShiny == raw.backShiny
    ensures r.officialArtwork.Some? ==> r.officialArtwork.value != ""
    ensures r.homeArtwork.Some? ==> r.homeArtwork.value != ""
    ensures r.officialArtwork.None? <==>
              raw.other.None? || raw.other.value.officialArtwork.None?
              || !Truthy(raw.other.value.officialArtwork.value.frontDefault)
    ensures r.officialArtwork.Some? ==> r.officialArtwork == raw.other.value.officialArtwork.value.frontDefault
    ensures r.homeArtwork.None? <==>
              raw.other.None? || raw.other.value.home.None?
              || !Truthy(raw.other.value.home.value.frontDefault)
    ensures r.homeArtwork.Some? ==> r.homeArtwork == raw.other.value.home.value.frontDefault
  {
    PokemonSprites(raw.frontDefault, raw.frontShiny, raw.backDefault, raw.backShiny,
                   OfficialArtwork(raw), HomeArtwork(raw))
  }

  /** `sprites.officialArtwork || sprites.frontDefault || ''` */
  function DetailImageUrl(sprites: PokemonSprites): (r: string)
    ensures Truthy(sprites.officialArtwork) ==> r == sprites.officialArtwork.value
    ensures !Truthy(sprites.officialArtwork) && Truthy(sprites.frontDefault) ==> r == sprites.frontDefault.value
    ensures r == "" <==> !Truthy(sprites.officialArtwork) && !Truthy(sprites.frontDefault)
  {
    if Truthy(sprites.officialArtwork) then sprites.officialArtwork.value
    else if Truthy(sprites.frontDefault) then sprites.frontDefault.value
    else ""
  }

  /** `transformPokemonDetail(apiResponse, isFavorite)` */
  function TransformPokemonDetail(api: DetailResponse, isFavorite: bool): (r: PokemonDetail)
    ensures r.id == api.id && r.name == api.name && r.isFavorite == isFavorite
    ensures r.height == api.height && r.weight == api.weight && r.baseExperience == api.baseExperience
    ensures r.types == TransformPokemonTypes(api.types)
    ensures r.stats == TransformPokemonStats(api.stats)
    ensures r.abilities == TransformPokemonAbilities(api.abilities)
    ensures r.sprites == TransformPokemonSprites(api.sprites)
    ensures r.imageUrl == DetailImageUrl(r.sprites)
    ensures r.species == (api.species.name, api.species.url)
  {
    var sprites := TransformPokemonSprites(api.sprites);
    PokemonDetail(
      api.id, api.name, DetailImageUrl(sprites),
      TransformPokemonTypes(api.types), isFavorite,
      api.height, api.weight, api.baseExperience,
      TransformPokemonStats(api.stats), TransformPokemonAbilities(api.abilities),
      sprites, (api.species.name, api.species.url))
  }

  /** `transformPokemonToDetail`: the detail carries over the list entry's favourite flag. */
  function TransformPokemonToDetail(pokemon: Pokemon, api: DetailResponse): (r: PokemonDetail)
    ensures r.isFavorite == pokemon.isFavorite
    ensures r == TransformPokemonDetail(api, pokemon.isFavorite)
  {
    TransformPokemonDetail(api, pokemon.isFavorite)
  }

  /* ------------------------------------------------------ favourite flags */

  /** `updatePokemonFavoriteStatus`: only the flag changes. */
  function UpdatePokemonFavoriteStatus(pokemon: Pokemon, isFavorite: bool): (r: Pokemon)
    ensures r.isFavorite == isFavorite
    ensures r.id == pokemon.id && r.name == pokemon.name && r.imageUrl == pokemon.imageUrl && r.types == pokemon.types
  {
    pokemon.(isFavorite := isFavorite)
  }

  /** `updatePokemonListFavoriteStatus`: same length and order, each flag is membership of its id. */
  function UpdatePokemonListFavoriteStatus(list: seq<Pokemon>, favoriteIds: set<int>): (r: seq<Pokemon>)
    ensures |r| == |list|
    ensures forall i :: 0 <= i < |list| ==>
              && r[i].isFavorite == (list[i].id in favoriteIds)
              && r[i] == list[i].(isFavorite := r[i].isFavorite)
  {
    if list == [] then []
    else [UpdatePokemonFavoriteStatus(list[0], list[0].id in favoriteIds)]
         + UpdatePokemonListFavoriteStatus(list[1..], favoriteIds)
  }

  /** Re-flagging a transformed page with a new set is transforming it with that set. */
  lemma ReflagTransformedItems(items: seq<ListItem>, before: set<int>, after: set<int>)
    ensures UpdatePokemonListFavoriteStatus(TransformItems(items, before), after) == TransformItems(items, after)
  {
    var l := UpdatePokemonListFavoriteStatus(TransformItems(items, before), after);
    assert |l| == |items|;
    forall i | 0 <= i < |items| ensures l[i] == TransformItems(items, after)[i] {}
  }

  /** Re-flagging twice with the same set is re-flagging once. */
  lemma ReflagIdempotent(list: seq<Pokemon>, favoriteIds: set<int>)
    ensures UpdatePokemonListFavoriteStatus(UpdatePokemonListFavoriteStatus(list, favoriteIds), favoriteIds)
            == UpdatePokemonListFavoriteStatus(list, favoriteIds)
  {
    var once := UpdatePokemonListFavoriteStatus(list, favoriteIds);
    var twice := UpdatePokemonListFavoriteStatus(once, favoriteIds);
    assert |twice| == |once|;
    forall i | 0 <= i < |once| ensures twice[i] == once[i] {}
  }

  /* ------------------------------------------------------------ formatting */

  /** `(n / 10).toFixed(1) + unit` for a whole number of tenths: whole part, '.', the tenths digit. */
  function FormatTenths(n: nat, unit: string): string {
    NatToString(n / 10) + "." + NatToString(n % 10) + unit
  }

  /** `formatPokemonHeight`: decimetres shown in metres. */
  function FormatPokemonHeight(heightInDecimeters: nat): (r: string)
    ensures EndsWith(r, " m")
    ensures ParseTenths(r, " m") == Some(heightInDecimeters)
  {
    ParseFormatTenths(heightInDecimeters, " m");
    FormatTenths(heightInDecimeters, " m")
  }

  /** `formatPokemonWeight`: hectograms shown in kilograms. */
  function FormatPokemonWeight(weightInHectograms: nat): (r: string)
    ensures EndsWith(r, " kg")
    ensures ParseTenths(r, " kg") == Some(weightInHectograms)
  {
    ParseFormatTenths(weightInHectograms, " kg");
    FormatTenths(weightInHectograms, " kg")
  }

  /** Reads back a number of tenths from `<digits>.<digit><unit>`. */
  function ParseTenths(s: string, unit: string): Option<nat> {
    if !EndsWith(s, unit) then None
    else
      var body := s[..|s| - |unit|];
      if |body| < 3 || body[|body| - 2] != '.' || !AllDigits(body[..|body| - 2]) || !IsDigit(body[|body| - 1])
      then None
      else Some(ParseDigits(body[..|body| - 2]) * 10 + DigitValue(body[|body| - 1]))
  }

  /** The formatted value reads back as the number it came from. */
  lemma ParseFormatTenths(n: nat, unit: string)
    ensures ParseTenths(FormatTenths(n, unit), unit) == Some(n)
  {
    var s := FormatTenths(n, unit);
    var whole := NatToString(n / 10);
    var body := whole + "." + NatToString(n % 10);
    assert s[..|s| - |unit|] == body;
    assert s[|s| - |unit|..] == unit;
    assert body[..|body| - 2] == whole;
    ParseNatToString(n / 10);
  }

  /** Different heights are shown differently. */
  lemma FormatPokemonHeightInjective(a: nat, b: nat)
    requires FormatPokemonHeight(a) == FormatPokemonHeight(b)
    ensures a == b
  {
    ParseFormatTenths(a, " m");
    ParseFormatTenths(b, " m");
  }

  /** 7 decimetres are "0.7 m"; 69 hectograms are "6.9 kg". */
  lemma FormatExamples()
    ensures FormatPokemonHeight(7) == "0.7 m"
    ensures FormatPokemonWeight(69) == "6.9 kg"
  {}

  /** `formatPokemonName`: the first character upper-cased, the rest unchanged. */
  function FormatPokemonName(name: string): (r: string)
    ensures |r| == |name|
    ensures name != [] ==> r[0] == Upper(name[0]) && r[1..] == name[1..]
  {
    Capitalize(name)
  }
}
