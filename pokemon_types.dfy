/**
 * The application's own records (src/types/pokemon.types.ts) and the three
 * constant tables with their case-insensitive lookups.
 */
module PokemonTypes {
  import opened Wrappers
  import opened Text

  datatype PokemonType = PokemonType(name: string, color: string)

  datatype PokemonStat = PokemonStat(name: string, displayName: string, value: int, maxValue: int)

  datatype PokemonAbility = PokemonAbility(name: string, displayName: string, isHidden: bool)

  datatype PokemonSprites = PokemonSprites(
    frontDefault: Option<string>,
    frontShiny: Option<string>,
    backDefault: Option<string>,
    backShiny: Option<string>,
    officialArtwork: Option<string>,
    homeArtwork: Option<string>)

  /** A Pokémon as a list shows it. */
  datatype Pokemon = Pokemon(
    id: int,
    name: string,
    imageUrl: string,
    types: seq<PokemonType>,
    isFavorite: bool)

  /** A Pokémon with everything the detail screen shows (`PokemonDetail extends Pokemon`). */
  datatype PokemonDetail = PokemonDetail(
    id: int,
    name: string,
    imageUrl: string,
    types: seq<PokemonType>,
    isFavorite: bool,
    height: int,
    weight: int,
    baseExperience: int,
    stats: seq<PokemonStat>,
    abilities: seq<PokemonAbility>,
    sprites: PokemonSprites,
    species: (string, string))

  /** One page of the list as the application keeps it. */
  datatype PokemonListPage = PokemonListPage(
    pokemon: seq<Pokemon>,
    totalCount: int,
    hasNextPage: bool,
    hasPreviousPage: bool,
    nextOffset: Option<int>,
    previousOffset: Option<int>)

  /* ------------------------------------------------------------- tables */

  const POKEMON_TYPE_COLORS: map<string, string> := map[
    "normal" := "#A8A878", "fire" := "#F08030", "water" := "#6890F0",
    "electric" := "#F8D030", "grass" := "#78C850", "ice" := "#98D8D8",
    "fighting" := "#C03028", "poison" := "#A040A0", "ground" := "#E0C068",
    "flying" := "#A890F0", "psychic" := "#F85888", "bug" := "#A8B820",
    "rock" := "#B8A038", "ghost" := "#705898", "dragon" := "#7038F8",
    "dark" := "#705848", "steel" := "#B8B8D0", "fairy" := "#EE99AC"]

  const DEFAULT_TYPE_COLOR: string := "#68A090"

  const STAT_DISPLAY_NAMES: map<string, string> := map[
    "hp" := "HP", "attack" := "Ataque", "defense" := "Defensa",
    "special-attack" := "At. Especial", "special-defense" := "Def. Especial",
    "speed" := "Velocidad"]

  const STAT_MAX_VALUES: map<string, int> := map[
    "hp" := 255, "attack" := 190, "defense" := 230,
    "special-attack" := 194, "special-defense" := 230, "speed" := 180]

  const DEFAULT_STAT_MAX: int := 255

  /** `TABLE[key] || fallback` for a table of strings: a missing key or an empty entry falls back. */
  function LookupOr(table: map<string, string>, key: string, fallback: string): string {
    if key in table && table[key] != "" then table[key] else fallback
  }

  /** `TABLE[key] || fallback` for a table of numbers: a missing key or a zero entry falls back. */
  function LookupNumOr(table: map<string, int>, key: string, fallback: int): int {
    if key in table && table[key] != 0 then table[key] else fallback
  }

  /** `getPokemonTypeColor`: the colour of the lower-cased name, '#68A090' for an unknown type. */
  function GetPokemonTypeColor(typeName: string): (r: string)
    ensures LowerStr(typeName) in POKEMON_TYPE_COLORS ==> r == POKEMON_TYPE_COLORS[LowerStr(typeName)]
    ensures LowerStr(typeName) !in POKEMON_TYPE_COLORS ==> r == DEFAULT_TYPE_COLOR
    ensures |r| == 7 && r[0] == '#'
  {
    LookupOr(POKEMON_TYPE_COLORS, LowerStr(typeName), DEFAULT_TYPE_COLOR)
  }

  /** `getStatDisplayName`: the friendly name of the lower-cased stat, else the name as given. */
  function GetStatDisplayName(statName: string): (r: string)
    ensures LowerStr(statName) in STAT_DISPLAY_NAMES ==> r == STAT_DISPLAY_NAMES[LowerStr(statName)]
    ensures LowerStr(statName) !in STAT_DISPLAY_NAMES ==> r == statName
  {
    LookupOr(STAT_DISPLAY_NAMES, LowerStr(statName), statName)
  }

  /** `getStatMaxValue`: the table's maximum for the lower-cased stat, else 255; always in 1..255. */
  function GetStatMaxValue(statName: string): (r: int)
    ensures LowerStr(statName) in STAT_MAX_VALUES ==> r == STAT_MAX_VALUES[LowerStr(statName)]
    ensures LowerStr(statName) !in STAT_MAX_VALUES ==> r == DEFAULT_STAT_MAX
    ensures 1 <= r <= 255
  {
    LookupNumOr(STAT_MAX_VALUES, LowerStr(statName), DEFAULT_STAT_MAX)
  }

  /** The lookups ignore case: a name gives what its lower-cased form gives. */
  lemma LookupsIgnoreCase(name: string)
    ensures GetPokemonTypeColor(name) == GetPokemonTypeColor(LowerStr(name))
    ensures LowerStr(name) in STAT_DISPLAY_NAMES ==>
              GetStatDisplayName(name) == GetStatDisplayName(LowerStr(name))
    ensures GetStatMaxValue(name) == GetStatMaxValue(LowerStr(name))
  {
    LowerStrIdempotent(name);
  }
}
