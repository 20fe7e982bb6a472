/**
 * The records the upstream REST API returns (src/api/types.ts), as values.
 * `string | null` and properties reached through `?.` become `Option`.
 */
module ApiTypes {
  import opened Wrappers

  /** One entry of a paginated list: a name and the resource URL `.../pokemon/<id>/`. */
  datatype ListItem = ListItem(name: string, url: string)

  /** A page of the list endpoint; `next`/`previous` are continuation URLs or null. */
  datatype ListResponse = ListResponse(
    count: int,
    next: Option<string>,
    previous: Option<string>,
    results: seq<ListItem>)

  datatype NamedRef = NamedRef(name: string, url: string)

  /** `front_default`/`front_shiny` of one artwork variant. */
  datatype ArtSet = ArtSet(frontDefault: Option<string>, frontShiny: Option<string>)

  /** `sprites.other`, whose two variants may each be missing. */
  datatype OtherSprites = OtherSprites(officialArtwork: Option<ArtSet>, home: Option<ArtSet>)

  datatype RawSprites = RawSprites(
    frontDefault: Option<string>,
    frontShiny: Option<string>,
    backDefault: Option<string>,
    backShiny: Option<string>,
    other: Option<OtherSprites>)

  datatype TypeSlot = TypeSlot(slot: int, kind: NamedRef)
  datatype StatSlot = StatSlot(baseStat: int, effort: int, stat: NamedRef)
  datatype AbilitySlot = AbilitySlot(isHidden: bool, slot: int, ability: NamedRef)

  /** The detail endpoint's record for one Pokémon. */
  datatype DetailResponse = DetailResponse(
    id: int,
    name: string,
    height: int,
    weight: int,
    baseExperience: int,
    sprites: RawSprites,
    types: seq<TypeSlot>,
    stats: seq<StatSlot>,
    abilities: seq<AbilitySlot>,
    species: NamedRef)
}
