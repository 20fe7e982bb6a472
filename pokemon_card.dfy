/**
 * The text the list card of src/components/pokemon/PokemonCard.tsx shows:
 * the `#NNN` number, the capitalised name and at most two type chips.
 */
module PokemonCard {
  import opened Text
  import opened PokemonTypes
  import Transformers

  /** `` `#${id.toString().padStart(3, '0')}` `` */
  function FormatPokemonId(id: int): (r: string)
    ensures |r| >= 4 && r[0] == '#'
    ensures r[1..] == PadStart(IntToString(id), 3, '0')
  {
    "#" + PadStart(IntToString(id), 3, '0')
  }

  /** A non-negative id reads back from the card, leading zeros and all. */
  lemma FormatPokemonIdRoundTrip(id: nat)
    ensures AllDigits(FormatPokemonId(id)[1..])
    ensures ParseDigits(FormatPokemonId(id)[1..]) == id
  {
    var s := NatToString(id);
    ParseNatToString(id);
    if |s| < 3 {
      assert PadStart(s, 3, '0') == Repeat('0', 3 - |s|) + s;
      ParseLeadingZeros(3 - |s|, s);
    }
  }

  /** Different non-negative ids show different numbers. */
  lemma FormatPokemonIdInjective(a: nat, b: nat)
    requires FormatPokemonId(a) == FormatPokemonId(b)
    ensures a == b
  {
    FormatPokemonIdRoundTrip(a);
    FormatPokemonIdRoundTrip(b);
  }

  /** Padding never cuts: an id of three or more characters appears unchanged after '#'. */
  lemma FormatPokemonIdNeverTruncates(id: int)
    ensures |IntToString(id)| >= 3 ==> FormatPokemonId(id) == "#" + IntToString(id)
    ensures |IntToString(id)| < 3 ==> |FormatPokemonId(id)| == 4
    ensures FormatPokemonId(id)[|FormatPokemonId(id)| - |IntToString(id)|..] == IntToString(id)
  {}

  /** Number 7 shows as "#007" and 25 as "#025". */
  lemma FormatPokemonIdExamples()
    ensures FormatPokemonId(7) == "#007"
    ensures FormatPokemonId(25) == "#025"
  {
    assert NatToString(7) == "7";
    assert NatToString(25) == NatToString(2) + [DigitChar(5)] == "25";
  }

  /** The card's own `formatPokemonName`: `name.charAt(0).toUpperCase() + name.slice(1)`. */
  function CardName(name: string): (r: string)
    ensures r == Transformers.FormatPokemonName(name)
  {
    (if name == [] then [] else [Upper(name[0])]) + (if name == [] then [] else name[1..])
  }

  /** One type chip: the capitalised type name on the type's colour. */
  datatype TypeChip = TypeChip(caption: string, color: string)

  /** `types.slice(0, 2).map(...)`: the first two types, in order. */
  function TypeChips(types: seq<PokemonType>): (r: seq<TypeChip>)
    ensures |r| == if |types| < 2 then |types| else 2
    ensures forall i :: 0 <= i < |r| ==>
              r[i].caption == Capitalize(types[i].name) && r[i].color == types[i].color
  {
    var shown := if |types| < 2 then types else types[..2];
    seq(|shown|, i requires 0 <= i < |shown| => TypeChip(CardName(shown[i].name), shown[i].color))
  }
}
