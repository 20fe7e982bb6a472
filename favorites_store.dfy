/**
 * The favourites store of src/store/favoritesStore.ts. The store keeps a set
 * of Pokémon ids, a loading flag and an error message, and mirrors the set
 * into one storage slot. A JavaScript `Set` iterates in insertion order, so
 * the set is kept as a duplicate-free sequence in that order; `Favorites()`
 * is the set it holds. Whether a storage read, write or removal succeeds is
 * a parameter of the operation.
 */
module FavoritesStore {
  import opened Wrappers

  const FAVORITES_STORAGE_KEY: string := "@pokemon_favorites"

  const REMOVE_ERROR: string := "Error al remover de favoritos"
  const CLEAR_ERROR: string := "Error al limpiar favoritos"

  /** `Error al agregar ${pokemonName} a favoritos` */
  function AddErrorMessage(name: string): string {
    "Error al agregar " + name + " a favoritos"
  }

  /** A value `JSON.parse` can give back; numbers are integers here. */
  datatype Json =
    | JNull
    | JBool(b: bool)
    | JNum(n: int)
    | JStr(s: string)
    | JArr(items: seq<Json>)
    | JObj(fields: seq<(string, Json)>)

  /** What the storage slot holds: text that parses to a JSON value, or text that does not parse. */
  datatype Blob = Parsed(value: Json) | Unparsable(raw: string)

  /* ------------------------------------------------------ sequence helpers */

  predicate NoDup(xs: seq<int>) {
    forall i, j :: 0 <= i < j < |xs| ==> xs[i] != xs[j]
  }

  function Elements(xs: seq<int>): set<int> {
    set x | x in xs
  }

  /** `new Set(xs)`: each value once, at its first occurrence. */
  function Dedup(xs: seq<int>): (r: seq<int>)
    ensures NoDup(r)
    ensures forall x :: x in r <==> x in xs
    ensures |r| <= |xs|
  {
    if xs == [] then []
    else
      var d := Dedup(xs[..|xs| - 1]);
      var last := xs[|xs| - 1];
      assert forall x :: x in xs <==> x in xs[..|xs| - 1] || x == last;
      if last in d then d else d + [last]
  }

  /** A sequence without repeated values is its own `new Set(...)`. */
  lemma {:induction false} DedupOfNoDup(xs: seq<int>)
    requires NoDup(xs)
    ensures Dedup(xs) == xs
  {
    if xs != [] {
      var init := xs[..|xs| - 1];
      DedupOfNoDup(init);
      assert xs[|xs| - 1] !in init;
      assert init + [xs[|xs| - 1]] == xs;
    }
  }

  /** `newFavorites.add(id)` on a copy: appended when new, else unchanged. */
  function AddId(xs: seq<int>, id: int): (r: seq<int>)
    requires NoDup(xs)
    ensures NoDup(r)
    ensures Elements(r) == Elements(xs) + {id}
    ensures id in xs ==> r == xs
  {
    if id in xs then xs else xs + [id]
  }

  /** `newFavorites.delete(id)` on a copy: the others stay in their order. */
  function RemoveId(xs: seq<int>, id: int): (r: seq<int>)
    requires NoDup(xs)
    ensures NoDup(r)
    ensures Elements(r) == Elements(xs) - {id}
    ensures id !in xs ==> r == xs
    ensures |r| == if id in xs then |xs| - 1 else |xs|
  {
    if xs == [] then []
    else if xs[0] == id then
      assert id !in xs[1..];
      xs[1..]
    else
      var rest := RemoveId(xs[1..], id);
      assert xs[0] !in xs[1..];
      assert xs[0] !in Elements(rest);
      assert Elements(xs) == {xs[0]} + Elements(xs[1..]);
      assert Elements([xs[0]] + rest) == {xs[0]} + Elements(rest);
      [xs[0]] + rest
  }

  /** Adding a new id and removing it again gives back the very same sequence. */
  lemma {:induction false} RemoveAfterAdd(xs: seq<int>, id: int)
    requires NoDup(xs) && id !in xs
    ensures RemoveId(AddId(xs, id), id) == xs
  {
    if xs != [] {
      assert xs[0] != id;
      assert (xs + [id])[1..] == xs[1..] + [id];
      RemoveAfterAdd(xs[1..], id);
    } else {
      assert [id][1..] == [];
    }
  }

  /** Membership toggled: the set `toggleFavorite` leaves behind. */
  function ToggleSet(s: set<int>, id: int): set<int> {
    if id in s then s - {id} else s + {id}
  }

  /** Toggling the same id twice restores the set, and no other id ever changes. */
  lemma ToggleTwice(s: set<int>, id: int, other: int)
    requires other != id
    ensures ToggleSet(ToggleSet(s, id), id) == s
    ensures other in ToggleSet(s, id) <==> other in s
    ensures id in ToggleSet(s, id) <==> id !in s
  {
    if id in s {
      assert ToggleSet(s, id) == s - {id};
      assert (s - {id}) + {id} == s;
    } else {
      assert ToggleSet(s, id) == s + {id};
      assert (s + {id}) - {id} == s;
    }
  }

  /* --------------------------------------------------------- the stored form */

  /** `JSON.stringify(ids)` as the slot holds it. */
  function Encode(ids: seq<int>): (b: Blob)
    ensures b.Parsed? && b.value.JArr? && |b.value.items| == |ids|
    ensures forall i :: 0 <= i < |ids| ==> b.value.items[i] == JNum(ids[i])
  {
    Parsed(JArr(seq(|ids|, i requires 0 <= i < |ids| => JNum(ids[i]))))
  }

  /** `typeof id === 'number'` for every item. */
  predicate AllNumbers(items: seq<Json>) {
    forall i :: 0 <= i < |items| ==> items[i].JNum?
  }

  function Numbers(items: seq<Json>): (r: seq<int>)
    requires AllNumbers(items)
    ensures |r| == |items| && forall i :: 0 <= i < |items| ==> items[i] == JNum(r[i])
  {
    seq(|items|, i requires 0 <= i < |items| => items[i].n)
  }

  /**
   * `loadFavoritesFromStorage`: the stored array when the slot can be read
   * and holds an array of numbers; the empty list when it is missing, cannot
   * be read, does not parse or holds anything else.
   */
  function LoadFavoritesFromStorage(slot: Option<Blob>, readOk: bool): (r: seq<int>)
    ensures !readOk || slot.None? ==> r == []
    ensures slot.Some? && slot.value.Unparsable? ==> r == []
    ensures readOk && slot.Some? && slot.value.Parsed? && slot.value.value.JArr? && AllNumbers(slot.value.value.items) ==>
              r == Numbers(slot.value.value.items)
    ensures slot.Some? && slot.value.Parsed? && !(slot.value.value.JArr? && AllNumbers(slot.value.value.items)) ==> r == []
  {
    if !readOk then []
    else match slot
      case None => []
      case Some(Unparsable(_)) => []
      case Some(Parsed(v)) => if v.JArr? && AllNumbers(v.items) then Numbers(v.items) else []
  }

  /** What a successful save writes, a successful load reads back. */
  lemma LoadAfterSave(ids: seq<int>)
    requires NoDup(ids)
    ensures LoadFavoritesFromStorage(Some(Encode(ids)), true) == ids
    ensures Dedup(LoadFavoritesFromStorage(Some(Encode(ids)), true)) == ids
  {
    assert Numbers(Encode(ids).value.items) == ids;
    DedupOfNoDup(ids);
  }

  /* --------------------------------------------------------------- the store */

  class Store {
    /** `favorites`, in insertion order */
    var ids: seq<int>
    var isLoading: bool
    var error: Option<string>
    /** The storage slot under FAVORITES_STORAGE_KEY; `None` when nothing is stored. */
    var slot: Option<Blob>

    ghost predicate Valid()
      reads this
    {
      NoDup(ids)
    }

    /** The favourite ids as a set. */
    function Favorites(): set<int>
      reads this
    {
      Elements(ids)
    }

    /** The store as created: no favourites, not loading, no error; the slot holds whatever was stored before. */
    constructor (stored: Option<Blob>)
      ensures Valid()
      ensures ids == [] && !isLoading && error.None? && slot == stored
    {
      ids := [];
      isLoading := false;
      error := None;
      slot := stored;
    }

    /** `isFavorite(id)` */
    function IsFavorite(id: int): (r: bool)
      reads this
      ensures r <==> id in Favorites()
    {
      id in ids
    }

    /** `getFavoriteIds()`: every favourite once, in the order they were added. */
    function GetFavoriteIds(): (r: seq<int>)
      reads this
      requires Valid()
      ensures NoDup(r)
      ensures forall x :: x in r <==> x in Favorites()
      ensures |r| == |Favorites()|
    {
      ElementsCount(ids);
      ids
    }

    /** `saveFavoritesToStorage(favorites)`: on success the slot holds the list; a failure leaves it and is reported. */
    method SaveFavoritesToStorage(favorites: seq<int>, writeOk: bool) returns (ok: bool)
      modifies this
      ensures ok == writeOk
      ensures slot == if writeOk then Some(Encode(favorites)) else old(slot)
      ensures ids == old(ids) && isLoading == old(isLoading) && error == old(error)
    {
      if writeOk {
        slot := Some(Encode(favorites));
      }
      ok := writeOk;
    }

    /**
     * `addFavorite(id, name)`: the set gains `id` at once; the write follows,
     * and a failed write only records the message.
     */
    method AddFavorite(id: int, name: string, writeOk: bool)
      modifies this
      requires Valid()
      ensures Valid()
      ensures Favorites() == old(Favorites()) + {id}
      ensures ids == AddId(old(ids), id)
      ensures slot == if writeOk then Some(Encode(ids)) else old(slot)
      ensures error == if writeOk then None else Some(AddErrorMessage(name))
      ensures isLoading == old(isLoading)
    {
      error := None;
      var newFavorites := AddId(ids, id);
      ids := newFavorites;
      var ok := SaveFavoritesToStorage(newFavorites, writeOk);
      if !ok {
        error := Some(AddErrorMessage(name));
      }
    }

    /** `removeFavorite(id)`: the set loses `id` at once; the write follows, as for adding. */
    method RemoveFavorite(id: int, writeOk: bool)
      modifies this
      requires Valid()
      ensures Valid()
      ensures Favorites() == old(Favorites()) - {id}
      ensures ids == RemoveId(old(ids), id)
      ensures slot == if writeOk then Some(Encode(ids)) else old(slot)
      ensures error == if writeOk then None else Some(REMOVE_ERROR)
      ensures isLoading == old(isLoading)
    {
      error := None;
      var newFavorites := RemoveId(ids, id);
      ids := newFavorites;
      var ok := SaveFavoritesToStorage(newFavorites, writeOk);
      if !ok {
        error := Some(REMOVE_ERROR);
      }
    }

    /** `toggleFavorite(id, name)`: removes a favourite, adds anything else; only `id` changes. */
    method ToggleFavorite(id: int, name: string, writeOk: bool)
      modifies this
      requires Valid()
      ensures Valid()
      ensures Favorites() == ToggleSet(old(Favorites()), id)
      ensures ids == if id in old(ids) then RemoveId(old(ids), id) else AddId(old(ids), id)
      ensures slot == if writeOk then Some(Encode(ids)) else old(slot)
      ensures writeOk ==> error.None?
      ensures !writeOk ==> error == Some(if id in old(ids) then REMOVE_ERROR else AddErrorMessage(name))
      ensures isLoading == old(isLoading)
    {
      if IsFavorite(id) {
        RemoveFavorite(id, writeOk);
      } else {
        AddFavorite(id, name, writeOk);
      }
    }

    /**
     * `loadFavorites()`: the set becomes the stored list without repeats
     * (empty when the slot is missing, unreadable or malformed); loading
     * ends and no error is left.
     */
    method LoadFavorites(readOk: bool)
      modifies this
      ensures Valid()
      ensures ids == Dedup(LoadFavoritesFromStorage(old(slot), readOk))
      ensures !isLoading && error.None? && slot == old(slot)
    {
      isLoading := true;
      error := None;
      var favoritesData := LoadFavoritesFromStorage(slot, readOk);
      ids := Dedup(favoritesData);
      isLoading := false;
    }

    /** `clearFavorites()`: the set is emptied whatever happens to the slot's removal. */
    method ClearFavorites(removeOk: bool)
      modifies this
      ensures Valid()
      ensures ids == [] && Favorites() == {}
      ensures slot == if removeOk then None else old(slot)
      ensures error == if removeOk then None else Some(CLEAR_ERROR)
      ensures isLoading == old(isLoading)
    {
      error := None;
      ids := [];
      if removeOk {
        slot := None;
      } else {
        error := Some(CLEAR_ERROR);
      }
    }
  }

  /** A duplicate-free sequence has as many elements as its set. */
  lemma {:induction false} ElementsCount(xs: seq<int>)
    requires NoDup(xs)
    ensures |Elements(xs)| == |xs|
  {
    if xs != [] {
      ElementsCount(xs[1..]);
      assert Elements(xs) == {xs[0]} + Elements(xs[1..]);
      assert xs[0] !in xs[1..];
    }
  }

  /**
   * After a successful toggle, reloading from the slot gives back exactly
   * the in-memory favourites.
   */
  method ToggleThenReload(store: Store, id: int, name: string)
    modifies store
    requires store.Valid()
    ensures store.Favorites() == ToggleSet(old(store.Favorites()), id)
    ensures store.ids == old(if id in store.ids then RemoveId(store.ids, id) else AddId(store.ids, id))
  {
    store.ToggleFavorite(id, name, true);
    var before := store.ids;
    LoadAfterSave(before);
    store.LoadFavorites(true);
  }

  /** Toggling twice with successful writes restores the favourites; a new id leaves the very same order. */
  method ToggleTwiceRestores(store: Store, id: int, name: string)
    modifies store
    requires store.Valid()
    ensures store.Valid()
    ensures store.Favorites() == old(store.Favorites())
    ensures id !in old(store.ids) ==> store.ids == old(store.ids)
    ensures store.error.None? && store.slot == Some(Encode(store.ids))
  {
    store.ToggleFavorite(id, name, true);
    store.ToggleFavorite(id, name, true);
    ToggleTwice(old(store.Favorites()), id, id + 1);
    if id !in old(store.ids) {
      RemoveAfterAdd(old(store.ids), id);
    }
  }
}
