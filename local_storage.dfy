/**
 * The browser-side store: the signed-in user, the conversion history
 * (newest first, at most 100 entries) and the favourites list, kept under
 * three keys of the browser's key-value storage. Each entry holds the value
 * that JSON serialisation would round-trip; serialisation itself is not
 * modelled. Ids are `Date.now().toString()`; the clock is the `now`
 * parameter.
 */
module LocalStorage {
  import opened Common

  datatype UserData = UserData(email: string, name: string, uid: string)

  datatype ConversionRecord = ConversionRecord(
    id: string, kind: string, fromUnit: string, toUnit: string,
    fromValue: real, toValue: real, exchangeRate: Option<real>, timestamp: nat)

  /** `Omit<ConversionRecord, 'id' | 'timestamp'>`: what callers ask to save. */
  datatype ConversionInput = ConversionInput(
    kind: string, fromUnit: string, toUnit: string,
    fromValue: real, toValue: real, exchangeRate: Option<real>)

  datatype FavoriteConversion = FavoriteConversion(
    id: string, kind: string, fromUnit: string, toUnit: string, name: Option<string>)

  /** `Omit<FavoriteConversion, 'id'>`. */
  datatype FavoriteInput = FavoriteInput(kind: string, fromUnit: string, toUnit: string, name: Option<string>)

  /** What a storage key holds. */
  datatype Item =
    | UserItem(user: UserData)
    | HistoryItem(history: seq<ConversionRecord>)
    | FavoritesItem(favorites: seq<FavoriteConversion>)

  const UserKey := "currentUser"
  const HistoryKey := "conversionHistory"
  const FavoritesKey := "favorites"
  const HistoryLimit := 100

  function Min(a: int, b: int): int { if a <= b then a else b }

  /** `[record, ...history].slice(0, 100)`. */
  function PushCapped(record: ConversionRecord, history: seq<ConversionRecord>): (r: seq<ConversionRecord>)
    ensures |r| == Min(|history| + 1, HistoryLimit)
    ensures r[0] == record
    ensures r[1..] == history[..|r| - 1]
  {
    ([record] + history)[..Min(|history| + 1, HistoryLimit)]
  }

  /** Below the cap nothing is dropped; at the cap exactly the oldest entry goes. */
  lemma PushCappedDropsOnlyOldest(record: ConversionRecord, history: seq<ConversionRecord>)
    requires |history| <= HistoryLimit
    ensures |history| < HistoryLimit ==> PushCapped(record, history) == [record] + history
    ensures |history| == HistoryLimit ==> PushCapped(record, history) == [record] + history[..HistoryLimit - 1]
  {
    var r := PushCapped(record, history);
    assert r == [r[0]] + r[1..];
  }

  /** `favorites.filter(fav => fav.id !== id)`. */
  function WithoutId(favorites: seq<FavoriteConversion>, id: string): (r: seq<FavoriteConversion>)
    ensures |r| <= |favorites|
    ensures forall f :: f in r <==> f in favorites && f.id != id
    ensures forall f :: multiset(r)[f] == if f.id != id then multiset(favorites)[f] else 0
  {
    Where(favorites, (f: FavoriteConversion) => f.id != id)
  }

  /** Removing an id that no entry has leaves the list as it is. */
  lemma WithoutAbsentId(favorites: seq<FavoriteConversion>, id: string)
    requires forall f :: f in favorites ==> f.id != id
    ensures WithoutId(favorites, id) == favorites
  {
    WhereKeepsAll(favorites, (f: FavoriteConversion) => f.id != id);
  }

  /** Removing twice is removing once. */
  lemma WithoutIdIdempotent(favorites: seq<FavoriteConversion>, id: string)
    ensures WithoutId(WithoutId(favorites, id), id) == WithoutId(favorites, id)
  {
    WithoutAbsentId(WithoutId(favorites, id), id);
  }

  /**
   * The survivors keep their relative order: removing from a concatenation
   * removes from each part, an entry with the id disappears and any other
   * entry stays where it was.
   */
  lemma WithoutIdKeepsOrder(a: seq<FavoriteConversion>, b: seq<FavoriteConversion>, f: FavoriteConversion, id: string)
    ensures WithoutId(a + b, id) == WithoutId(a, id) + WithoutId(b, id)
    ensures WithoutId([f], id) == if f.id == id then [] else [f]
  {
    WhereAppend(a, b, (g: FavoriteConversion) => g.id != id);
    assert [f][1..] == [];
  }

  class BrowserStorage {
    var items: map<string, Item>

    constructor ()
      ensures items == map[]
    {
      items := map[];
    }

    /** `getUserFromLocalStorage()`: the saved user, or null. */
    function GetUser(): (r: Option<UserData>)
      reads this
      ensures r.Some? <==> UserKey in items && items[UserKey].UserItem?
      ensures r.Some? ==> items[UserKey] == UserItem(r.value)
    {
      if UserKey in items && items[UserKey].UserItem? then Some(items[UserKey].user) else None
    }

    /** `getConversionsFromLocalStorage()`: the stored history, or [] when nothing is stored. */
    function GetHistory(): (r: seq<ConversionRecord>)
      reads this
      ensures HistoryKey !in items ==> r == []
      ensures HistoryKey in items && items[HistoryKey].HistoryItem? ==> r == items[HistoryKey].history
    {
      if HistoryKey in items && items[HistoryKey].HistoryItem? then items[HistoryKey].history else []
    }

    /** `getFavoritesFromLocalStorage()`: the stored favourites, or []. */
    function GetFavorites(): (r: seq<FavoriteConversion>)
      reads this
      ensures FavoritesKey !in items ==> r == []
      ensures FavoritesKey in items && items[FavoritesKey].FavoritesItem? ==> r == items[FavoritesKey].favorites
    {
      if FavoritesKey in items && items[FavoritesKey].FavoritesItem? then items[FavoritesKey].favorites else []
    }

    method SaveUser(user: UserData)
      modifies this
      ensures items == old(items)[UserKey := UserItem(user)]
      ensures GetUser() == Some(user)
      ensures GetHistory() == old(GetHistory()) && GetFavorites() == old(GetFavorites())
    {
      items := items[UserKey := UserItem(user)];
    }

    method RemoveUser()
      modifies this
      ensures items == old(items) - {UserKey}
      ensures GetUser() == None
      ensures GetHistory() == old(GetHistory()) && GetFavorites() == old(GetFavorites())
    {
      items := items - {UserKey};
    }

    /** `saveConversionToLocalStorage`: stamp, put first, keep the newest 100. */
    method SaveConversion(c: ConversionInput, now: nat) returns (id: string)
      modifies this
      ensures id == NatToString(now)
      ensures GetHistory() == PushCapped(
                ConversionRecord(id, c.kind, c.fromUnit, c.toUnit, c.fromValue, c.toValue, c.exchangeRate, now),
                old(GetHistory()))
      ensures |GetHistory()| <= HistoryLimit
      ensures items.Keys == old(items.Keys) + {HistoryKey}
      ensures forall k :: k in old(items) && k != HistoryKey ==> items[k] == old(items)[k]
    {
      var history := GetHistory();
      var record := ConversionRecord(NatToString(now), c.kind, c.fromUnit, c.toUnit,
                                     c.fromValue, c.toValue, c.exchangeRate, now);
      history := [record] + history;
      var limited := history[..Min(|history|, HistoryLimit)];
      items := items[HistoryKey := HistoryItem(limited)];
      id := record.id;
    }

    /** `clearConversionHistory`: drop the history key. */
    method ClearHistory()
      modifies this
      ensures items == old(items) - {HistoryKey}
      ensures GetHistory() == []
      ensures GetUser() == old(GetUser()) && GetFavorites() == old(GetFavorites())
    {
      items := items - {HistoryKey};
    }

    /** `saveFavoriteToLocalStorage`: append, with no check for duplicates. */
    method SaveFavorite(f: FavoriteInput, now: nat) returns (id: string)
      modifies this
      ensures id == NatToString(now)
      ensures GetFavorites() == old(GetFavorites()) + [FavoriteConversion(id, f.kind, f.fromUnit, f.toUnit, f.name)]
      ensures items.Keys == old(items.Keys) + {FavoritesKey}
      ensures forall k :: k in old(items) && k != FavoritesKey ==> items[k] == old(items)[k]
    {
      var favorites := GetFavorites();
      var favorite := FavoriteConversion(NatToString(now), f.kind, f.fromUnit, f.toUnit, f.name);
      favorites := favorites + [favorite];
      items := items[FavoritesKey := FavoritesItem(favorites)];
      id := favorite.id;
    }

    /** `removeFavoriteFromLocalStorage`: keep every favourite whose id differs. */
    method RemoveFavorite(id: string)
      modifies this
      ensures GetFavorites() == WithoutId(old(GetFavorites()), id)
      ensures items.Keys == old(items.Keys) + {FavoritesKey}
      ensures forall k :: k in old(items) && k != FavoritesKey ==> items[k] == old(items)[k]
    {
      var favorites := GetFavorites();
      items := items[FavoritesKey := FavoritesItem(WithoutId(favorites, id))];
    }
  }
}
