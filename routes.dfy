/**
 * The REST handlers of the server, with the in-memory store as their
 * storage. A handler's request is its parsed parameters (header, body
 * fields, path parameter); its reply is a status code and a JSON body.
 * The two exchange-rate providers are abstract outcomes, and `new Date()`
 * is the `now` parameter of the handlers that create rows.
 */
module Routes {
  import opened Common
  import opened JsNumber
  import opened Schema
  import opened Storage

  datatype Body =
    | UserJson(user: User)
    | ConversionsJson(conversions: seq<Conversion>)
    | CountJson(count: nat)
    | ConversionJson(conversion: Conversion)
    | FavoritesJson(favorites: seq<Favorite>)
    | FavoriteJson(favorite: Favorite)
    | RatesJson(rates: map<string, real>)
    | MessageJson(message: string)
    | ErrorJson(error: string)

  datatype Response = Response(status: int, body: Body)

  const AuthRequired := Response(401, MessageJson("Authentication required"))

  /** The outcome of reading the `x-user-id` header. */
  datatype Caller =
    | Anonymous                        // header absent or empty: 401
    | Caller(userId: Option<int>)      // `parseInt(header)`; None is NaN

  /** `if (!userHeader) 401; const userId = parseInt(userHeader)`. */
  function ReadCaller(header: Option<string>): (c: Caller)
    ensures c.Anonymous? <==> header.None? || header.value == ""
    ensures c.Caller? ==> c.userId == ParseInt(header.value)
  {
    if header.None? || header.value == "" then Anonymous else Caller(ParseInt(header.value))
  }

  /** A header holding the decimal numeral of a user id identifies exactly that user. */
  lemma ReadCallerOfNumeral(id: nat)
    ensures ReadCaller(Some(NatToString(id))) == Caller(Some(id))
  {
    ParseIntRoundTrip(id);
  }

  /** A header written in hexadecimal names the user of that value. */
  lemma ReadCallerOfHex()
    ensures ReadCaller(Some("0x10")) == Caller(Some(16))
  {
    ParseIntOfHex();
  }

  /** Spaces before the numeral do not change the user it names. */
  lemma ReadCallerOfSpacedNumeral(id: nat)
    ensures ReadCaller(Some(" " + NatToString(id))) == Caller(Some(id))
  {
    var header := " " + NatToString(id);
    assert header != "";
    ParseIntRoundTrip(id);
    assert IsBlank(" ");
    ParseIntSkipsWhiteSpace(" ", NatToString(id));
  }

  // ---------------------------------------------------------------- login

  datatype LoginBody = LoginBody(uid: Option<string>, email: Option<string>, name: Option<string>)

  /** `!value` for an optional string: absent or empty. */
  predicate Falsy(s: Option<string>) { s.None? || s.value == "" }

  /** `name || email`. */
  function NameOrEmail(name: Option<string>, email: string): (r: string)
    ensures !Falsy(name) ==> r == name.value
    ensures Falsy(name) ==> r == email
  {
    if Falsy(name) then email else name.value
  }

  /** POST /api/auth/login: create the user on first sign-in, refresh email/name afterwards. */
  method Login(store: MemStorage, body: LoginBody, now: nat) returns (resp: Response)
    requires store.Valid()
    modifies store
    ensures store.Valid()
    ensures Falsy(body.uid) || Falsy(body.email) ==>
              resp == Response(400, MessageJson("Missing required fields")) && unchanged(store)
    ensures !Falsy(body.uid) && !Falsy(body.email) && old(store.GetUserByFirebaseUid(body.uid.value)).None? ==>
              var u := User(old(store.currentUserId), body.email.value, NameOrEmail(body.name, body.email.value),
                            body.uid.value, now);
              && store.users == old(store.users)[u.id := u]
              && store.currentUserId == old(store.currentUserId) + 1
              && resp == Response(200, UserJson(u))
    ensures !Falsy(body.uid) && !Falsy(body.email) && old(store.GetUserByFirebaseUid(body.uid.value)).Some? ==>
              var old_u := old(store.GetUserByFirebaseUid(body.uid.value)).value;
              var stale := old_u.email != body.email.value || body.name.None? || old_u.name != body.name.value;
              var u := if stale
                       then old_u.(email := body.email.value, name := NameOrEmail(body.name, body.email.value))
                       else old_u;
              && store.users == old(store.users)[old_u.id := u]
              && store.currentUserId == old(store.currentUserId)
              && resp == Response(200, UserJson(u))
    ensures store.conversions == old(store.conversions) && store.favorites == old(store.favorites)
    ensures store.currentConversionId == old(store.currentConversionId)
    ensures store.currentFavoriteId == old(store.currentFavoriteId)
    ensures UniqueUids(old(store.users)) ==> UniqueUids(store.users)
  {
    if Falsy(body.uid) || Falsy(body.email) {
      return Response(400, MessageJson("Missing required fields"));
    }
    var uid, email := body.uid.value, body.email.value;
    var existing := store.GetUserByFirebaseUid(uid);
    if existing.None? {
      var created := store.CreateUser(InsertUser(email, NameOrEmail(body.name, email), uid), now);
      return Response(200, UserJson(created));
    }
    var user := existing.value;
    if user.email != email || body.name.None? || user.name != body.name.value {
      var updated := store.UpdateUser(user.id, UserPatch(Some(email), Some(NameOrEmail(body.name, email)), None));
      user := updated.value;
    } else {
      assert store.users == store.users[user.id := user];
    }
    resp := Response(200, UserJson(user));
  }

  // --------------------------------------------------------- exchange rates

  /** The primary provider either answered 2xx with `success` and its `rates`, or failed. */
  datatype PrimaryOutcome = PrimaryRates(rates: map<string, real>) | PrimaryFailed

  /** The backup provider's JSON, each top-level key mapped to its entries in order, or a failure. */
  datatype BackupOutcome = BackupJson(data: map<string, seq<(string, real)>>) | BackupFailed

  /** The `forEach` that re-keys the backup rates with upper-case currency codes. */
  method UppercaseRates(entries: seq<(string, real)>) returns (rates: map<string, real>)
    ensures forall i :: 0 <= i < |entries| ==> Upper(entries[i].0) in rates
    ensures forall code :: code in rates ==> exists i :: 0 <= i < |entries| && Upper(entries[i].0) == code
    ensures forall i :: 0 <= i < |entries| && LastWithCode(entries, i) ==> rates[Upper(entries[i].0)] == entries[i].1
  {
    rates := map[];
    var n := 0;
    while n < |entries|
      invariant 0 <= n <= |entries|
      invariant forall i :: 0 <= i < n ==> Upper(entries[i].0) in rates
      invariant forall code :: code in rates ==> exists i :: 0 <= i < n && Upper(entries[i].0) == code
      invariant forall i :: 0 <= i < n && LastWithCodeBefore(entries, i, n) ==> rates[Upper(entries[i].0)] == entries[i].1
    {
      rates := rates[Upper(entries[n].0) := entries[n].1];
      n := n + 1;
    }
  }

  /** No later entry is upper-cased to the same code as entry `i` (so entry `i` is the one that stays). */
  predicate LastWithCode(entries: seq<(string, real)>, i: int)
    requires 0 <= i < |entries|
  {
    LastWithCodeBefore(entries, i, |entries|)
  }

  predicate LastWithCodeBefore(entries: seq<(string, real)>, i: int, n: int)
    requires 0 <= i < |entries| && n <= |entries|
  {
    forall j :: i < j < n ==> Upper(entries[j].0) != Upper(entries[i].0)
  }

  /**
   * The lower-case names every parsed JSON object inherits: `constructor` (the
   * function `Object`) and `__proto__` (`Object.prototype`). Both are truthy and
   * have no enumerable own entries.
   */
  const InheritedLowerNames: set<string> := {"constructor", "__proto__"}

  /**
   * GET /api/exchange-rates/:base: primary provider, then the backup, then 500.
   * `backupData[base.toLowerCase()]` is a property read, so a base naming an
   * inherited member finds that member and is answered with an empty table.
   */
  method ExchangeRates(base: string, primary: PrimaryOutcome, backup: BackupOutcome) returns (resp: Response)
    ensures primary.PrimaryRates? ==> resp == Response(200, RatesJson(primary.rates))
    ensures primary.PrimaryFailed? && backup.BackupJson? && Lower(base) in backup.data ==>
              resp.status == 200 && resp.body.RatesJson?
              && (forall e :: e in backup.data[Lower(base)] ==> Upper(e.0) in resp.body.rates)
              && (forall code :: code in resp.body.rates ==> exists e :: e in backup.data[Lower(base)] && Upper(e.0) == code)
              && (forall i :: 0 <= i < |backup.data[Lower(base)]| && LastWithCode(backup.data[Lower(base)], i) ==>
                    resp.body.rates[Upper(backup.data[Lower(base)][i].0)] == backup.data[Lower(base)][i].1)
    ensures primary.PrimaryFailed? && backup.BackupJson? && Lower(base) !in backup.data
            && Lower(base) in InheritedLowerNames ==>
              resp == Response(200, RatesJson(map[]))
    ensures primary.PrimaryFailed? && (backup.BackupFailed? || (Lower(base) !in backup.data
                                                                && Lower(base) !in InheritedLowerNames)) ==>
              resp == Response(500, ErrorJson("Failed to fetch exchange rates"))
  {
    if primary.PrimaryRates? {
      return Response(200, RatesJson(primary.rates));
    }
    if backup.BackupJson? && Lower(base) !in backup.data && Lower(base) in InheritedLowerNames {
      return Response(200, RatesJson(map[]));
    }
    if backup.BackupJson? && Lower(base) in backup.data {
      var entries := backup.data[Lower(base)];
      var rates := UppercaseRates(entries);
      forall e | e in entries ensures Upper(e.0) in rates {
        var i :| 0 <= i < |entries| && entries[i] == e;
      }
      return Response(200, RatesJson(rates));
    }
    resp := Response(500, ErrorJson("Failed to fetch exchange rates"));
  }

  // ------------------------------------------------------------ conversions

  /** GET /api/conversions. A NaN user id matches no row. */
  method GetConversions(store: MemStorage, header: Option<string>) returns (resp: Response)
    requires store.Valid()
    ensures ReadCaller(header).Anonymous? ==> resp == AuthRequired
    ensures ReadCaller(header) == Caller(None) ==> resp == Response(200, ConversionsJson([]))
    ensures ReadCaller(header).Caller? && ReadCaller(header).userId.Some? ==>
              resp == Response(200, ConversionsJson(store.GetConversions(ReadCaller(header).userId.value)))
  {
    var caller := ReadCaller(header);
    if caller.Anonymous? {
      return AuthRequired;
    }
    if caller.userId.None? {
      return Response(200, ConversionsJson([]));
    }
    resp := Response(200, ConversionsJson(store.GetConversions(caller.userId.value)));
  }

  /** GET /api/conversions/count. */
  method GetConversionsCount(store: MemStorage, header: Option<string>) returns (resp: Response)
    requires store.Valid()
    ensures ReadCaller(header).Anonymous? ==> resp == AuthRequired
    ensures ReadCaller(header) == Caller(None) ==> resp == Response(200, CountJson(0))
    ensures ReadCaller(header).Caller? && ReadCaller(header).userId.Some? ==>
              resp == Response(200, CountJson(|store.GetConversions(ReadCaller(header).userId.value)|))
  {
    var caller := ReadCaller(header);
    if caller.Anonymous? {
      return AuthRequired;
    }
    if caller.userId.None? {
      return Response(200, CountJson(0));
    }
    resp := Response(200, CountJson(store.GetConversionsCount(caller.userId.value)));
  }

  /** POST /api/conversions: the header's user id replaces any `userId` in the body. */
  method PostConversion(store: MemStorage, header: Option<string>, body: ConversionBody, now: nat)
    returns (resp: Response)
    requires store.Valid()
    modifies store
    ensures store.Valid()
    ensures ReadCaller(header).Anonymous? ==> resp == AuthRequired && unchanged(store)
    ensures ReadCaller(header).Caller? && ParseInsertConversion(body, ReadCaller(header).userId).None? ==>
              resp == Response(500, MessageJson("Failed to save conversion")) && unchanged(store)
    ensures ReadCaller(header).Caller? && ParseInsertConversion(body, ReadCaller(header).userId).Some? ==>
              var c := NewConversion(ParseInsertConversion(body, ReadCaller(header).userId).value,
                                     old(store.currentConversionId), now);
              && c.userId == ReadCaller(header).userId
              && store.conversions == old(store.conversions)[c.id := c]
              && store.currentConversionId == old(store.currentConversionId) + 1
              && resp == Response(200, ConversionJson(c))
    ensures store.users == old(store.users) && store.favorites == old(store.favorites)
    ensures store.currentUserId == old(store.currentUserId) && store.currentFavoriteId == old(store.currentFavoriteId)
  {
    var caller := ReadCaller(header);
    if caller.Anonymous? {
      return AuthRequired;
    }
    var data := ParseInsertConversion(body, caller.userId);
    if data.None? {
      return Response(500, MessageJson("Failed to save conversion"));
    }
    var conversion := store.CreateConversion(data.value, now);
    resp := Response(200, ConversionJson(conversion));
  }

  /** DELETE /api/conversions: clear the caller's history and nobody else's. */
  method DeleteConversions(store: MemStorage, header: Option<string>) returns (resp: Response)
    requires store.Valid()
    modifies store
    ensures store.Valid()
    ensures ReadCaller(header).Anonymous? ==> resp == AuthRequired && unchanged(store)
    ensures ReadCaller(header) == Caller(None) ==>
              resp == Response(200, MessageJson("Conversion history cleared")) && unchanged(store)
    ensures ReadCaller(header).Caller? && ReadCaller(header).userId.Some? ==>
              resp == Response(200, MessageJson("Conversion history cleared"))
              && store.conversions == map k | k in old(store.conversions)
                                        && old(store.conversions)[k].userId != ReadCaller(header).userId
                                        :: old(store.conversions)[k]
    ensures store.users == old(store.users) && store.favorites == old(store.favorites)
    ensures store.currentUserId == old(store.currentUserId)
    ensures store.currentConversionId == old(store.currentConversionId)
    ensures store.currentFavoriteId == old(store.currentFavoriteId)
  {
    var caller := ReadCaller(header);
    if caller.Anonymous? {
      return AuthRequired;
    }
    if caller.userId.Some? {
      store.DeleteUserConversions(caller.userId.value);
    }
    resp := Response(200, MessageJson("Conversion history cleared"));
  }

  // -------------------------------------------------------------- favourites

  /** GET /api/favorites. */
  method GetFavorites(store: MemStorage, header: Option<string>) returns (resp: Response)
    requires store.Valid()
    ensures ReadCaller(header).Anonymous? ==> resp == AuthRequired
    ensures ReadCaller(header) == Caller(None) ==> resp == Response(200, FavoritesJson([]))
    ensures ReadCaller(header).Caller? && ReadCaller(header).userId.Some? ==>
              resp == Response(200, FavoritesJson(store.GetFavorites(ReadCaller(header).userId.value)))
  {
    var caller := ReadCaller(header);
    if caller.Anonymous? {
      return AuthRequired;
    }
    if caller.userId.None? {
      return Response(200, FavoritesJson([]));
    }
    resp := Response(200, FavoritesJson(store.GetFavorites(caller.userId.value)));
  }

  /** Whether the caller already has a favourite with the body's type and units (`existing`). */
  function ExistingFavorite(store: MemStorage, userId: Option<int>, body: FavoriteBody): (r: Option<Favorite>)
    reads store
    requires store.Valid()
    ensures r.Some? ==> userId.Some? && body.kind.Some? && body.fromUnit.Some? && body.toUnit.Some?
                        && r.value.id in store.favorites && store.favorites[r.value.id] == r.value
                        && SameFavorite(r.value, userId.value, body.kind.value, body.fromUnit.value, body.toUnit.value)
    ensures r.None? && userId.Some? && body.kind.Some? && body.fromUnit.Some? && body.toUnit.Some? ==>
              forall k :: k in store.favorites ==>
                !SameFavorite(store.favorites[k], userId.value, body.kind.value, body.fromUnit.value, body.toUnit.value)
  {
    if userId.Some? && body.kind.Some? && body.fromUnit.Some? && body.toUnit.Some?
    then store.GetFavoriteByUserAndUnits(userId.value, body.kind.value, body.fromUnit.value, body.toUnit.value)
    else None
  }

  /** POST /api/favorites: 409 for a duplicate, otherwise create with the header's user id. */
  method PostFavorite(store: MemStorage, header: Option<string>, body: FavoriteBody, now: nat)
    returns (resp: Response)
    requires store.Valid()
    modifies store
    ensures store.Valid()
    ensures ReadCaller(header).Anonymous? ==> resp == AuthRequired && unchanged(store)
    ensures ReadCaller(header).Caller? && old(ExistingFavorite(store, ReadCaller(header).userId, body)).Some? ==>
              resp == Response(409, MessageJson("Favorite already exists")) && unchanged(store)
    ensures ReadCaller(header).Caller? && old(ExistingFavorite(store, ReadCaller(header).userId, body)).None?
            && ParseInsertFavorite(body, ReadCaller(header).userId).None? ==>
              resp == Response(500, MessageJson("Failed to save favorite")) && unchanged(store)
    ensures ReadCaller(header).Caller? && old(ExistingFavorite(store, ReadCaller(header).userId, body)).None?
            && ParseInsertFavorite(body, ReadCaller(header).userId).Some? ==>
              var f := NewFavorite(ParseInsertFavorite(body, ReadCaller(header).userId).value,
                                   old(store.currentFavoriteId), now);
              && Some(f.userId) == ReadCaller(header).userId
              && store.favorites == old(store.favorites)[f.id := f]
              && store.currentFavoriteId == old(store.currentFavoriteId) + 1
              && resp == Response(200, FavoriteJson(f))
    ensures store.users == old(store.users) && store.conversions == old(store.conversions)
    ensures store.currentUserId == old(store.currentUserId)
    ensures store.currentConversionId == old(store.currentConversionId)
  {
    var caller := ReadCaller(header);
    if caller.Anonymous? {
      return AuthRequired;
    }
    var existing := ExistingFavorite(store, caller.userId, body);
    if existing.Some? {
      return Response(409, MessageJson("Favorite already exists"));
    }
    var data := ParseInsertFavorite(body, caller.userId);
    if data.None? {
      return Response(500, MessageJson("Failed to save favorite"));
    }
    var favorite := store.CreateFavorite(data.value, now);
    resp := Response(200, FavoriteJson(favorite));
  }

  /** DELETE /api/favorites/:id: no header check; deletes by id whoever owns it. */
  method DeleteFavorite(store: MemStorage, id: string) returns (resp: Response)
    requires store.Valid()
    modifies store
    ensures store.Valid()
    ensures resp == Response(200, MessageJson("Favorite removed"))
    ensures ParseInt(id).Some? ==> store.favorites == old(store.favorites) - {ParseInt(id).value}
    ensures ParseInt(id).None? ==> store.favorites == old(store.favorites)
    ensures store.users == old(store.users) && store.conversions == old(store.conversions)
    ensures store.currentUserId == old(store.currentUserId)
    ensures store.currentConversionId == old(store.currentConversionId)
    ensures store.currentFavoriteId == old(store.currentFavoriteId)
  {
    var key := ParseInt(id);
    if key.Some? {
      store.DeleteFavorite(key.value);
    }
    resp := Response(200, MessageJson("Favorite removed"));
  }

  /**
   * A second identical favourite request from a caller the header identifies
   * (for instance the numeral of a user id, `ReadCallerOfNumeral`) is refused
   * with 409 and creates nothing.
   */
  method DuplicateFavoriteIsRefused(store: MemStorage, header: Option<string>, body: FavoriteBody, now: nat)
    returns (first: Response, second: Response)
    requires store.Valid()
    requires ReadCaller(header).Caller? && ReadCaller(header).userId.Some?
    requires body.kind.Some? && body.fromUnit.Some? && body.toUnit.Some?
    modifies store
    ensures first.status == 200 || first.status == 409
    ensures second == Response(409, MessageJson("Favorite already exists"))
    ensures first.status == 200 ==> |store.favorites| == |old(store.favorites)| + 1
    ensures first.status == 409 ==> store.favorites == old(store.favorites)
  {
    var userId := ReadCaller(header).userId.value;
    first := PostFavorite(store, header, body, now);
    if first.status == 200 {
      var f := first.body.favorite;
      assert f.id in store.favorites && store.favorites[f.id] == f;
      assert SameFavorite(f, userId, body.kind.value, body.fromUnit.value, body.toUnit.value);
    }
    second := PostFavorite(store, header, body, now);
  }
}
