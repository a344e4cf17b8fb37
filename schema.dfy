/**
 * The record shapes shared by client and server: users, conversions and
 * favourites as stored rows, the insert shapes the store is given (no `id`,
 * no `createdAt`), and the checks the insert schemas perform on a request
 * body. Timestamps are milliseconds since the epoch, as natural numbers.
 */
module Schema {
  import opened Common

  /** A stored user; `email` and `firebaseUid` are meant to be unique. */
  datatype User = User(id: int, email: string, name: string, firebaseUid: string, createdAt: nat)

  /** A stored conversion; `userId` may be null, `exchangeRate` is optional. */
  datatype Conversion = Conversion(
    id: int, userId: Option<int>, kind: string, fromUnit: string, toUnit: string,
    fromValue: real, toValue: real, exchangeRate: Option<real>, createdAt: nat)

  /** A stored favourite; `userId` is required. */
  datatype Favorite = Favorite(id: int, userId: int, kind: string, fromUnit: string, toUnit: string, createdAt: nat)

  datatype InsertUser = InsertUser(email: string, name: string, firebaseUid: string)

  datatype InsertConversion = InsertConversion(
    userId: Option<int>, kind: string, fromUnit: string, toUnit: string,
    fromValue: real, toValue: real, exchangeRate: Option<real>)

  datatype InsertFavorite = InsertFavorite(userId: int, kind: string, fromUnit: string, toUnit: string)

  /** `Partial<User>` restricted to the profile fields: every field may be absent. */
  datatype UserPatch = UserPatch(email: Option<string>, name: Option<string>, firebaseUid: Option<string>)

  /** `{ ...insert, id, createdAt }` for a user. */
  function NewUser(u: InsertUser, id: int, now: nat): (r: User)
    ensures r.id == id && r.createdAt == now
    ensures InsertOfUser(r) == u
  {
    User(id, u.email, u.name, u.firebaseUid, now)
  }

  function InsertOfUser(u: User): InsertUser
  {
    InsertUser(u.email, u.name, u.firebaseUid)
  }

  /** `{ ...insert, id, createdAt }` for a conversion. */
  function NewConversion(c: InsertConversion, id: int, now: nat): (r: Conversion)
    ensures r.id == id && r.createdAt == now
    ensures InsertOfConversion(r) == c
  {
    Conversion(id, c.userId, c.kind, c.fromUnit, c.toUnit, c.fromValue, c.toValue, c.exchangeRate, now)
  }

  function InsertOfConversion(c: Conversion): InsertConversion
  {
    InsertConversion(c.userId, c.kind, c.fromUnit, c.toUnit, c.fromValue, c.toValue, c.exchangeRate)
  }

  /** `{ ...insert, id, createdAt }` for a favourite. */
  function NewFavorite(f: InsertFavorite, id: int, now: nat): (r: Favorite)
    ensures r.id == id && r.createdAt == now
    ensures InsertOfFavorite(r) == f
  {
    Favorite(id, f.userId, f.kind, f.fromUnit, f.toUnit, now)
  }

  function InsertOfFavorite(f: Favorite): InsertFavorite
  {
    InsertFavorite(f.userId, f.kind, f.fromUnit, f.toUnit)
  }

  function Pick<T>(o: Option<T>, otherwise: T): T
  {
    if o.Some? then o.value else otherwise
  }

  /** `{ ...user, ...patch }`: fields present in the patch win, all others stay. */
  function ApplyPatch(u: User, p: UserPatch): (r: User)
    ensures r.id == u.id && r.createdAt == u.createdAt
    ensures r.email == (if p.email.Some? then p.email.value else u.email)
    ensures r.name == (if p.name.Some? then p.name.value else u.name)
    ensures r.firebaseUid == (if p.firebaseUid.Some? then p.firebaseUid.value else u.firebaseUid)
  {
    User(u.id, Pick(p.email, u.email), Pick(p.name, u.name), Pick(p.firebaseUid, u.firebaseUid), u.createdAt)
  }

  /** The empty patch changes nothing. */
  lemma ApplyEmptyPatch(u: User)
    ensures ApplyPatch(u, UserPatch(None, None, None)) == u
  {
  }

  /** The table-level uniqueness of `users.firebase_uid`. */
  ghost predicate UniqueUids(users: map<int, User>)
  {
    forall i, j :: i in users && j in users && i != j ==> users[i].firebaseUid != users[j].firebaseUid
  }

  /**
   * A conversion request body as JSON gives it: any field may be missing.
   * Fields of the wrong JSON type are not modelled.
   */
  datatype ConversionBody = ConversionBody(
    userId: Option<int>, kind: Option<string>, fromUnit: Option<string>, toUnit: Option<string>,
    fromValue: Option<real>, toValue: Option<real>, exchangeRate: Option<real>)

  /** A favourite request body; any field may be missing. */
  datatype FavoriteBody = FavoriteBody(
    userId: Option<int>, kind: Option<string>, fromUnit: Option<string>, toUnit: Option<string>)

  /**
   * `insertConversionSchema.parse({ ...body, userId })` where `userId` is the
   * number parsed from the request header (`None` for NaN, which the schema
   * rejects). `None` result = the schema throws.
   */
  function ParseInsertConversion(body: ConversionBody, userId: Option<int>): (r: Option<InsertConversion>)
    ensures r.Some? <==> userId.Some? && body.kind.Some? && body.fromUnit.Some? && body.toUnit.Some?
                         && body.fromValue.Some? && body.toValue.Some?
    ensures r.Some? ==> r.value.userId == userId && r.value.exchangeRate == body.exchangeRate
                        && Some(r.value.kind) == body.kind && Some(r.value.fromUnit) == body.fromUnit
                        && Some(r.value.toUnit) == body.toUnit && Some(r.value.fromValue) == body.fromValue
                        && Some(r.value.toValue) == body.toValue
  {
    if userId.Some? && body.kind.Some? && body.fromUnit.Some? && body.toUnit.Some?
       && body.fromValue.Some? && body.toValue.Some?
    then Some(InsertConversion(userId, body.kind.value, body.fromUnit.value, body.toUnit.value,
                               body.fromValue.value, body.toValue.value, body.exchangeRate))
    else None
  }

  /** `insertFavoriteSchema.parse({ ...body, userId })`; `None` = the schema throws. */
  function ParseInsertFavorite(body: FavoriteBody, userId: Option<int>): (r: Option<InsertFavorite>)
    ensures r.Some? <==> userId.Some? && body.kind.Some? && body.fromUnit.Some? && body.toUnit.Some?
    ensures r.Some? ==> Some(r.value.userId) == userId && Some(r.value.kind) == body.kind
                        && Some(r.value.fromUnit) == body.fromUnit && Some(r.value.toUnit) == body.toUnit
  {
    if userId.Some? && body.kind.Some? && body.fromUnit.Some? && body.toUnit.Some?
    then Some(InsertFavorite(userId.value, body.kind.value, body.fromUnit.value, body.toUnit.value))
    else None
  }
}
