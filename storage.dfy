/**
 * The server's in-memory persistence store: three maps keyed by
 * auto-incrementing ids, one id counter per entity, user-scoped listing,
 * bulk delete of a user's conversions, and lookups by exact field match.
 *
 * A JavaScript `Map` iterates in insertion order. Ids only grow and an
 * update rewrites an existing key in place, so insertion order is ascending
 * id order; "the first match in iteration order" is therefore the match
 * with the smallest id, and the scans below walk the ids upwards.
 * `new Date()` is the `now` parameter of the create methods.
 */
module Storage {
  import opened Common
  import opened Schema

  /** The smallest key in [lo, hi) of `m` whose value satisfies `p` (a `find`). */
  function FindFirst<T>(m: map<int, T>, lo: int, hi: int, p: T -> bool): (r: Option<int>)
    ensures r.Some? ==> lo <= r.value < hi && r.value in m && p(m[r.value])
    ensures r.Some? ==> forall k :: lo <= k < r.value && k in m ==> !p(m[k])
    ensures r.None? <==> forall k :: lo <= k < hi && k in m ==> !p(m[k])
    decreases hi - lo
  {
    if lo >= hi then None
    else if lo in m && p(m[lo]) then Some(lo)
    else FindFirst(m, lo + 1, hi, p)
  }

  /** The keys in [lo, hi) of `m` whose values satisfy `p`, each once, in ascending order. */
  function MatchingKeys<T>(m: map<int, T>, lo: int, hi: int, p: T -> bool): (ks: seq<int>)
    ensures forall i :: 0 <= i < |ks| ==> lo <= ks[i] < hi && ks[i] in m && p(m[ks[i]])
    ensures forall k :: lo <= k < hi && k in m && p(m[k]) ==> k in ks
    ensures forall i, j :: 0 <= i < j < |ks| ==> ks[i] < ks[j]
    decreases hi - lo
  {
    if lo >= hi then []
    else if lo in m && p(m[lo]) then [lo] + MatchingKeys(m, lo + 1, hi, p)
    else MatchingKeys(m, lo + 1, hi, p)
  }

  /** The values of `m` at keys [lo, hi) that satisfy `p`, in ascending key order (a `filter`). */
  function Collect<T>(m: map<int, T>, lo: int, hi: int, p: T -> bool): (r: seq<T>)
    ensures |r| == |MatchingKeys(m, lo, hi, p)|
    ensures forall i :: 0 <= i < |r| ==> MatchingKeys(m, lo, hi, p)[i] in m && r[i] == m[MatchingKeys(m, lo, hi, p)[i]]
    ensures forall x :: x in r ==> p(x) && exists k :: lo <= k < hi && k in m && m[k] == x
    ensures forall k :: lo <= k < hi && k in m && p(m[k]) ==> m[k] in r
    decreases hi - lo
  {
    if lo >= hi then []
    else if lo in m && p(m[lo]) then [m[lo]] + Collect(m, lo + 1, hi, p)
    else Collect(m, lo + 1, hi, p)
  }

  /** When every value carries its own key, each matching value is collected exactly once. */
  lemma {:induction false} CollectHasEachOnce<T>(m: map<int, T>, lo: int, hi: int, p: T -> bool, id: T -> int, k: int)
    requires forall j :: j in m ==> id(m[j]) == j
    requires lo <= k < hi && k in m && p(m[k])
    ensures multiset(Collect(m, lo, hi, p))[m[k]] == 1
    decreases hi - lo
  {
    if lo == k {
      CollectedOnceAtHead(m, lo, hi, p, id);
    } else {
      CollectHasEachOnce(m, lo + 1, hi, p, id, k);
      CollectKeepsOtherCounts(m, lo, hi, p, id, k);
    }
  }

  lemma CollectedOnceAtHead<T>(m: map<int, T>, lo: int, hi: int, p: T -> bool, id: T -> int)
    requires forall j :: j in m ==> id(m[j]) == j
    requires lo < hi && lo in m && p(m[lo])
    ensures multiset(Collect(m, lo, hi, p))[m[lo]] == 1
  {
    KeyNotCollectedAbove(m, lo + 1, hi, p, id, lo);
    CollectHead(m, lo, hi, p);
    OneMore(m[lo], Collect(m, lo + 1, hi, p), m[lo]);
  }

  /** The key `lo` adds nothing to the count of the value at a larger key. */
  lemma CollectKeepsOtherCounts<T>(m: map<int, T>, lo: int, hi: int, p: T -> bool, id: T -> int, k: int)
    requires forall j :: j in m ==> id(m[j]) == j
    requires lo < k < hi && k in m
    ensures multiset(Collect(m, lo, hi, p))[m[k]] == multiset(Collect(m, lo + 1, hi, p))[m[k]]
  {
    if lo in m && p(m[lo]) {
      assert id(m[lo]) == lo;
      CollectHead(m, lo, hi, p);
      OneMore(m[lo], Collect(m, lo + 1, hi, p), m[k]);
    } else {
      CollectSkip(m, lo, hi, p);
    }
  }

  /** Putting `x` in front adds one occurrence of `x` and none of anything else. */
  lemma OneMore<T>(x: T, s: seq<T>, y: T)
    ensures multiset([x] + s)[y] == (if x == y then 1 else 0) + multiset(s)[y]
  {
  }

  /** A value whose key lies below the range is not collected. */
  lemma KeyNotCollectedAbove<T>(m: map<int, T>, lo: int, hi: int, p: T -> bool, id: T -> int, k: int)
    requires forall j :: j in m ==> id(m[j]) == j
    requires k < lo && k in m
    ensures m[k] !in Collect(m, lo, hi, p)
  {
  }

  lemma CollectHead<T>(m: map<int, T>, lo: int, hi: int, p: T -> bool)
    requires lo < hi && lo in m && p(m[lo])
    ensures Collect(m, lo, hi, p) == [m[lo]] + Collect(m, lo + 1, hi, p)
  {
  }

  lemma CollectSkip<T>(m: map<int, T>, lo: int, hi: int, p: T -> bool)
    requires lo < hi && !(lo in m && p(m[lo]))
    ensures Collect(m, lo, hi, p) == Collect(m, lo + 1, hi, p)
  {
  }

  /** How many keys in [lo, hi) of `m` have a value satisfying `p` (`filter(...).length`). */
  function CountWhere<T>(m: map<int, T>, lo: int, hi: int, p: T -> bool): nat
    decreases hi - lo
  {
    if lo >= hi then 0
    else if lo in m && p(m[lo]) then 1 + CountWhere(m, lo + 1, hi, p)
    else CountWhere(m, lo + 1, hi, p)
  }

  /** The count is the length of the filtered list. */
  lemma {:induction false} CountIsCollectLength<T>(m: map<int, T>, lo: int, hi: int, p: T -> bool)
    ensures CountWhere(m, lo, hi, p) == |Collect(m, lo, hi, p)|
    decreases hi - lo
  {
    if lo < hi { CountIsCollectLength(m, lo + 1, hi, p); }
  }

  /** Sorting keeps the length, so the count of a user's rows equals the length of their listing. */
  lemma SortedListingLength<T>(m: map<int, T>, lo: int, hi: int, p: T -> bool, key: T -> int)
    ensures |SortDesc(Collect(m, lo, hi, p), key)| == CountWhere(m, lo, hi, p)
  {
    var s := Collect(m, lo, hi, p);
    assert |multiset(SortDesc(s, key))| == |multiset(s)|;
    CountIsCollectLength(m, lo, hi, p);
  }

  function ConversionId(c: Conversion): int { c.id }
  function FavoriteId(f: Favorite): int { f.id }
  function ConversionCreated(c: Conversion): int { c.createdAt }
  function FavoriteCreated(f: Favorite): int { f.createdAt }

  /** `conversion.userId === userId`. */
  function ConversionOf(userId: int): Conversion -> bool { (c: Conversion) => c.userId == Some(userId) }

  /** `favorite.userId === userId`. */
  function FavoriteOf(userId: int): Favorite -> bool { (f: Favorite) => f.userId == userId }

  /** The user's conversions with an id below `bound` removed, the others kept. */
  ghost function DroppedBelow(m: map<int, Conversion>, userId: int, bound: int): map<int, Conversion>
  {
    map k | k in m && (k >= bound || m[k].userId != Some(userId)) :: m[k]
  }

  /** One more step of the deletion loop removes at most the entry at `id`. */
  lemma DropOneMore(m: map<int, Conversion>, userId: int, id: int)
    ensures id in DroppedBelow(m, userId, id) && m[id].userId == Some(userId) ==>
              DroppedBelow(m, userId, id + 1) == DroppedBelow(m, userId, id) - {id}
    ensures !(id in DroppedBelow(m, userId, id) && m[id].userId == Some(userId)) ==>
              DroppedBelow(m, userId, id + 1) == DroppedBelow(m, userId, id)
  {
  }

  class MemStorage {
    var users: map<int, User>
    var conversions: map<int, Conversion>
    var favorites: map<int, Favorite>
    var currentUserId: int
    var currentConversionId: int
    var currentFavoriteId: int

    /** Every stored id is below its counter, counters start at 1, and each row carries its own key. */
    ghost predicate Valid()
      reads this
    {
      && 1 <= currentUserId && 1 <= currentConversionId && 1 <= currentFavoriteId
      && (forall k :: k in users ==> 1 <= k < currentUserId && users[k].id == k)
      && (forall k :: k in conversions ==> 1 <= k < currentConversionId && conversions[k].id == k)
      && (forall k :: k in favorites ==> 1 <= k < currentFavoriteId && favorites[k].id == k)
    }

    constructor ()
      ensures Valid()
      ensures users == map[] && conversions == map[] && favorites == map[]
      ensures currentUserId == 1 && currentConversionId == 1 && currentFavoriteId == 1
    {
      users, conversions, favorites := map[], map[], map[];
      currentUserId, currentConversionId, currentFavoriteId := 1, 1, 1;
    }

    function GetUser(id: int): (r: Option<User>)
      reads this
      ensures r.Some? <==> id in users
      ensures r.Some? ==> r.value == users[id]
    {
      if id in users then Some(users[id]) else None
    }

    /** The first user, in insertion order, with this email. */
    function GetUserByEmail(email: string): (r: Option<User>)
      reads this
      requires Valid()
      ensures r.None? <==> forall k :: k in users ==> users[k].email != email
      ensures r.Some? ==> r.value.id in users && users[r.value.id] == r.value && r.value.email == email
      ensures r.Some? ==> forall k :: k in users && k < r.value.id ==> users[k].email != email
    {
      var k := FindFirst(users, 1, currentUserId, (u: User) => u.email == email);
      if k.Some? then Some(users[k.value]) else None
    }

    /** The first user, in insertion order, with this identity-provider uid. */
    function GetUserByFirebaseUid(uid: string): (r: Option<User>)
      reads this
      requires Valid()
      ensures r.None? <==> forall k :: k in users ==> users[k].firebaseUid != uid
      ensures r.Some? ==> r.value.id in users && users[r.value.id] == r.value && r.value.firebaseUid == uid
      ensures r.Some? ==> forall k :: k in users && k < r.value.id ==> users[k].firebaseUid != uid
    {
      var k := FindFirst(users, 1, currentUserId, (u: User) => u.firebaseUid == uid);
      if k.Some? then Some(users[k.value]) else None
    }

    method CreateUser(u: InsertUser, now: nat) returns (r: User)
      requires Valid()
      modifies this
      ensures Valid()
      ensures r == NewUser(u, old(currentUserId), now)
      ensures r.id !in old(users) && forall k :: k in old(users) ==> k < r.id
      ensures currentUserId == old(currentUserId) + 1
      ensures users == old(users)[r.id := r]
      ensures GetUser(r.id) == Some(r)
      ensures conversions == old(conversions) && favorites == old(favorites)
      ensures currentConversionId == old(currentConversionId) && currentFavoriteId == old(currentFavoriteId)
    {
      var id := currentUserId;
      currentUserId := currentUserId + 1;
      r := NewUser(u, id, now);
      users := users[id := r];
    }

    /** `{ ...user, ...updates }` stored back under the same id; a missing id changes nothing. */
    method UpdateUser(id: int, updates: UserPatch) returns (r: Option<User>)
      requires Valid()
      modifies this
      ensures Valid()
      ensures id !in old(users) ==> r.None? && users == old(users)
      ensures id in old(users) ==> r == Some(ApplyPatch(old(users)[id], updates))
                                   && users == old(users)[id := r.value]
      ensures conversions == old(conversions) && favorites == old(favorites)
      ensures currentUserId == old(currentUserId) && currentConversionId == old(currentConversionId)
      ensures currentFavoriteId == old(currentFavoriteId)
    {
      if id !in users {
        return None;
      }
      var updated := ApplyPatch(users[id], updates);
      users := users[id := updated];
      r := Some(updated);
    }

    /** A user's conversions, newest first. */
    function GetConversions(userId: int): (r: seq<Conversion>)
      reads this
      requires Valid()
      ensures SortedDesc(r, ConversionCreated)
      ensures forall c :: c in r ==> c.userId == Some(userId) && c.id in conversions && conversions[c.id] == c
      ensures forall k :: k in conversions && conversions[k].userId == Some(userId) ==> conversions[k] in r
      ensures multiset(r) == multiset(Collect(conversions, 1, currentConversionId, ConversionOf(userId)))
      ensures forall k :: k in conversions && conversions[k].userId == Some(userId) ==> multiset(r)[conversions[k]] == 1
    {
      var matching := Collect(conversions, 1, currentConversionId, ConversionOf(userId));
      forall k | k in conversions && conversions[k].userId == Some(userId)
        ensures multiset(matching)[conversions[k]] == 1
      {
        CollectHasEachOnce(conversions, 1, currentConversionId, ConversionOf(userId), ConversionId, k);
      }
      SortKeepsElements(matching, ConversionCreated);
      SortDesc(matching, ConversionCreated)
    }

    function GetConversionsCount(userId: int): (n: nat)
      reads this
      requires Valid()
      ensures n == |GetConversions(userId)|
    {
      var p := ConversionOf(userId);
      SortedListingLength(conversions, 1, currentConversionId, p, ConversionCreated);
      CountWhere(conversions, 1, currentConversionId, p)
    }

    method CreateConversion(c: InsertConversion, now: nat) returns (r: Conversion)
      requires Valid()
      modifies this
      ensures Valid()
      ensures r == NewConversion(c, old(currentConversionId), now)
      ensures r.id !in old(conversions) && forall k :: k in old(conversions) ==> k < r.id
      ensures currentConversionId == old(currentConversionId) + 1
      ensures conversions == old(conversions)[r.id := r]
      ensures users == old(users) && favorites == old(favorites)
      ensures currentUserId == old(currentUserId) && currentFavoriteId == old(currentFavoriteId)
    {
      var id := currentConversionId;
      currentConversionId := currentConversionId + 1;
      r := NewConversion(c, id, now);
      conversions := conversions[id := r];
    }

    /** Delete, while iterating over the map, every conversion of `userId`. */
    method DeleteUserConversions(userId: int)
      requires Valid()
      modifies this
      ensures Valid()
      ensures conversions == map k | k in old(conversions) && old(conversions)[k].userId != Some(userId)
                               :: old(conversions)[k]
      ensures forall c :: c in conversions.Values ==> c.userId != Some(userId)
      ensures users == old(users) && favorites == old(favorites)
      ensures currentUserId == old(currentUserId) && currentConversionId == old(currentConversionId)
      ensures currentFavoriteId == old(currentFavoriteId)
    {
      // Entries are visited in insertion order, which is ascending id order.
      var id := 1;
      while id < currentConversionId
        invariant Valid()
        invariant conversions == DroppedBelow(old(conversions), userId, id)
        invariant users == old(users) && favorites == old(favorites)
        invariant currentUserId == old(currentUserId) && currentConversionId == old(currentConversionId)
        invariant currentFavoriteId == old(currentFavoriteId)
      {
        DropOneMore(old(conversions), userId, id);
        if id in conversions && conversions[id].userId == Some(userId) {
          conversions := conversions - {id};
        }
        id := id + 1;
      }
    }

    /** A user's favourites, newest first. */
    function GetFavorites(userId: int): (r: seq<Favorite>)
      reads this
      requires Valid()
      ensures SortedDesc(r, FavoriteCreated)
      ensures forall f :: f in r ==> f.userId == userId && f.id in favorites && favorites[f.id] == f
      ensures forall k :: k in favorites && favorites[k].userId == userId ==> favorites[k] in r
      ensures multiset(r) == multiset(Collect(favorites, 1, currentFavoriteId, FavoriteOf(userId)))
      ensures forall k :: k in favorites && favorites[k].userId == userId ==> multiset(r)[favorites[k]] == 1
    {
      var matching := Collect(favorites, 1, currentFavoriteId, FavoriteOf(userId));
      forall k | k in favorites && favorites[k].userId == userId
        ensures multiset(matching)[favorites[k]] == 1
      {
        CollectHasEachOnce(favorites, 1, currentFavoriteId, FavoriteOf(userId), FavoriteId, k);
      }
      SortKeepsElements(matching, FavoriteCreated);
      SortDesc(matching, FavoriteCreated)
    }

    method CreateFavorite(f: InsertFavorite, now: nat) returns (r: Favorite)
      requires Valid()
      modifies this
      ensures Valid()
      ensures r == NewFavorite(f, old(currentFavoriteId), now)
      ensures r.id !in old(favorites) && forall k :: k in old(favorites) ==> k < r.id
      ensures currentFavoriteId == old(currentFavoriteId) + 1
      ensures favorites == old(favorites)[r.id := r]
      ensures users == old(users) && conversions == old(conversions)
      ensures currentUserId == old(currentUserId) && currentConversionId == old(currentConversionId)
    {
      var id := currentFavoriteId;
      currentFavoriteId := currentFavoriteId + 1;
      r := NewFavorite(f, id, now);
      favorites := favorites[id := r];
    }

    /** Remove one favourite by id; a missing id is a no-op. */
    method DeleteFavorite(id: int)
      requires Valid()
      modifies this
      ensures Valid()
      ensures favorites == old(favorites) - {id}
      ensures id !in old(favorites) ==> favorites == old(favorites)
      ensures users == old(users) && conversions == old(conversions)
      ensures currentUserId == old(currentUserId) && currentConversionId == old(currentConversionId)
      ensures currentFavoriteId == old(currentFavoriteId)
    {
      favorites := favorites - {id};
    }

    /** The first favourite, in insertion order, matching all four fields. */
    function GetFavoriteByUserAndUnits(userId: int, kind: string, fromUnit: string, toUnit: string): (r: Option<Favorite>)
      reads this
      requires Valid()
      ensures r.None? <==> forall k :: k in favorites ==> !SameFavorite(favorites[k], userId, kind, fromUnit, toUnit)
      ensures r.Some? ==> r.value.id in favorites && favorites[r.value.id] == r.value
                          && SameFavorite(r.value, userId, kind, fromUnit, toUnit)
    {
      var k := FindFirst(favorites, 1, currentFavoriteId,
                         (f: Favorite) => SameFavorite(f, userId, kind, fromUnit, toUnit));
      if k.Some? then Some(favorites[k.value]) else None
    }
  }

  predicate SameFavorite(f: Favorite, userId: int, kind: string, fromUnit: string, toUnit: string)
  {
    f.userId == userId && f.kind == kind && f.fromUnit == fromUnit && f.toUnit == toUnit
  }
}
