/** The account data-access object: the update whitelist and sanitiser, the
    guarded queries, and the guarded single-document mutations. */
module AccountDAO {
  import opened Wrappers
  import opened Documents
  import opened Store

  /** The only fields a generic update may write; `password`, `role`,
      `artistId` and `_id` are left out on purpose. */
  const ALLOWED_UPDATES: set<string> := {
    "username", "profileImage", "bannerImage", "bio", "socialLinks",
    "bandName", "genre", "website", "followers", "purchaseHistory",
    "likedTracks", "following", "email"
  }

  /** `value && typeof value === 'object'`: objects, arrays and dates. */
  predicate IsObject(v: Value) {
    v.Obj? || v.Arr? || v.Time?
  }

  const DIGITS: string := "0123456789"

  /** The decimal spelling of an array index, as `Object.keys` gives it. */
  function Decimal(n: nat): (r: string)
    ensures |r| > 0 && r[0] in DIGITS
    decreases n
  {
    if n < 10 then [DIGITS[n]] else Decimal(n / 10) + [DIGITS[n % 10]]
  }

  /** `Object.keys(value)`: the field names of an object, the indices of an
      array, nothing for a date or a primitive. */
  function OwnKeys(v: Value): set<string> {
    match v
    case Obj(fields) => fields.Keys
    case Arr(items) => set i | 0 <= i < |items| :: Decimal(i)
    case _ => {}
  }

  /** The own keys of an object are its field names, those of an array are
      digit strings, and a date or a primitive has none. */
  lemma OwnKeysShape(v: Value)
    ensures v.Obj? ==> OwnKeys(v) == v.fields.Keys
    ensures v.Arr? ==> forall key :: key in OwnKeys(v) ==> |key| > 0 && key[0] in DIGITS
    ensures !v.Obj? && !v.Arr? ==> OwnKeys(v) == {}
  {
  }

  /** Every whitelisted name starts with a letter. */
  lemma AllowedStartWithLetter(key: string)
    requires key in ALLOWED_UPDATES
    ensures |key| > 0 && key[0] !in DIGITS
  {
  }

  /** No array index is a whitelisted name: each starts with a digit. */
  lemma IndexKeysNotAllowed(v: Value)
    ensures !v.Obj? ==> forall key :: key in OwnKeys(v) ==> key !in ALLOWED_UPDATES
  {
    OwnKeysShape(v);
    forall key | !v.Obj? && key in OwnKeys(v) ensures key !in ALLOWED_UPDATES {
      if key in ALLOWED_UPDATES {
        AllowedStartWithLetter(key);
      }
    }
  }

  /** `value[key]` for a key read by the sanitiser; only objects have
      whitelisted keys, so the other cases are never read. */
  function Property(v: Value, key: string): Value {
    if v.Obj? && key in v.fields then v.fields[key] else Null
  }

  /** The payload `update` sends: the caller's whitelisted fields, unchanged,
      and `updatedAt` stamped with `now`. */
  function Sanitized(updateData: Value, now: int): (r: map<string, Value>)
    ensures forall key :: key in r ==> key in ALLOWED_UPDATES || key == "updatedAt"
    ensures forall key :: key in r && key != "updatedAt" ==> updateData.Obj? && key in updateData.fields
    ensures forall key :: updateData.Obj? && key in updateData.fields && key in ALLOWED_UPDATES ==>
              key in r && r[key] == updateData.fields[key]
    ensures "updatedAt" in r && r["updatedAt"] == Time(now)
    ensures !updateData.Obj? ==> r == map["updatedAt" := Time(now)]
  {
    IndexKeysNotAllowed(updateData);
    var copied :=
      if IsObject(updateData) then
        map key | key in OwnKeys(updateData) && key in ALLOWED_UPDATES :: Property(updateData, key)
      else map[];
    assert !updateData.Obj? ==> copied == map[];
    copied["updatedAt" := Time(now)]
  }

  /** A map holding exactly the whitelisted own properties of `v` is the
      copy that `Sanitized` builds. */
  lemma CopiedFields(m: map<string, Value>, v: Value)
    requires forall key :: key in m <==> key in OwnKeys(v) && key in ALLOWED_UPDATES
    requires forall key :: key in m ==> m[key] == Property(v, key)
    ensures m == map key | key in OwnKeys(v) && key in ALLOWED_UPDATES :: Property(v, key)
  {
  }

  /** The sanitiser loop of `update`: walks the caller's keys and copies the
      whitelisted ones into a fresh map, then stamps `updatedAt`. */
  method Sanitize(updateData: Value, now: int) returns (sanitized: map<string, Value>)
    ensures sanitized == Sanitized(updateData, now)
  {
    sanitized := map[];
    if IsObject(updateData) {
      var keys := OwnKeys(updateData);
      ghost var seen: set<string> := {};
      while keys != {}
        invariant keys + seen == OwnKeys(updateData) && keys !! seen
        invariant forall key :: key in sanitized <==> key in seen && key in ALLOWED_UPDATES
        invariant forall key :: key in sanitized ==> sanitized[key] == Property(updateData, key)
        decreases keys
      {
        var key :| key in keys;
        if key in ALLOWED_UPDATES {
          sanitized := sanitized[key := Property(updateData, key)];
        }
        keys := keys - {key};
        seen := seen + {key};
      }
      CopiedFields(sanitized, updateData);
    }
    sanitized := sanitized["updatedAt" := Time(now)];
  }

  /** The assignment `linkToArtist` sends. */
  function ArtistLink(artistId: Value, now: int): (u: Update)
    ensures CheckUpdate(u).None?
  {
    SetFields(map["artistId" := artistId, "updatedAt" := Time(now)])
  }

  /** `findByEmail`: `null` for an empty or non-string e-mail, otherwise
      the first account whose `email` matches. */
  function FindByEmail(c: Collection, email: Value): (r: Option<Account>)
    requires Valid(c)
    ensures !email.Str? || email.s == "" ==> r.None?
    ensures r.Some? ==> Stored(c, r.value) && Holds(r.value, Equals("email", email))
    ensures email.Str? && email.s != "" ==>
              (r.None? <==> forall id :: id in c.accounts ==> !Holds(c.accounts[id], Equals("email", email)))
  {
    if !email.Str? || email.s == "" then None
    else
      var r := FindOne(c, [Equals("email", email)]);
      assert forall a :: Matches(a, [Equals("email", email)]) <==> Holds(a, Equals("email", email)) by {
        forall a ensures Matches(a, [Equals("email", email)]) <==> Holds(a, Equals("email", email)) {
          MatchesSingle(a, Equals("email", email));
        }
      }
      r
  }

  /** `findById`: `null` for an identifier that is not well formed. */
  function FindById(c: Collection, isValid: Id -> bool, id: Id): (r: Option<Account>)
    ensures r.Some? <==> isValid(id) && id in c.accounts
    ensures r.Some? ==> r.value == c.accounts[id]
  {
    if !isValid(id) then None
    else if id in c.accounts then Some(c.accounts[id])
    else None
  }

  /** `findByRole`: every account whose `role` matches `role`. */
  function FindByRole(c: Collection, role: string): (r: seq<Account>)
    requires Valid(c)
    ensures forall a :: a in r <==> Stored(c, a) && Holds(a, Equals("role", Str(role)))
    ensures forall i, j :: 0 <= i < j < |r| ==> r[i].id != r[j].id
  {
    var filter := [Equals("role", Str(role))];
    var r := Find(c, filter);
    assert forall a :: Matches(a, filter) <==> Holds(a, filter[0]) by {
      forall a ensures Matches(a, filter) <==> Holds(a, filter[0]) {
        MatchesSingle(a, filter[0]);
      }
    }
    r
  }

  /** `findBandsWithoutArtist`: every band account that has no `artistId`
      field at all (a `null` artistId is a field). */
  function FindBandsWithoutArtist(c: Collection): (r: seq<Account>)
    requires Valid(c)
    ensures forall a :: a in r <==>
              Stored(c, a) && Holds(a, Equals("role", Str("band"))) && "artistId" !in a.attrs
    ensures forall i, j :: 0 <= i < j < |r| ==> r[i].id != r[j].id
  {
    var filter := [Equals("role", Str("band")), Missing("artistId")];
    var r := Find(c, filter);
    assert forall a :: Matches(a, filter) <==> Holds(a, filter[0]) && Holds(a, filter[1]) by {
      forall a ensures Matches(a, filter) <==> Holds(a, filter[0]) && Holds(a, filter[1]) {
        if Holds(a, filter[0]) && Holds(a, filter[1]) {
          forall i | 0 <= i < |filter| ensures Holds(a, filter[i]) { assert i == 0 || i == 1; }
        }
      }
    }
    r
  }

  /** The data-access object over one account collection. */
  class AccountDao {
    /** `mongoose.Types.ObjectId.isValid`, applied to `String(id)`. */
    const isValid: Id -> bool
    /** The account collection. */
    var table: Collection

    ghost predicate Valid()
      reads this
    {
      Store.Valid(table)
    }

    constructor (isValid: Id -> bool, initial: Collection)
      requires Store.Valid(initial)
      ensures Valid()
      ensures this.isValid == isValid && table == initial
    {
      this.isValid := isValid;
      table := initial;
    }

    /** `create`: saves a new account under the identifier it is assigned. */
    method Create(id: Id, accountData: map<string, Value>) returns (r: Result<Account, StoreError>)
      requires Valid()
      modifies this
      ensures Valid()
      ensures Step(r, table) == Insert(old(table), id, accountData)
    {
      var s := Insert(table, id, accountData);
      table := s.after;
      r := s.reply;
    }

    /** `update`: `null` for a malformed identifier; otherwise the sanitised
        payload is assigned to the account, which is returned as updated. */
    method Update(id: Id, updateData: Value, now: int) returns (r: Result<Option<Account>, StoreError>)
      requires Valid()
      modifies this
      ensures Valid()
      ensures !isValid(id) ==> r == Ok(None) && table == old(table)
      ensures isValid(id) ==>
                Step(r, table) == FindByIdAndUpdate(old(table), id, SetFields(Sanitized(updateData, now)))
    {
      if !isValid(id) {
        return Ok(None);
      }
      var sanitized := Sanitize(updateData, now);
      var s := FindByIdAndUpdate(table, id, SetFields(sanitized));
      table := s.after;
      r := s.reply;
    }

    /** The guarded `findByIdAndUpdate` shared by the mutations that cannot
        fail their cast. */
    method GuardedUpdate(id: Id, u: Update) returns (r: Option<Account>)
      requires Valid() && CheckUpdate(u).None?
      modifies this
      ensures Valid()
      ensures !isValid(id) ==> r.None? && table == old(table)
      ensures isValid(id) ==> Step(Ok(r), table) == FindByIdAndUpdate(old(table), id, u)
    {
      if !isValid(id) {
        return None;
      }
      var s := FindByIdAndUpdate(table, id, u);
      table := s.after;
      r := s.reply.value;
    }

    /** `linkToArtist`: sets `artistId` and `updatedAt`. */
    method LinkToArtist(accountId: Id, artistId: Value, now: int) returns (r: Option<Account>)
      requires Valid()
      modifies this
      ensures Valid()
      ensures !isValid(accountId) ==> r.None? && table == old(table)
      ensures isValid(accountId) ==>
                Step(Ok(r), table) == FindByIdAndUpdate(old(table), accountId, ArtistLink(artistId, now))
    {
      r := GuardedUpdate(accountId, ArtistLink(artistId, now));
    }

    /** `followArtist`: `$addToSet` on `following`. */
    method FollowArtist(userId: Id, artistId: string) returns (r: Option<Account>)
      requires Valid()
      modifies this
      ensures Valid()
      ensures !isValid(userId) ==> r.None? && table == old(table)
      ensures isValid(userId) ==>
                Step(Ok(r), table) == FindByIdAndUpdate(old(table), userId, AddToSet(Following, artistId))
      ensures r.Some? ==> artistId in r.value.following
    {
      r := GuardedUpdate(userId, AddToSet(Following, artistId));
    }

    /** `unfollowArtist`: `$pull` on `following`. */
    method UnfollowArtist(userId: Id, artistId: string) returns (r: Option<Account>)
      requires Valid()
      modifies this
      ensures Valid()
      ensures !isValid(userId) ==> r.None? && table == old(table)
      ensures isValid(userId) ==>
                Step(Ok(r), table) == FindByIdAndUpdate(old(table), userId, Pull(Following, artistId))
      ensures r.Some? ==> artistId !in r.value.following
    {
      r := GuardedUpdate(userId, Pull(Following, artistId));
    }

    /** `likeTrack`: `$addToSet` on `likedTracks`. */
    method LikeTrack(userId: Id, trackId: string) returns (r: Option<Account>)
      requires Valid()
      modifies this
      ensures Valid()
      ensures !isValid(userId) ==> r.None? && table == old(table)
      ensures isValid(userId) ==>
                Step(Ok(r), table) == FindByIdAndUpdate(old(table), userId, AddToSet(LikedTracks, trackId))
      ensures r.Some? ==> trackId in r.value.likedTracks
    {
      r := GuardedUpdate(userId, AddToSet(LikedTracks, trackId));
    }

    /** `unlikeTrack`: `$pull` on `likedTracks`. */
    method UnlikeTrack(userId: Id, trackId: string) returns (r: Option<Account>)
      requires Valid()
      modifies this
      ensures Valid()
      ensures !isValid(userId) ==> r.None? && table == old(table)
      ensures isValid(userId) ==>
                Step(Ok(r), table) == FindByIdAndUpdate(old(table), userId, Pull(LikedTracks, trackId))
      ensures r.Some? ==> trackId !in r.value.likedTracks
    {
      r := GuardedUpdate(userId, Pull(LikedTracks, trackId));
    }

    /** `delete`: removes the account and returns it. */
    method Delete(id: Id) returns (r: Option<Account>)
      requires Valid()
      modifies this
      ensures Valid()
      ensures !isValid(id) ==> r.None? && table == old(table)
      ensures isValid(id) ==> Step(r, table) == FindByIdAndDelete(old(table), id)
    {
      if !isValid(id) {
        return None;
      }
      var s := FindByIdAndDelete(table, id);
      table := s.after;
      r := s.reply;
    }
  }
}
