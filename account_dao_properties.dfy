/** Properties of the account data-access object: what an update may and
    may not write, the set semantics of follow/like, the frame of every
    mutation, and the round trips between mutations and queries. */
module AccountDAOProperties {
  import opened Wrappers
  import opened Documents
  import opened Store
  import opened AccountDAO

  /** An assigned field (other than the identifier) reads back as
      assigned. */
  lemma AssignedFieldReads(a: Account, fields: map<string, Value>, key: string)
    requires CheckUpdate(SetFields(fields)).None?
    requires key in fields && key != "_id"
    ensures Field(Apply(a, SetFields(fields)), key) == Some(fields[key])
  {
    if IsListKey(key) {
      assert CastListField(fields, key).None?;
      assert StringsValue(CastStrings(fields[key]).value) == fields[key];
    } else {
      assert key in PlainFields(fields);
    }
  }

  /** A field that is not assigned keeps its value. */
  lemma UnassignedFieldKept(a: Account, fields: map<string, Value>, key: string)
    requires CheckUpdate(SetFields(fields)).None?
    requires key !in fields
    ensures Field(Apply(a, SetFields(fields)), key) == Field(a, key)
  {
    assert key !in PlainFields(fields);
  }

  /** The effect of an assignment: every assigned field (other than the
      identifier) reads back as assigned, every other field is unchanged. */
  lemma AssignmentEffect(a: Account, fields: map<string, Value>)
    requires CheckUpdate(SetFields(fields)).None?
    ensures var r := Apply(a, SetFields(fields));
            && r.id == a.id
            && (forall key :: key in fields && key != "_id" ==> Field(r, key) == Some(fields[key]))
            && (forall key :: key !in fields ==> Field(r, key) == Field(a, key))
  {
    forall key | key in fields && key != "_id" ensures Field(Apply(a, SetFields(fields)), key) == Some(fields[key]) {
      AssignedFieldReads(a, fields, key);
    }
    forall key | key !in fields ensures Field(Apply(a, SetFields(fields)), key) == Field(a, key) {
      UnassignedFieldKept(a, fields, key);
    }
  }

  /** An update writes only whitelisted fields and `updatedAt`: every other
      field keeps its value, so does every field the caller did not send,
      the whitelisted fields sent take the caller's values, and `updatedAt`
      is always the stamp, whatever the caller sent for it. */
  lemma {:induction false} UpdateWritesOnlyWhitelisted(a: Account, updateData: Value, now: int)
    requires CheckUpdate(SetFields(Sanitized(updateData, now))).None?
    ensures var r := Apply(a, SetFields(Sanitized(updateData, now)));
            && r.id == a.id
            && (forall key :: key !in ALLOWED_UPDATES && key != "updatedAt" ==> Field(r, key) == Field(a, key))
            && (forall key :: key != "updatedAt" && !(updateData.Obj? && key in updateData.fields) ==>
                  Field(r, key) == Field(a, key))
            && Field(r, "updatedAt") == Some(Time(now))
            && (forall key :: updateData.Obj? && key in updateData.fields && key in ALLOWED_UPDATES ==>
                  Field(r, key) == Some(updateData.fields[key]))
  {
    forall key | key !in ALLOWED_UPDATES && key != "updatedAt"
      ensures Field(Apply(a, SetFields(Sanitized(updateData, now))), key) == Field(a, key)
    {
      NotWritten(a, updateData, now, key);
    }
    forall key | key != "updatedAt" && !(updateData.Obj? && key in updateData.fields)
      ensures Field(Apply(a, SetFields(Sanitized(updateData, now))), key) == Field(a, key)
    {
      UnsentKept(a, updateData, now, key);
    }
    StampWritten(a, updateData, now);
    forall key | updateData.Obj? && key in updateData.fields && key in ALLOWED_UPDATES
      ensures Field(Apply(a, SetFields(Sanitized(updateData, now))), key) == Some(updateData.fields[key])
    {
      WhitelistedWritten(a, updateData, now, key);
    }
  }

  /** A field the caller did not send, other than `updatedAt`, is never
      written by `update`, even when it is whitelisted. */
  lemma UnsentKept(a: Account, updateData: Value, now: int, key: string)
    requires CheckUpdate(SetFields(Sanitized(updateData, now))).None?
    requires key != "updatedAt" && !(updateData.Obj? && key in updateData.fields)
    ensures Field(Apply(a, SetFields(Sanitized(updateData, now))), key) == Field(a, key)
  {
    UnassignedFieldKept(a, Sanitized(updateData, now), key);
  }

  /** `updatedAt` is always the stamp after `update`. */
  lemma StampWritten(a: Account, updateData: Value, now: int)
    requires CheckUpdate(SetFields(Sanitized(updateData, now))).None?
    ensures Field(Apply(a, SetFields(Sanitized(updateData, now))), "updatedAt") == Some(Time(now))
  {
    AssignedFieldReads(a, Sanitized(updateData, now), "updatedAt");
  }

  /** A whitelisted field the caller sends is written as sent. */
  lemma WhitelistedWritten(a: Account, updateData: Value, now: int, key: string)
    requires CheckUpdate(SetFields(Sanitized(updateData, now))).None?
    requires updateData.Obj? && key in updateData.fields && key in ALLOWED_UPDATES
    ensures Field(Apply(a, SetFields(Sanitized(updateData, now))), key) == Some(updateData.fields[key])
  {
    var sanitized := Sanitized(updateData, now);
    assert "_id" !in ALLOWED_UPDATES;
    AssignedFieldReads(a, sanitized, key);
  }

  /** A field outside the whitelist, other than `updatedAt`, is never
      written by `update`. */
  lemma NotWritten(a: Account, updateData: Value, now: int, key: string)
    requires CheckUpdate(SetFields(Sanitized(updateData, now))).None?
    requires key !in ALLOWED_UPDATES && key != "updatedAt"
    ensures Field(Apply(a, SetFields(Sanitized(updateData, now))), key) == Field(a, key)
  {
    UnassignedFieldKept(a, Sanitized(updateData, now), key);
  }

  /** The password, the role, the artist link and the identifier are never
      written by `update`, whatever the caller sends. */
  lemma ProtectedFieldsKept(a: Account, updateData: Value, now: int)
    requires CheckUpdate(SetFields(Sanitized(updateData, now))).None?
    ensures var r := Apply(a, SetFields(Sanitized(updateData, now)));
            && Field(r, "password") == Field(a, "password")
            && Field(r, "role") == Field(a, "role")
            && Field(r, "artistId") == Field(a, "artistId")
            && Field(r, "_id") == Field(a, "_id")
  {
    assert "password" !in ALLOWED_UPDATES && "role" !in ALLOWED_UPDATES;
    assert "artistId" !in ALLOWED_UPDATES && "_id" !in ALLOWED_UPDATES;
    NotWritten(a, updateData, now, "password");
    NotWritten(a, updateData, now, "role");
    NotWritten(a, updateData, now, "artistId");
    NotWritten(a, updateData, now, "_id");
  }

  /** An update whose payload is not a plain object changes only
      `updatedAt`. */
  lemma {:induction false} NonObjectUpdateOnlyStamps(a: Account, updateData: Value, now: int)
    requires !updateData.Obj?
    ensures CheckUpdate(SetFields(Sanitized(updateData, now))).None?
    ensures var r := Apply(a, SetFields(Sanitized(updateData, now)));
            && Field(r, "updatedAt") == Some(Time(now))
            && forall key :: key != "updatedAt" ==> Field(r, key) == Field(a, key)
  {
    assert forall key :: IsListKey(key) ==> key !in Sanitized(updateData, now);
    AssignmentEffect(a, Sanitized(updateData, now));
  }

  /** The payload `update(id, { password: "x", username: "y" })` sends. */
  lemma PasswordPayloadSanitized(now: int)
    ensures Sanitized(Obj(map["password" := Str("x"), "username" := Str("y")]), now)
            == map["username" := Str("y"), "updatedAt" := Time(now)]
  {
    var payload := Obj(map["password" := Str("x"), "username" := Str("y")]);
    var sanitized := Sanitized(payload, now);
    assert sanitized.Keys == {"username", "updatedAt"} by {
      assert "username" in sanitized;
      forall key | key in sanitized ensures key == "username" || key == "updatedAt" {
        if key != "updatedAt" { assert key in payload.fields; }
      }
    }
  }

  /** `update(id, { password: "x", username: "y" })` on an existing account
      changes the username and the stamp only. */
  lemma {:induction false} PasswordPayloadIgnored(a: Account, now: int)
    ensures var u := SetFields(Sanitized(Obj(map["password" := Str("x"), "username" := Str("y")]), now));
            && CheckUpdate(u).None?
            && Field(Apply(a, u), "password") == Field(a, "password")
            && Field(Apply(a, u), "username") == Some(Str("y"))
            && forall key :: key != "username" && key != "updatedAt" ==> Field(Apply(a, u), key) == Field(a, key)
  {
    PasswordPayloadSanitized(now);
    var fields := map["username" := Str("y"), "updatedAt" := Time(now)];
    assert fields.Keys == {"username", "updatedAt"};
    assert CheckUpdate(SetFields(fields)).None?;
    AssignmentEffect(a, fields);
  }

  /** The whitelist lets a caller write `following` with repeated entries,
      so through `update` the list is not kept duplicate-free. */
  lemma UpdateMayRepeatFollowing(a: Account, now: int)
    ensures var payload := Obj(map["following" := Arr([Str("x"), Str("x")])]);
            var u := SetFields(Sanitized(payload, now));
            CheckUpdate(u).None? && Apply(a, u).following == ["x", "x"]
  {
    var payload := Obj(map["following" := Arr([Str("x"), Str("x")])]);
    var sanitized := Sanitized(payload, now);
    assert sanitized["following"] == Arr([Str("x"), Str("x")]);
    assert StringsValue(["x", "x"]) == Arr([Str("x"), Str("x")]);
    CastStringsValue(["x", "x"]);
  }

  /** `$pull` distributes over concatenation: the surviving elements keep
      their relative order. */
  lemma {:induction false} RemoveAllAppend(s: seq<string>, t: seq<string>, x: string)
    ensures RemoveAll(s + t, x) == RemoveAll(s, x) + RemoveAll(t, x)
    decreases |s|
  {
    if s == [] {
      assert s + t == t;
    } else {
      assert (s + t)[1..] == s[1..] + t;
      RemoveAllAppend(s[1..], t, x);
    }
  }

  /** A second `$pull` of the same element changes nothing. */
  lemma RemoveAllIdempotent(s: seq<string>, x: string)
    ensures RemoveAll(RemoveAll(s, x), x) == RemoveAll(s, x)
  {
  }

  /** The effect of `$addToSet`: the element is present afterwards, it is
      added at most once, the list is untouched if it was already there, and
      no other field changes. */
  lemma AddToSetEffect(a: Account, f: ListField, x: string)
    ensures var r := Apply(a, AddToSet(f, x));
            && x in Items(r, f)
            && Items(r, f)[..|Items(a, f)|] == Items(a, f)
            && multiset(Items(r, f))[x] == (if x in Items(a, f) then multiset(Items(a, f))[x] else 1)
            && (x in Items(a, f) ==> r == a)
            && forall key :: key != ListKey(f) ==> Field(r, key) == Field(a, key)
  {
    var s := Items(a, f);
    if x !in s {
      assert multiset(s)[x] == 0;
      assert multiset(s + [x]) == multiset(s) + multiset{x};
    }
  }

  /** The effect of `$pull`: no occurrence of the element is left, the
      others stay, the list is untouched if the element was absent, and no
      other field changes. */
  lemma PullEffect(a: Account, f: ListField, x: string)
    ensures var r := Apply(a, Pull(f, x));
            && x !in Items(r, f)
            && (forall y :: y in Items(r, f) <==> y in Items(a, f) && y != x)
            && (x !in Items(a, f) ==> r == a)
            && forall key :: key != ListKey(f) ==> Field(r, key) == Field(a, key)
  {
  }

  /** `$addToSet` keeps a duplicate-free list duplicate-free. */
  lemma AddToSetKeepsNoDuplicates(a: Account, f: ListField, x: string)
    requires NoDuplicates(Items(a, f))
    ensures NoDuplicates(Items(Apply(a, AddToSet(f, x)), f))
  {
    var s := Items(a, f);
    if x !in s {
      var r := s + [x];
      forall i, j | 0 <= i < j < |r| ensures r[i] != r[j] {
        if j == |s| { assert r[i] == s[i]; assert s[i] in s; }
        else { assert r[i] == s[i] && r[j] == s[j]; }
      }
    }
  }

  /** `$pull` keeps a duplicate-free list duplicate-free. */
  lemma PullKeepsNoDuplicates(a: Account, f: ListField, x: string)
    requires NoDuplicates(Items(a, f))
    ensures NoDuplicates(Items(Apply(a, Pull(f, x)), f))
  {
    RemoveAllKeepsNoDuplicates(Items(a, f), x);
  }

  /** `followArtist`/`likeTrack` twice is the same as once: the second call
      returns the same document and leaves the same collection. */
  lemma {:induction false} AddToSetTwiceIsOnce(c: Collection, id: Id, f: ListField, x: string)
    ensures var once := FindByIdAndUpdate(c, id, AddToSet(f, x));
            FindByIdAndUpdate(once.after, id, AddToSet(f, x)) == once
  {
    var once := FindByIdAndUpdate(c, id, AddToSet(f, x));
    if id in c.accounts {
      var a := once.reply.value.value;
      AddToSetEffect(a, f, x);
      assert once.after.accounts[id := a] == once.after.accounts;
    }
  }

  /** `unfollowArtist`/`unlikeTrack` twice is the same as once. */
  lemma {:induction false} PullTwiceIsOnce(c: Collection, id: Id, f: ListField, x: string)
    ensures var once := FindByIdAndUpdate(c, id, Pull(f, x));
            FindByIdAndUpdate(once.after, id, Pull(f, x)) == once
  {
    var once := FindByIdAndUpdate(c, id, Pull(f, x));
    if id in c.accounts {
      var a := once.reply.value.value;
      PullEffect(a, f, x);
      assert once.after.accounts[id := a] == once.after.accounts;
    }
  }

  /** Unfollowing an artist the account does not follow still returns the
      account, unchanged, and changes nothing. */
  lemma PullAbsentReturnsDocument(c: Collection, id: Id, f: ListField, x: string)
    requires id in c.accounts && x !in Items(c.accounts[id], f)
    ensures FindByIdAndUpdate(c, id, Pull(f, x)) == Step(Ok(Some(c.accounts[id])), c)
  {
    PullEffect(c.accounts[id], f, x);
    assert c.accounts[id := c.accounts[id]] == c.accounts;
  }

  /** `linkToArtist` sets `artistId` and `updatedAt` and nothing else. */
  lemma {:induction false} ArtistLinkEffect(a: Account, artistId: Value, now: int)
    ensures var r := Apply(a, ArtistLink(artistId, now));
            && r.id == a.id
            && Field(r, "artistId") == Some(artistId)
            && "artistId" in r.attrs
            && Field(r, "updatedAt") == Some(Time(now))
            && forall key :: key != "artistId" && key != "updatedAt" ==> Field(r, key) == Field(a, key)
  {
    var fields := map["artistId" := artistId, "updatedAt" := Time(now)];
    assert fields.Keys == {"artistId", "updatedAt"};
    AssignmentEffect(a, fields);
  }

  /** Once linked to an artist, an account is no longer listed among the
      bands without an artist, whatever it was before. */
  lemma {:induction false} LinkedAccountLeavesUnlinkedBands(c: Collection, id: Id, artistId: Value, now: int)
    requires Valid(c) && id in c.accounts
    ensures var s := FindByIdAndUpdate(c, id, ArtistLink(artistId, now));
            && s.reply.Ok? && s.reply.value.Some?
            && s.reply.value.value !in FindBandsWithoutArtist(s.after)
  {
    ArtistLinkEffect(c.accounts[id], artistId, now);
  }

  /** Creating an account and then finding it by its identifier gives back
      the created account, with every provided attribute as provided and
      every other field at its default. */
  lemma {:induction false} CreateThenFindById(c: Collection, isValid: Id -> bool, id: Id, data: map<string, Value>)
    requires Valid(c) && isValid(id)
    requires Insert(c, id, data).reply.Ok?
    ensures var s := Insert(c, id, data);
            && FindById(s.after, isValid, id) == Some(s.reply.value)
            && (forall key :: key in data && key != "_id" ==> Field(s.reply.value, key) == Some(data[key]))
            && (forall key :: key !in data && key != "_id" ==> Field(s.reply.value, key) == Field(Blank(id), key))
  {
    AssignmentEffect(Blank(id), data);
  }

  /** A band created without an `artistId` has no such field at all, so it
      is listed among the bands without an artist. */
  lemma {:induction false} CreatedBandIsUnlinked(c: Collection, id: Id, data: map<string, Value>)
    requires Valid(c)
    requires Insert(c, id, data).reply.Ok?
    requires "artistId" !in data && "role" in data && data["role"] == Str("band")
    ensures var s := Insert(c, id, data);
            && "artistId" !in s.reply.value.attrs
            && s.reply.value in FindBandsWithoutArtist(s.after)
  {
    var s := Insert(c, id, data);
    AssignmentEffect(Blank(id), data);
    assert Field(s.reply.value, "artistId") == None;
    assert Field(s.reply.value, "role") == Some(Str("band"));
  }

  /** After `delete`, the account is gone and every other account is as it
      was. */
  lemma DeleteThenFindById(c: Collection, isValid: Id -> bool, id: Id, other: Id)
    requires isValid(id)
    ensures var s := FindByIdAndDelete(c, id);
            && FindById(s.after, isValid, id).None?
            && (other != id ==> FindById(s.after, isValid, other) == FindById(c, isValid, other))
  {
  }

  /** An update reads back through `findById`: the returned document is the
      stored one. */
  lemma UpdateThenFindById(c: Collection, isValid: Id -> bool, id: Id, u: Update)
    requires isValid(id)
    ensures var s := FindByIdAndUpdate(c, id, u);
            s.reply.Ok? ==> FindById(s.after, isValid, id) == s.reply.value
  {
  }
}
