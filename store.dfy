/** The account collection behind the data-access layer, reduced to the
    store calls the layer makes: lookup and update by identifier, delete by
    identifier, insert, and queries by a field filter. */
module Store {
  import opened Wrappers
  import opened Documents

  /** The stored accounts by identifier, and their insertion order. The
      model's queries list documents in that order; MongoDB itself promises
      no order without a sort, and no contract here depends on it. */
  datatype Collection = Collection(accounts: map<Id, Account>, order: seq<Id>)

  ghost predicate NoDuplicates(s: seq<Id>) {
    forall i, j :: 0 <= i < j < |s| ==> s[i] != s[j]
  }

  /** Every stored account is listed once in the insertion order and is
      stored under its own identifier. */
  ghost predicate Valid(c: Collection) {
    && NoDuplicates(c.order)
    && (forall id :: id in c.accounts <==> id in c.order)
    && (forall id :: id in c.accounts ==> c.accounts[id].id == id)
  }

  /** `a` is the document stored under its identifier. */
  ghost predicate Stored(c: Collection, a: Account) {
    a.id in c.accounts && c.accounts[a.id] == a
  }

  /** What a store call answers, and the collection after it. */
  datatype Step<R> = Step(reply: R, after: Collection)

  lemma {:induction false} NoDuplicatesTail(s: seq<Id>)
    requires s != [] && NoDuplicates(s)
    ensures s[0] !in s[1..] && NoDuplicates(s[1..])
  {
    forall j | 0 <= j < |s[1..]| ensures s[1..][j] != s[0] {
      assert s[1..][j] == s[j + 1];
    }
  }

  lemma {:induction false} NoDuplicatesCons(x: Id, t: seq<Id>)
    requires x !in t && NoDuplicates(t)
    ensures NoDuplicates([x] + t)
  {
    var r := [x] + t;
    forall i, j | 0 <= i < j < |r| ensures r[i] != r[j] {
      assert r[j] == t[j - 1];
      if i > 0 { assert r[i] == t[i - 1]; }
    }
  }

  lemma {:induction false} RemoveAllKeepsNoDuplicates(s: seq<Id>, x: Id)
    requires NoDuplicates(s)
    ensures NoDuplicates(RemoveAll(s, x))
    decreases |s|
  {
    if s != [] {
      NoDuplicatesTail(s);
      RemoveAllKeepsNoDuplicates(s[1..], x);
      if s[0] != x {
        NoDuplicatesCons(s[0], RemoveAll(s[1..], x));
      }
    }
  }

  /** `findByIdAndUpdate(id, u, { new: true })`: the update is cast first;
      then the document under `id`, if any, is updated and returned as it is
      afterwards. Nothing else in the collection changes. */
  function FindByIdAndUpdate(c: Collection, id: Id, u: Update): (s: Step<Result<Option<Account>, StoreError>>)
    ensures Valid(c) ==> Valid(s.after)
    ensures s.after.order == c.order && s.after.accounts.Keys == c.accounts.Keys
    ensures forall other :: other in c.accounts && other != id ==> s.after.accounts[other] == c.accounts[other]
    ensures s.reply.Err? <==> CheckUpdate(u).Some?
    ensures s.reply == Ok(None) <==> CheckUpdate(u).None? && id !in c.accounts
    ensures s.reply.Ok? && s.reply.value.Some? ==>
              id in c.accounts && s.reply.value.value == Apply(c.accounts[id], u)
              && s.after.accounts[id] == s.reply.value.value
    ensures !(s.reply.Ok? && s.reply.value.Some?) ==> s.after == c
  {
    match CheckUpdate(u)
    case Some(e) => Step(Err(e), c)
    case None =>
      if id in c.accounts then
        var a := Apply(c.accounts[id], u);
        Step(Ok(Some(a)), c.(accounts := c.accounts[id := a]))
      else
        Step(Ok(None), c)
  }

  /** `findByIdAndDelete(id)`: removes and returns the document under `id`. */
  function FindByIdAndDelete(c: Collection, id: Id): (s: Step<Option<Account>>)
    ensures Valid(c) ==> Valid(s.after)
    ensures s.reply.Some? <==> id in c.accounts
    ensures s.reply.Some? ==> s.reply.value == c.accounts[id]
    ensures s.after.accounts.Keys == c.accounts.Keys - {id}
    ensures forall other :: other in s.after.accounts ==> s.after.accounts[other] == c.accounts[other]
  {
    if id in c.accounts then
      var after := Collection(c.accounts - {id}, RemoveAll(c.order, id));
      assert Valid(c) ==> Valid(after) by {
        if Valid(c) { RemoveAllKeepsNoDuplicates(c.order, id); }
      }
      Step(Some(c.accounts[id]), after)
    else
      Step(None, c)
  }

  /** An account that has only the schema defaults: no attributes and two
      empty lists. */
  function Blank(id: Id): Account {
    Account(id, map[], [], [])
  }

  /** `new Account(data).save()` with the identifier `id` it was assigned:
      the data is cast, then the document is inserted unless its
      identifier is already taken. */
  function Insert(c: Collection, id: Id, data: map<string, Value>): (s: Step<Result<Account, StoreError>>)
    ensures Valid(c) ==> Valid(s.after)
    ensures s.reply.Ok? <==> CheckUpdate(SetFields(data)).None? && id !in c.accounts
    ensures s.reply.Ok? ==>
              && s.reply.value.id == id
              && s.after.accounts == c.accounts[id := s.reply.value]
              && s.after.order == c.order + [id]
    ensures s.reply.Ok? ==>
              forall key :: key !in data && key != "_id" ==> Field(s.reply.value, key) == Field(Blank(id), key)
    ensures s.reply.Err? ==> s.after == c
  {
    match CheckUpdate(SetFields(data))
    case Some(e) => Step(Err(e), c)
    case None =>
      if id in c.accounts then Step(Err(DuplicateKey(id)), c)
      else
        var a := Apply(Blank(id), SetFields(data));
        Step(Ok(a), Collection(c.accounts[id := a], c.order + [id]))
  }

  /** One clause of a query filter: `{ key: value }` or
      `{ key: { $exists: false } }`. */
  datatype Condition = Equals(key: string, value: Value) | Missing(key: string)

  /** MongoDB equality: the field equals the value or is an array holding
      it; a `null` value also matches a field that is not there. */
  predicate Holds(a: Account, cond: Condition) {
    match cond
    case Equals(key, v) =>
      (match Field(a, key)
       case None => v == Null
       case Some(w) => w == v || (w.Arr? && v in w.items))
    case Missing(key) => Field(a, key).None?
  }

  /** A filter document is the conjunction of its clauses. */
  predicate Matches(a: Account, filter: seq<Condition>) {
    forall i :: 0 <= i < |filter| ==> Holds(a, filter[i])
  }

  /** Equality on a string-array field is membership: `{ following: x }`
      matches exactly the accounts that follow `x`. */
  lemma ListFieldHolds(a: Account, f: ListField, x: string)
    ensures Holds(a, Equals(ListKey(f), Str(x))) <==> x in Items(a, f)
  {
    var items := StringsValue(Items(a, f)).items;
    assert Field(a, ListKey(f)) == Some(StringsValue(Items(a, f))) by {
      match f
      case Following =>
      case LikedTracks =>
    }
    if x in Items(a, f) {
      var i :| 0 <= i < |Items(a, f)| && Items(a, f)[i] == x;
      assert items[i] == Str(x);
    }
    if Str(x) in items {
      var i :| 0 <= i < |items| && items[i] == Str(x);
      assert Items(a, f)[i] == x;
    }
  }

  /** A `null` equality filter also matches a missing field, and a missing
      field matches no other value. */
  lemma MissingMatchesOnlyNull(a: Account, key: string, v: Value)
    requires Holds(a, Missing(key))
    ensures Holds(a, Equals(key, v)) <==> v == Null
  {
  }

  /** A one-clause filter is that clause. */
  lemma MatchesSingle(a: Account, cond: Condition)
    ensures Matches(a, [cond]) <==> Holds(a, cond)
  {
    assert [cond][0] == cond;
  }

  /** The matching documents among those listed in `ids`, in list order;
      each listed identifier gives at most one document. */
  function SelectFrom(ids: seq<Id>, accounts: map<Id, Account>, filter: seq<Condition>): (r: seq<Account>)
    requires forall id :: id in accounts ==> accounts[id].id == id
    requires NoDuplicates(ids)
    ensures forall a :: a in r ==> a.id in ids && a.id in accounts && accounts[a.id] == a && Matches(a, filter)
    ensures forall id :: id in ids && id in accounts && Matches(accounts[id], filter) ==> accounts[id] in r
    ensures forall i, j :: 0 <= i < j < |r| ==> r[i].id != r[j].id
    decreases |ids|
  {
    if ids == [] then []
    else
      NoDuplicatesTail(ids);
      var rest := SelectFrom(ids[1..], accounts, filter);
      assert ids == [ids[0]] + ids[1..];
      if ids[0] in accounts && Matches(accounts[ids[0]], filter) then
        var r := [accounts[ids[0]]] + rest;
        assert forall j :: 0 < j < |r| ==> r[j] == rest[j - 1] && r[j] in rest;
        r
      else rest
  }

  /** `find(filter)`: exactly the stored documents that match, each once. */
  function Find(c: Collection, filter: seq<Condition>): (r: seq<Account>)
    requires Valid(c)
    ensures forall a :: a in r <==> Stored(c, a) && Matches(a, filter)
    ensures forall i, j :: 0 <= i < j < |r| ==> r[i].id != r[j].id
  {
    SelectFrom(c.order, c.accounts, filter)
  }

  /** `findOne(filter)`: the first matching document, if there is one. */
  function FindOne(c: Collection, filter: seq<Condition>): (r: Option<Account>)
    requires Valid(c)
    ensures r.None? <==> forall id :: id in c.accounts ==> !Matches(c.accounts[id], filter)
    ensures r.Some? ==> Stored(c, r.value) && Matches(r.value, filter)
  {
    var found := Find(c, filter);
    if found == [] then None
    else
      assert found[0] in found;
      Some(found[0])
  }
}
