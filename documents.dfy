/** Values and account documents as the account data-access layer handles
    them, and the effect of the three MongoDB update forms it sends: a plain
    field assignment (`$set`), `$addToSet` and `$pull` on a string array. */
module Documents {
  import opened Wrappers

  /** A value held in a document field or passed in by a caller. `Null`
      also stands for JavaScript's `undefined`; `Time` is a `Date`. */
  datatype Value =
    | Null
    | Bool(b: bool)
    | Num(n: int)
    | Str(s: string)
    | Time(ms: int)
    | Arr(items: seq<Value>)
    | Obj(fields: map<string, Value>)

  /** An account identifier, in the string form `String(id)` that the
      layer checks before every identifier-keyed call. */
  type Id = string

  /** One stored account. `following` and `likedTracks` are the string
      arrays updated with `$addToSet` and `$pull`; every other field of the
      document (email, username, role, password, artistId, updatedAt, ...)
      is held in `attrs`. */
  datatype Account = Account(
    id: Id,
    attrs: map<string, Value>,
    following: seq<string>,
    likedTracks: seq<string>)

  /** The two string-array fields. */
  datatype ListField = Following | LikedTracks

  function ListKey(f: ListField): string {
    match f
    case Following => "following"
    case LikedTracks => "likedTracks"
  }

  predicate IsListKey(key: string) {
    key == "following" || key == "likedTracks"
  }

  function Items(a: Account, f: ListField): seq<string> {
    match f
    case Following => a.following
    case LikedTracks => a.likedTracks
  }

  /** The account with list field `f` replaced by `s`. */
  function WithItems(a: Account, f: ListField, s: seq<string>): (r: Account)
    ensures Items(r, f) == s
    ensures r.id == a.id && r.attrs == a.attrs
    ensures forall g :: g != f ==> Items(r, g) == Items(a, g)
  {
    match f
    case Following => a.(following := s)
    case LikedTracks => a.(likedTracks := s)
  }

  /** A string array as a stored value. */
  function StringsValue(s: seq<string>): (r: Value)
    ensures r.Arr? && |r.items| == |s|
    ensures forall i :: 0 <= i < |s| ==> r.items[i] == Str(s[i])
  {
    Arr(seq(|s|, i requires 0 <= i < |s| => Str(s[i])))
  }

  /** The account seen as a document: the value of field `key`, if any. */
  function Field(a: Account, key: string): Option<Value> {
    if key == "_id" then Some(Str(a.id))
    else if key == "following" then Some(StringsValue(a.following))
    else if key == "likedTracks" then Some(StringsValue(a.likedTracks))
    else if key in a.attrs then Some(a.attrs[key])
    else None
  }

  /** Casting array items to strings: succeeds exactly when every item is a
      string, and then keeps every item. */
  function CastItems(items: seq<Value>): (r: Option<seq<string>>)
    ensures r.Some? <==> forall i :: 0 <= i < |items| ==> items[i].Str?
    ensures r.Some? ==> |r.value| == |items| && forall i :: 0 <= i < |items| ==> items[i] == Str(r.value[i])
    decreases |items|
  {
    if items == [] then Some([])
    else if !items[0].Str? then None
    else
      match CastItems(items[1..])
      case None => None
      case Some(rest) => Some([items[0].s] + rest)
  }

  /** Casting a value to a string array field: succeeds exactly on arrays
      of strings, and then gives back the same array. */
  function CastStrings(v: Value): (r: Option<seq<string>>)
    ensures r.Some? <==> v.Arr? && forall i :: 0 <= i < |v.items| ==> v.items[i].Str?
    ensures r.Some? ==> StringsValue(r.value) == v
  {
    match v
    case Arr(items) =>
      var r := CastItems(items);
      assert r.Some? ==> StringsValue(r.value).items == items;
      r
    case _ => None
  }

  /** A stored string array casts back to itself. */
  lemma CastStringsValue(s: seq<string>)
    ensures CastStrings(StringsValue(s)) == Some(s)
  {
    var r := CastStrings(StringsValue(s));
    assert r.Some?;
    var t := r.value;
    assert StringsValue(t) == StringsValue(s);
    assert |t| == |s|;
    forall i | 0 <= i < |s| ensures t[i] == s[i] {
      assert StringsValue(t).items[i] == Str(t[i]);
      assert StringsValue(s).items[i] == Str(s[i]);
    }
    assert t == s;
  }

  /** `$addToSet`: appends `x` unless it is already present. */
  function InsertIfAbsent(s: seq<string>, x: string): (r: seq<string>)
    ensures x in r
    ensures forall y :: y in r <==> y in s || y == x
    ensures x in s ==> r == s
    ensures |s| <= |r| <= |s| + 1 && r[..|s|] == s
  {
    if x in s then s else s + [x]
  }

  /** `$pull`: removes every element equal to `x`, keeping the others in
      their order. */
  function RemoveAll(s: seq<string>, x: string): (r: seq<string>)
    ensures forall y :: y in r <==> y in s && y != x
    ensures multiset(r) == multiset(s)[x := 0]
    ensures |r| <= |s|
    ensures x !in s ==> r == s
    decreases |s|
  {
    if s == [] then []
    else
      var rest := RemoveAll(s[1..], x);
      assert s == [s[0]] + s[1..];
      assert multiset(s) == multiset{s[0]} + multiset(s[1..]);
      if s[0] == x then rest
      else
        assert multiset([s[0]] + rest) == multiset{s[0]} + multiset(rest);
        [s[0]] + rest
  }

  /** The update documents the layer passes to `findByIdAndUpdate`. */
  datatype Update =
    | SetFields(fields: map<string, Value>)
    | AddToSet(field: ListField, item: string)
    | Pull(field: ListField, item: string)

  /** Errors raised by the store and passed on unchanged. */
  datatype StoreError = CastError(path: string) | DuplicateKey(id: Id)

  /** Casting the value assigned to one list field, if any. */
  function CastListField(fields: map<string, Value>, key: string): Option<StoreError> {
    if key in fields && CastStrings(fields[key]).None? then Some(CastError(key)) else None
  }

  /** The cast performed on an update before it is sent: only an assignment
      to a list field of something other than an array of strings fails. */
  function CheckUpdate(u: Update): (r: Option<StoreError>)
    ensures r.Some? <==> u.SetFields? && exists key :: IsListKey(key) && CastListField(u.fields, key).Some?
    ensures r.Some? ==> r.value.CastError? && IsListKey(r.value.path) && r.value.path in u.fields
  {
    match u
    case SetFields(fields) =>
      if CastListField(fields, "following").Some? then CastListField(fields, "following")
      else CastListField(fields, "likedTracks")
    case _ => None
  }

  /** The non-list part of an assignment. */
  function PlainFields(fields: map<string, Value>): map<string, Value> {
    map key | key in fields && !IsListKey(key) :: fields[key]
  }

  /** A list field after an assignment: the cast value if assigned. */
  function AssignedList(fields: map<string, Value>, key: string, current: seq<string>): seq<string>
    requires CastListField(fields, key).None?
  {
    if key in fields then CastStrings(fields[key]).value else current
  }

  /** The document after one update that passed its cast. */
  function Apply(a: Account, u: Update): (r: Account)
    requires CheckUpdate(u).None?
    ensures r.id == a.id
  {
    match u
    case SetFields(fields) =>
      Account(a.id, a.attrs + PlainFields(fields),
              AssignedList(fields, "following", a.following),
              AssignedList(fields, "likedTracks", a.likedTracks))
    case AddToSet(f, x) => WithItems(a, f, InsertIfAbsent(Items(a, f), x))
    case Pull(f, x) => WithItems(a, f, RemoveAll(Items(a, f), x))
  }
}
