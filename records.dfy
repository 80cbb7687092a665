/**
  The rows both backends store, and the `findOrCreate` both registration
  routes rely on.

  The users table is a sequence: a user's id is its position plus one (the
  column is auto-incremented and no route deletes a row), and "the first row
  that matches" is the lowest id. Prizes are a map from id to row.
 */
module Records {
  import opened JsRuntime

  /** A users row: its text columns by name, and the prize it was awarded. */
  datatype User = User(attrs: map<string, string>, prizeId: Option<int>)

  /** A prizes row. */
  datatype Prize = Prize(title: string, amount: int)

  /** The two tables. */
  datatype Db = Db(users: seq<User>, prizes: map<int, Prize>)

  /** A text column of a row, None when it holds no value. */
  function Attr(u: User, key: string): Option<string> {
    if key in u.attrs then Some(u.attrs[key]) else None
  }

  /** The index of the first row whose column `key` equals `value`. */
  function FindFirst(users: seq<User>, key: string, value: Option<string>): (r: Option<nat>)
    ensures r.Some? ==> (r.value < |users| && Attr(users[r.value], key) == value
      && forall j :: 0 <= j < r.value ==> Attr(users[j], key) != value)
    ensures r.None? ==> forall j :: 0 <= j < |users| ==> Attr(users[j], key) != value
    decreases |users|
  {
    if users == [] then None
    else if Attr(users[0], key) == value then Some(0)
    else match FindFirst(users[1..], key, value)
      case None => None
      case Some(i) => Some(i + 1)
  }

  /** What `findOrCreate` hands back: the table afterwards, the row's index and whether it was inserted. */
  datatype Found = Found(users: seq<User>, index: nat, created: bool)

  /**
    `Model.findOrCreate({ where: { key: value }, defaults })`: the first
    matching row, untouched, or a new row built from the defaults at the end.
   */
  function FindOrCreate(users: seq<User>, key: string, value: Option<string>, defaults: User): (r: Found)
    ensures r.index < |r.users|
    ensures r.created <==> forall j :: 0 <= j < |users| ==> Attr(users[j], key) != value
    ensures !r.created ==> (r.users == users && Attr(users[r.index], key) == value
      && forall j :: 0 <= j < r.index ==> Attr(users[j], key) != value)
    ensures r.created ==> r.users == users + [defaults] && r.index == |users|
  {
    match FindFirst(users, key, value)
      case Some(i) => Found(users, i, false)
      case None => Found(users + [defaults], |users|, true)
  }

  /** No two rows share a value (or a missing value) in column `key`. */
  ghost predicate UniqueBy(users: seq<User>, key: string) {
    forall i, j :: 0 <= i < j < |users| ==> Attr(users[i], key) != Attr(users[j], key)
  }

  /**
    A second `findOrCreate` with the same key finds the row the first one
    found or made: same index, nothing inserted, so at most one row was added
    in all.
   */
  lemma FindOrCreateTwice(users: seq<User>, key: string, value: Option<string>, d1: User, d2: User)
    requires Attr(d1, key) == value
    ensures var r1 := FindOrCreate(users, key, value, d1);
      var r2 := FindOrCreate(r1.users, key, value, d2);
      && r2.users == r1.users && r2.index == r1.index && !r2.created
      && |r2.users| <= |users| + 1
  {
    var r1 := FindOrCreate(users, key, value, d1);
    var r2 := FindOrCreate(r1.users, key, value, d2);
    assert Attr(r1.users[r1.index], key) == value;
    if r1.created {
      assert forall j :: 0 <= j < r1.index ==> r1.users[j] == users[j];
    }
  }

  /** `findOrCreate` keeps the key unique when the defaults carry the key it looked for. */
  lemma FindOrCreateKeepsUnique(users: seq<User>, key: string, value: Option<string>, defaults: User)
    requires UniqueBy(users, key)
    requires Attr(defaults, key) == value
    ensures UniqueBy(FindOrCreate(users, key, value, defaults).users, key)
  {
    var r := FindOrCreate(users, key, value, defaults);
    if r.created {
      forall i, j | 0 <= i < j < |r.users|
        ensures Attr(r.users[i], key) != Attr(r.users[j], key)
      {
        if j == |users| {
          assert r.users[i] == users[i];
        } else {
          assert r.users[i] == users[i] && r.users[j] == users[j];
        }
      }
    }
  }
}
