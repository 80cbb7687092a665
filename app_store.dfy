/**
  The earlier backend's registration handler: find-or-create keyed by the
  body's email, commit the transaction only when a row was created, and
  answer with the title of the user's prize.

  A body without an email looks for a row without an email (the lookup value
  is None).
 */
module AppStore {
  import opened JsRuntime
  import opened Records

  /** `req.body.email`. */
  function EmailOf(body: map<string, string>): Option<string> {
    if "email" in body then Some(body["email"]) else None
  }

  /** `user.prize && user.prize.title`: the title of the prize the user holds, when there is one. */
  function PrizeTitle(prizes: map<int, Prize>, u: User): (title: Option<string>)
    ensures title.Some? <==> u.prizeId.Some? && u.prizeId.value in prizes
    ensures title.Some? ==> title.value == prizes[u.prizeId.value].title
  {
    match u.prizeId
      case None => None
      case Some(id) => if id in prizes then Some(prizes[id].title) else None
  }

  /** The result of the handler: the tables afterwards, the cookie's id, the commit, the response's prize. */
  datatype Registration = Registration(db: Db, userId: int, created: bool, committed: bool, prize: Option<string>)

  /** POST /users: `findOrCreate` by email with the body as defaults, then `isCreated && transaction.commit()`. */
  function Register(db: Db, body: map<string, string>): Registration {
    var r := FindOrCreate(db.users, "email", EmailOf(body), User(body, None));
    Registration(Db(r.users, db.prizes), r.index + 1, r.created, r.created, PrizeTitle(db.prizes, r.users[r.index]))
  }

  /**
    A known email gets its existing row back, nothing is written and the
    transaction is left uncommitted; an unknown one gets a new row at the next
    id holding exactly the body, and the transaction is committed. The
    response's prize is the title of the returned user's prize.
   */
  lemma RegisterEffect(db: Db, body: map<string, string>)
    ensures var res := Register(db, body);
      && res.committed == res.created
      && res.db.prizes == db.prizes
      && 1 <= res.userId <= |res.db.users|
      && Attr(res.db.users[res.userId - 1], "email") == EmailOf(body)
      && (res.created <==> forall j :: 0 <= j < |db.users| ==> Attr(db.users[j], "email") != EmailOf(body))
      && (!res.created ==> res.db == db)
      && (res.created ==> res.db.users == db.users + [User(body, None)] && res.userId == |db.users| + 1)
      && res.prize == PrizeTitle(db.prizes, res.db.users[res.userId - 1])
  {
    var res := Register(db, body);
    if res.created {
      assert res.db.users[res.userId - 1] == User(body, None);
      assert Attr(User(body, None), "email") == EmailOf(body);
    }
  }

  /** A newly created row holds no prize, so its response carries none. */
  lemma NewUserHasNoPrize(db: Db, body: map<string, string>)
    requires Register(db, body).created
    ensures Register(db, body).prize == None
  {
  }

  /**
    Two requests with the same email name the same row and add at most one;
    the second finds it and so does not commit.
   */
  lemma RegisterTwice(db: Db, b1: map<string, string>, b2: map<string, string>)
    requires EmailOf(b1) == EmailOf(b2)
    ensures var r1 := Register(db, b1);
      var r2 := Register(r1.db, b2);
      && r2.userId == r1.userId && r2.db == r1.db && !r2.created && !r2.committed
      && |r2.db.users| <= |db.users| + 1
  {
    assert Attr(User(b1, None), "email") == EmailOf(b1);
    FindOrCreateTwice(db.users, "email", EmailOf(b1), User(b1, None), User(b2, None));
  }

  /** Registration keeps one row per email. */
  lemma RegisterKeepsEmailsUnique(db: Db, body: map<string, string>)
    requires UniqueBy(db.users, "email")
    ensures UniqueBy(Register(db, body).db.users, "email")
  {
    assert Attr(User(body, None), "email") == EmailOf(body);
    FindOrCreateKeepsUnique(db.users, "email", EmailOf(body), User(body, None));
  }

  /** The earlier backend's database. */
  class AppBackend {
    var users: seq<User>
    var prizes: map<int, Prize>

    function State(): Db
      reads this
    {
      Db(users, prizes)
    }

    constructor (prizes: map<int, Prize>)
      ensures State() == Db([], prizes)
    {
      users := [];
      this.prizes := prizes;
    }

    /** POST /users: the cookie's id, whether the transaction was committed, and the response's prize. */
    method RegisterUser(body: map<string, string>) returns (userId: int, committed: bool, prize: Option<string>)
      modifies this
      ensures var res := Register(old(State()), body);
        State() == res.db && userId == res.userId && committed == res.committed && prize == res.prize
    {
      var found := FindOrCreate(users, "email", EmailOf(body), User(body, None));
      users := found.users;
      userId := found.index + 1;
      committed := found.created;
      prize := PrizeTitle(prizes, users[found.index]);
    }
  }
}
