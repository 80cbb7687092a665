/**
  The lottery backend's two tables and its three handlers:

    POST /api/users            find-or-create the user keyed by the client's ip
    GET  /api/prizes           every prize row
    POST /api/prizes/:prizeId  record the prize on the user, decrement its amount

  Each handler is a pure transition on a `Db` value, and the `Backend` class
  applies it to its own fields. Requests are taken one at a time.
 */
module BackendStore {
  import opened JsRuntime
  import opened Records

  /** `req.headers['x-forwarded-for'] || req.connection.remoteAddress`. */
  function ClientIp(forwardedFor: Option<string>, remoteAddress: string): (ip: string)
    ensures TruthyOpt(forwardedFor) ==> ip == forwardedFor.value
    ensures !TruthyOpt(forwardedFor) ==> ip == remoteAddress
  {
    if TruthyOpt(forwardedFor) then forwardedFor.value else remoteAddress
  }

  /** The result of POST /api/users: the tables afterwards and what the handler saw. */
  datatype Registration = Registration(db: Db, userId: int, created: bool, committed: bool)

  /** The users handler: find by ip or create from `{ ...body, ip }`; the transaction is always committed. */
  function Register(db: Db, ip: string, body: map<string, string>): Registration {
    var r := FindOrCreate(db.users, "ip", Some(ip), User(body["ip" := ip], None));
    Registration(Db(r.users, db.prizes), r.index + 1, r.created, true)
  }

  /**
    A known ip gets its existing row back and nothing is written; an unknown
    one gets a new row at the next id holding the body and the derived ip,
    which overrides any ip in the body. The prizes are not touched, the
    transaction is committed either way, and the returned id names a row
    holding that ip.
   */
  lemma RegisterEffect(db: Db, ip: string, body: map<string, string>)
    ensures var res := Register(db, ip, body);
      && res.committed
      && res.db.prizes == db.prizes
      && 1 <= res.userId <= |res.db.users|
      && Attr(res.db.users[res.userId - 1], "ip") == Some(ip)
      && (res.created <==> forall j :: 0 <= j < |db.users| ==> Attr(db.users[j], "ip") != Some(ip))
      && (!res.created ==> res.db == db)
      && (res.created ==> res.db.users == db.users + [User(body["ip" := ip], None)] && res.userId == |db.users| + 1)
  {
    var res := Register(db, ip, body);
    if res.created {
      assert res.db.users[res.userId - 1] == User(body["ip" := ip], None);
    }
  }

  /** Two registrations from the same ip return the same id and add at most one row. */
  lemma RegisterTwice(db: Db, ip: string, b1: map<string, string>, b2: map<string, string>)
    ensures var r1 := Register(db, ip, b1);
      var r2 := Register(r1.db, ip, b2);
      && r2.userId == r1.userId && r2.db == r1.db && !r2.created
      && |r2.db.users| <= |db.users| + 1
  {
    FindOrCreateTwice(db.users, "ip", Some(ip), User(b1["ip" := ip], None), User(b2["ip" := ip], None));
  }

  /** Registration keeps one row per ip. */
  lemma RegisterKeepsIpsUnique(db: Db, ip: string, body: map<string, string>)
    requires UniqueBy(db.users, "ip")
    ensures UniqueBy(Register(db, ip, body).db.users, "ip")
  {
    FindOrCreateKeepsUnique(db.users, "ip", Some(ip), User(body["ip" := ip], None));
  }

  /**
    The prizes POST handler: `User.update({ prizeId }, { where: { id: userId } })`
    followed by `Prize.decrement('amount', { where: { id: prizeId } })`. The
    two statements are independent and nothing is checked first.
   */
  function Award(db: Db, prizeId: int, userId: int): Db {
    var users := if 1 <= userId <= |db.users|
      then db.users[userId - 1 := db.users[userId - 1].(prizeId := Some(prizeId))]
      else db.users;
    var prizes := if prizeId in db.prizes
      then db.prizes[prizeId := db.prizes[prizeId].(amount := db.prizes[prizeId].amount - 1)]
      else db.prizes;
    Db(users, prizes)
  }

  /**
    The award writes the prize id on the user with that id (whatever it held
    before) and takes exactly one off that prize's amount; every other user and
    every other prize is unchanged.
   */
  lemma AwardEffect(db: Db, prizeId: int, userId: int)
    ensures var after := Award(db, prizeId, userId);
      && |after.users| == |db.users|
      && (forall j :: 0 <= j < |db.users| ==>
           after.users[j] == (if j == userId - 1 then User(db.users[j].attrs, Some(prizeId)) else db.users[j]))
      && after.prizes.Keys == db.prizes.Keys
      && (forall id :: id in db.prizes ==>
           after.prizes[id] == (if id == prizeId then Prize(db.prizes[id].title, db.prizes[id].amount - 1) else db.prizes[id]))
  {
  }

  /** An unknown user id changes no user, and the prize is decremented all the same. */
  lemma AwardUnknownUser(db: Db, prizeId: int, userId: int)
    requires !(1 <= userId <= |db.users|)
    requires prizeId in db.prizes
    ensures Award(db, prizeId, userId).users == db.users
    ensures Award(db, prizeId, userId).prizes[prizeId].amount == db.prizes[prizeId].amount - 1
  {
  }

  /** Nothing stops an exhausted prize from being awarded: its amount goes below zero. */
  lemma AwardGoesNegative(db: Db, prizeId: int, userId: int)
    requires prizeId in db.prizes && db.prizes[prizeId].amount <= 0
    ensures Award(db, prizeId, userId).prizes[prizeId].amount < 0
  {
  }

  /** The same POST twice takes two off the amount: the award is not idempotent. */
  lemma AwardTwice(db: Db, prizeId: int, userId: int)
    requires prizeId in db.prizes
    ensures Award(Award(db, prizeId, userId), prizeId, userId).prizes[prizeId].amount == db.prizes[prizeId].amount - 2
    ensures Award(Award(db, prizeId, userId), prizeId, userId) != Award(db, prizeId, userId)
  {
    var once := Award(db, prizeId, userId);
    assert once.prizes[prizeId].amount == db.prizes[prizeId].amount - 1;
  }

  /** An award leaves every user's columns, and so the one-row-per-ip property, as they were. */
  lemma AwardKeepsIpsUnique(db: Db, prizeId: int, userId: int)
    requires UniqueBy(db.users, "ip")
    ensures UniqueBy(Award(db, prizeId, userId).users, "ip")
  {
    var after := Award(db, prizeId, userId);
    assert forall j :: 0 <= j < |db.users| ==> after.users[j].attrs == db.users[j].attrs;
    assert forall j :: 0 <= j < |db.users| ==> Attr(after.users[j], "ip") == Attr(db.users[j], "ip");
  }

  /** A run of award requests, as (prizeId, userId) pairs, in order. */
  function AwardAll(db: Db, awards: seq<(int, int)>): Db
    decreases |awards|
  {
    if awards == [] then db
    else AwardAll(Award(db, awards[0].0, awards[0].1), awards[1..])
  }

  /** How many requests in the run name this prize. */
  function CountFor(awards: seq<(int, int)>, prizeId: int): nat
    decreases |awards|
  {
    if awards == [] then 0
    else (if awards[0].0 == prizeId then 1 else 0) + CountFor(awards[1..], prizeId)
  }

  /**
    After a run of awards each prize's amount has dropped by exactly the
    number of requests that named it, with no floor: its title and its
    presence in the table are unchanged.
   */
  lemma {:induction false} AwardAllCountsDown(db: Db, awards: seq<(int, int)>, prizeId: int)
    requires prizeId in db.prizes
    ensures prizeId in AwardAll(db, awards).prizes
    ensures AwardAll(db, awards).prizes[prizeId] ==
      Prize(db.prizes[prizeId].title, db.prizes[prizeId].amount - CountFor(awards, prizeId))
    decreases |awards|
  {
    if awards != [] {
      var next := Award(db, awards[0].0, awards[0].1);
      AwardEffect(db, awards[0].0, awards[0].1);
      AwardAllCountsDown(next, awards[1..], prizeId);
    }
  }

  /** The seeded inventory, ids 1 to 8 in insertion order. */
  function SeedPrizes(): map<int, Prize> {
    map[1 := Prize("Рюкзак Everad", 5),
        2 := Prize("Термокружки Everad", 10),
        3 := Prize("USB браслет Everad", 30),
        4 := Prize("Powerbank Everad", 5),
        5 := Prize("Значки от Affhub", 40),
        6 := Prize("Ветровка от Affhub", 10),
        7 := Prize("USB зажигалка Affhub", 30),
        8 := Prize("Пуловер Affhub", 10)]
  }

  /** The seed holds ids 1 to 8, every amount positive; six awards of prize 1 leave it at -1. */
  lemma SeedFacts()
    ensures SeedPrizes().Keys == {1, 2, 3, 4, 5, 6, 7, 8}
    ensures forall id :: id in SeedPrizes() ==> SeedPrizes()[id].amount > 0
    ensures AwardAll(Db([], SeedPrizes()), [(1, 1), (1, 1), (1, 1), (1, 1), (1, 1), (1, 1)]).prizes[1].amount == -1
  {
    var awards := [(1, 1), (1, 1), (1, 1), (1, 1), (1, 1), (1, 1)];
    AwardAllCountsDown(Db([], SeedPrizes()), awards, 1);
    assert CountFor(awards, 1) == 6;
  }

  /** The backend's database, as the handlers see it. */
  class Backend {
    var users: seq<User>
    var prizes: map<int, Prize>

    function State(): Db
      reads this
    {
      Db(users, prizes)
    }

    /** A freshly migrated and seeded database. */
    constructor Seeded()
      ensures State() == Db([], SeedPrizes())
    {
      users := [];
      prizes := SeedPrizes();
    }

    /** GET /api/prizes: every prize row; nothing is written. */
    method ListPrizes() returns (rows: map<int, Prize>)
      ensures rows == prizes
    {
      rows := prizes;
    }

    /** POST /api/users: the id sent back, found or created. */
    method RegisterUser(forwardedFor: Option<string>, remoteAddress: string, body: map<string, string>)
      returns (userId: int, created: bool)
      modifies this
      ensures var res := Register(old(State()), ClientIp(forwardedFor, remoteAddress), body);
        State() == res.db && userId == res.userId && created == res.created
    {
      var ip := ClientIp(forwardedFor, remoteAddress);
      var found := FindOrCreate(users, "ip", Some(ip), User(body["ip" := ip], None));
      users := found.users;
      userId := found.index + 1;
      created := found.created;
    }

    /** POST /api/prizes/:prizeId: the user update, then the decrement. */
    method AwardPrize(prizeId: int, userId: int)
      modifies this
      ensures State() == Award(old(State()), prizeId, userId)
    {
      if 1 <= userId <= |users| {
        users := users[userId - 1 := users[userId - 1].(prizeId := Some(prizeId))];
      }
      if prizeId in prizes {
        prizes := prizes[prizeId := prizes[prizeId].(amount := prizes[prizeId].amount - 1)];
      }
    }
  }
}
