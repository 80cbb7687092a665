/**
  The lottery page's client logic: which wheel sector the spin lands on, which
  prize id it then posts, how the registration form is validated (one message
  table, with phone and telegram forming one group of which one valid field
  is enough) and how the serialised form becomes the request payload.

  `Math.random()` is an oracle: each call is one real number in [0, 1) taken
  from a finite sequence of draws the caller supplies.
 */
module LotteryClient {
  import opened JsRuntime
  import opened FormRules

  // ---------------------------------------------------------------------------
  // Picking a prize
  // ---------------------------------------------------------------------------

  /**
    A prize as the client holds it. `count` is what `testPrizes` reads; the
    prize rows served by the backend carry `amount` only, so there it is None
    (`undefined`).
   */
  datatype PrizeEntry = PrizeEntry(id: int, title: string, amount: int, count: Option<int>)

  /** `prize.count > 0` (false for an undefined count). */
  predicate Counted(p: PrizeEntry) {
    p.count.Some? && p.count.value > 0
  }

  /** What `testPrizes` decides: some entry has a positive `count`. */
  predicate SomeCounted(prizes: seq<PrizeEntry>) {
    exists i :: 0 <= i < |prizes| && Counted(prizes[i])
  }

  /** `testPrizes`: a loop that returns true at the first entry with `count > 0`. */
  method TestPrizes(prizes: seq<PrizeEntry>) returns (found: bool)
    ensures found <==> SomeCounted(prizes)
  {
    for i := 0 to |prizes|
      invariant forall j :: 0 <= j < i ==> !Counted(prizes[j])
    {
      if Counted(prizes[i]) {
        return true;
      }
    }
    return false;
  }

  /** Entries as the prize list endpoint serves them: rows without a `count` field. */
  predicate AsServed(prizes: seq<PrizeEntry>) {
    forall i :: 0 <= i < |prizes| ==> prizes[i].count.None?
  }

  /** The list the client actually receives makes `testPrizes` false, whatever the amounts. */
  lemma ServedListIsNeverCounted(prizes: seq<PrizeEntry>)
    requires AsServed(prizes)
    ensures !SomeCounted(prizes)
  {
  }

  /** `Math.floor(u * (max - min + 1)) + min` for the draw u = `Math.random()`. */
  function RandomNumberInRange(min: int, max: int, u: real): (r: int)
    requires 0.0 <= u < 1.0
    ensures min <= max ==> min <= r <= max
    ensures min == max + 1 ==> r == min
  {
    var n := max - min + 1;
    if n > 0 then
      assert 0.0 <= u * n as real < n as real by {
        assert (1.0 - u) * n as real > 0.0;
      }
      (u * n as real).Floor + min
    else
      (u * n as real).Floor + min
  }

  /** Every draw is a value `Math.random()` can return. */
  predicate Draws(draws: seq<real>) {
    forall k :: 0 <= k < |draws| ==> 0.0 <= draws[k] < 1.0
  }

  /** What `getRandomPrize` returns: a sector index or `false`. */
  datatype Pick = Index(i: int) | NoPrize

  /**
    The outcome of one spin: a pick, the TypeError raised by reading
    `prizes[0].amount` of an empty list, or the draws ran out while the
    function was still recursing (in the page it would go on drawing).
   */
  datatype Spin = Picked(pick: Pick) | TypeError | OutOfDraws

  /** The sector index the draw u selects. */
  function IndexOf(prizes: seq<PrizeEntry>, u: real): int
    requires 0.0 <= u < 1.0
  {
    RandomNumberInRange(0, |prizes| - 1, u)
  }

  /**
    `getRandomPrize`: draw an index; keep it if its amount is positive;
    otherwise give up with `false` unless `testPrizes` holds, and draw again.
   */
  function GetRandomPrize(prizes: seq<PrizeEntry>, draws: seq<real>): (r: Spin)
    requires Draws(draws)
    ensures r.Picked? && r.pick.Index? ==> 0 <= r.pick.i < |prizes| && prizes[r.pick.i].amount > 0
    ensures r == Picked(NoPrize) ==> !SomeCounted(prizes)
    ensures r == TypeError <==> |prizes| == 0 && |draws| > 0
    ensures r == OutOfDraws ==> |draws| == 0 || SomeCounted(prizes)
    decreases |draws|
  {
    if draws == [] then OutOfDraws
    else
      var i := IndexOf(prizes, draws[0]);
      if !(0 <= i < |prizes|) then TypeError
      else if prizes[i].amount > 0 then Picked(Index(i))
      else if !SomeCounted(prizes) then Picked(NoPrize)
      else GetRandomPrize(prizes, draws[1..])
  }

  /** Without a counted entry, the first draw decides: the pick never recurses. */
  lemma {:induction false} UncountedSpinUsesOneDraw(prizes: seq<PrizeEntry>, draws: seq<real>)
    requires Draws(draws) && |draws| >= 1 && |prizes| >= 1
    requires !SomeCounted(prizes)
    ensures GetRandomPrize(prizes, draws) == GetRandomPrize(prizes, draws[..1])
    ensures GetRandomPrize(prizes, draws) ==
      (if prizes[IndexOf(prizes, draws[0])].amount > 0 then Picked(Index(IndexOf(prizes, draws[0]))) else Picked(NoPrize))
  {
    assert draws[..1][0] == draws[0];
  }

  /**
    A counted entry while every amount is spent makes the page spin forever:
    no finite supply of draws ever yields a pick.
   */
  lemma {:induction false} CountedButEmptyNeverStops(prizes: seq<PrizeEntry>, draws: seq<real>)
    requires Draws(draws) && |prizes| >= 1
    requires SomeCounted(prizes)
    requires forall k :: 0 <= k < |prizes| ==> prizes[k].amount <= 0
    ensures GetRandomPrize(prizes, draws) == OutOfDraws
    decreases |draws|
  {
    if draws != [] {
      CountedButEmptyNeverStops(prizes, draws[1..]);
    }
  }

  /** A picked index is the index of one of the draws. */
  lemma {:induction false} PickComesFromADraw(prizes: seq<PrizeEntry>, draws: seq<real>)
    requires Draws(draws)
    requires GetRandomPrize(prizes, draws).Picked? && GetRandomPrize(prizes, draws).pick.Index?
    ensures exists k :: 0 <= k < |draws| && IndexOf(prizes, draws[k]) == GetRandomPrize(prizes, draws).pick.i
    decreases |draws|
  {
    var i := IndexOf(prizes, draws[0]);
    if 0 <= i < |prizes| && prizes[i].amount <= 0 {
      PickComesFromADraw(prizes, draws[1..]);
      var k :| 0 <= k < |draws[1..]| && IndexOf(prizes, draws[1..][k]) == GetRandomPrize(prizes, draws[1..]).pick.i;
      assert draws[1..][k] == draws[k + 1];
    }
  }

  /**
    A wheel whose first sector is spent and whose second is not: a draw that
    lands on the first sector gives up with `false` at once, because the
    served rows have no `count`, and the page then posts prize id 8.
   */
  lemma SpentSectorGivesUp()
    ensures var prizes := [PrizeEntry(1, "a", 0, None), PrizeEntry(2, "b", 5, None)];
      && GetRandomPrize(prizes, [0.0]) == Picked(NoPrize)
      && prizes[1].amount > 0
      && PostedPrizeId(GetRandomPrize(prizes, [0.0]).pick) == 8
  {
    var prizes := [PrizeEntry(1, "a", 0, None), PrizeEntry(2, "b", 5, None)];
    assert IndexOf(prizes, 0.0) == 0;
    assert !SomeCounted(prizes);
  }

  /** Some entry still has a positive amount. */
  predicate SomeInStock(prizes: seq<PrizeEntry>) {
    exists i :: 0 <= i < |prizes| && prizes[i].amount > 0
  }

  /** `getRandomPrize` with the retry gated on `amount`, the field the rows actually carry. */
  function GetRandomPrizeIntended(prizes: seq<PrizeEntry>, draws: seq<real>): (r: Spin)
    requires Draws(draws)
    ensures r.Picked? && r.pick.Index? ==> 0 <= r.pick.i < |prizes| && prizes[r.pick.i].amount > 0
    ensures r == Picked(NoPrize) ==> !SomeInStock(prizes)
    ensures r == TypeError <==> |prizes| == 0 && |draws| > 0
    decreases |draws|
  {
    if draws == [] then OutOfDraws
    else
      var i := IndexOf(prizes, draws[0]);
      if !(0 <= i < |prizes|) then TypeError
      else if prizes[i].amount > 0 then Picked(Index(i))
      else if !SomeInStock(prizes) then Picked(NoPrize)
      else GetRandomPrizeIntended(prizes, draws[1..])
  }

  /** The intended pick keeps drawing until a draw lands on a sector in stock, and takes that one. */
  lemma {:induction false} IntendedTakesFirstDrawInStock(prizes: seq<PrizeEntry>, draws: seq<real>, k: nat)
    requires Draws(draws) && k < |draws|
    requires 0 <= IndexOf(prizes, draws[k]) < |prizes| && prizes[IndexOf(prizes, draws[k])].amount > 0
    requires forall j :: 0 <= j < k ==> 0 <= IndexOf(prizes, draws[j]) < |prizes| && prizes[IndexOf(prizes, draws[j])].amount <= 0
    ensures GetRandomPrizeIntended(prizes, draws) == Picked(Index(IndexOf(prizes, draws[k])))
    decreases k
  {
    if k > 0 {
      var i := IndexOf(prizes, draws[0]);
      assert prizes[IndexOf(prizes, draws[k])].amount > 0;
      assert SomeInStock(prizes);
      assert draws[1..][k - 1] == draws[k];
      forall j | 0 <= j < k - 1
        ensures 0 <= IndexOf(prizes, draws[1..][j]) < |prizes| && prizes[IndexOf(prizes, draws[1..][j])].amount <= 0
      {
        assert draws[1..][j] == draws[j + 1];
      }
      IntendedTakesFirstDrawInStock(prizes, draws[1..], k - 1);
    }
  }

  /** `number || 8`: the prize id that `startGame` posts and then looks up. */
  function PostedPrizeId(pick: Pick): int {
    match pick
    case Index(i) => if i != 0 then i else 8
    case NoPrize => 8
  }

  /** The posted id is the drawn index when that is non-zero, and 8 for index 0 or `false`. */
  lemma PostedPrizeIdCases(pick: Pick)
    ensures pick.Index? && pick.i != 0 ==> PostedPrizeId(pick) == pick.i
    ensures pick == Index(0) || pick == NoPrize ==> PostedPrizeId(pick) == 8
    ensures pick.Index? && 0 <= pick.i < 8 ==> 1 <= PostedPrizeId(pick) <= 8
  {
  }

  /** `prizes.find(prize => prize.id === id)`: the position of the first entry with that id. */
  function FindById(prizes: seq<PrizeEntry>, id: int): (r: Option<nat>)
    ensures r.Some? ==> r.value < |prizes| && prizes[r.value].id == id
    ensures r.Some? ==> forall k :: 0 <= k < r.value ==> prizes[k].id != id
    ensures r.None? ==> forall k :: 0 <= k < |prizes| ==> prizes[k].id != id
    decreases |prizes|
  {
    if prizes == [] then None
    else if prizes[0].id == id then Some(0)
    else match FindById(prizes[1..], id)
      case None => None
      case Some(k) => Some(k + 1)
  }

  /** The title shown after the award: None stands for the TypeError of reading `.title` of `undefined`. */
  function WonTitle(prizes: seq<PrizeEntry>, pick: Pick): Option<string> {
    match FindById(prizes, PostedPrizeId(pick))
    case None => None
    case Some(k) => Some(prizes[k].title)
  }

  /** The served list in seeding order: entry k has id k + 1. */
  predicate SeedOrder(prizes: seq<PrizeEntry>) {
    |prizes| == 8 && forall k :: 0 <= k < 8 ==> prizes[k].id == k + 1
  }

  /**
    With the list in seeding order, the entry whose amount the pick checked
    (position i) is not the one posted and shown: that is the entry before it,
    wrapping round to the last for position 0.
   */
  lemma {:induction false} ShownPrizeIsThePreviousEntry(prizes: seq<PrizeEntry>, i: int)
    requires SeedOrder(prizes) && 0 <= i < 8
    ensures FindById(prizes, PostedPrizeId(Index(i))) == Some((i + 7) % 8)
    ensures WonTitle(prizes, Index(i)) == Some(prizes[(i + 7) % 8].title)
    ensures (i + 7) % 8 != i
  {
    var id := PostedPrizeId(Index(i));
    var k := (i + 7) % 8;
    assert prizes[k].id == id;
    match FindById(prizes, id)
    case None =>
      assert false;
    case Some(j) =>
      assert prizes[j].id == j + 1;
  }

  // ---------------------------------------------------------------------------
  // Validating the registration form
  // ---------------------------------------------------------------------------

  datatype Pattern = NamePattern | PhonePattern | TelegramPattern

  /** One entry of the message table: its pattern, its two messages and its group. */
  datatype Rule = Rule(pattern: Pattern, empty: string, notValid: string, group: Option<int>)

  const PhoneOrTelegramRequired: string := "Номер телефона или телеграм логин обязателен"

  /** `errorMessages[name]`: the table has rules for name, phone and telegram only. */
  function RuleFor(name: Option<string>): Option<Rule> {
    if name == Some("name") then Some(Rule(NamePattern, "Имя обязательно", "Некорректное имя", None))
    else if name == Some("phone") then Some(Rule(PhonePattern, PhoneOrTelegramRequired, "Некорректный номер телефона", Some(1)))
    else if name == Some("telegram") then Some(Rule(TelegramPattern, PhoneOrTelegramRequired, "Некорректный telegram", Some(1)))
    else None
  }

  /** `regExp.test(value)` for the rule's pattern. */
  function Test(p: Pattern, value: string): bool {
    match p
    case NamePattern => NameTest(value)
    case PhonePattern => PhoneTest(value)
    case TelegramPattern => TelegramTest(value)
  }

  /** What each pattern matches, stated without the engine. */
  ghost predicate Matches(p: Pattern, value: string) {
    match p
    case NamePattern => NameMatches(value)
    case PhonePattern => RunMatches(value, IsPhoneChar, 5)
    case TelegramPattern => RunMatches(value, IsWordChar, 5)
  }

  /** One form field: its `name` attribute (possibly missing) and its value. */
  datatype Input = Input(name: Option<string>, value: string)

  /**
    `validateInput`: None is `false` (no such input, or no rule for its name);
    Some(message) is the error text, "" when the value passes.
   */
  function ValidateInput(input: Option<Input>): (r: Option<string>)
    ensures input.None? || RuleFor(input.value.name).None? ==> r.None?
    ensures input.Some? && RuleFor(input.value.name).Some? ==>
      var rule := RuleFor(input.value.name).value;
      var v := input.value.value;
      && (v == "" ==> r == Some(rule.empty))
      && (v != "" && !Matches(rule.pattern, v) ==> r == Some(rule.notValid))
      && (v != "" && Matches(rule.pattern, v) ==> r == Some(""))
  {
    if input.None? then None
    else
      match RuleFor(input.value.name)
      case None => None
      case Some(rule) =>
        TelegramAtIsIrrelevant(input.value.value);
        if |input.value.value| < 1 then Some(rule.empty)
        else if !Test(rule.pattern, input.value.value) then Some(rule.notValid)
        else Some("")
  }

  /** `if (error)`: an error is a non-empty message. */
  predicate IsError(r: Option<string>) {
    r.Some? && r.value != ""
  }

  /** `if (group)`: a group that is present and non-zero. */
  predicate InGroup(g: Option<int>) {
    g.Some? && g.value != 0
  }

  /** The group an input belongs to (`""`, i.e. none, when it has no rule). */
  function GroupOf(input: Input): Option<int> {
    match RuleFor(input.name)
    case None => None
    case Some(rule) => rule.group
  }

  /** One entry of `errors`; for an ungrouped input `group` is absent. */
  datatype FieldError = FieldError(name: Option<string>, msg: string, group: Option<int>)

  /** The error one input pushes: none, or one. */
  function ErrorOf(input: Input): (r: seq<FieldError>)
    ensures |r| <= 1
  {
    var e := ValidateInput(Some(input));
    if IsError(e) then
      [FieldError(input.name, e.value, if InGroup(GroupOf(input)) then GroupOf(input) else None)]
    else []
  }

  /** The errors of the inputs, in input order, before the group filter. */
  function RawErrors(inputs: seq<Input>): (r: seq<FieldError>)
    ensures |r| <= |inputs|
    decreases |inputs|
  {
    if inputs == [] then [] else RawErrors(inputs[..|inputs| - 1]) + ErrorOf(inputs[|inputs| - 1])
  }

  /** The input at position k passed while belonging to group g. */
  predicate PassesInGroup(inputs: seq<Input>, k: int, g: int) {
    0 <= k < |inputs| && InGroup(GroupOf(inputs[k])) && GroupOf(inputs[k]).value == g
    && !IsError(ValidateInput(Some(inputs[k])))
  }

  /** The groups of which some input produced no error (`validGroups`). */
  function PassedGroups(inputs: seq<Input>): (r: set<int>)
    ensures forall g :: g in r <==> exists k :: PassesInGroup(inputs, k, g)
    decreases |inputs|
  {
    if inputs == [] then {}
    else
      var front := inputs[..|inputs| - 1];
      var last := inputs[|inputs| - 1];
      var prev := PassedGroups(front);
      assert forall k, g :: 0 <= k < |front| ==> (PassesInGroup(front, k, g) <==> PassesInGroup(inputs, k, g));
      if InGroup(GroupOf(last)) && !IsError(ValidateInput(Some(last))) then
        assert PassesInGroup(inputs, |inputs| - 1, GroupOf(last).value);
        prev + {GroupOf(last).value}
      else prev
  }

  /** The filter's test: ungrouped errors stay; grouped ones stay when their group has no passing input. */
  predicate Kept(e: FieldError, passed: set<int>) {
    !InGroup(e.group) || e.group.value !in passed
  }

  /** `errors.filter(...)`. */
  function KeepErrors(errors: seq<FieldError>, passed: set<int>): (r: seq<FieldError>)
    ensures forall e :: e in r <==> e in errors && Kept(e, passed)
    ensures |r| <= |errors|
    decreases |errors|
  {
    if errors == [] then []
    else (if Kept(errors[0], passed) then [errors[0]] else []) + KeepErrors(errors[1..], passed)
  }

  /**
    `validateForm`: one pass over the inputs collecting errors and the groups
    that had a passing input, then the group filter.
   */
  method ValidateForm(inputs: seq<Input>) returns (errors: seq<FieldError>)
    ensures errors == KeepErrors(RawErrors(inputs), PassedGroups(inputs))
  {
    var all: seq<FieldError> := [];
    var validGroups: seq<int> := [];
    for i := 0 to |inputs|
      invariant all == RawErrors(inputs[..i])
      invariant forall g :: g in validGroups <==> g in PassedGroups(inputs[..i])
    {
      var input := inputs[i];
      var group := GroupOf(input);
      var error := ValidateInput(Some(input));
      assert inputs[..i + 1][..i] == inputs[..i];
      if IsError(error) {
        if InGroup(group) {
          all := all + [FieldError(input.name, error.value, group)];
        } else {
          all := all + [FieldError(input.name, error.value, None)];
        }
      } else {
        if InGroup(group) && group.value !in validGroups {
          validGroups := validGroups + [group.value];
        }
      }
    }
    assert inputs[..|inputs|] == inputs;
    errors := KeepErrors(all, PassedGroups(inputs));
  }

  /** `a` is `b` with some entries left out. */
  ghost predicate Subsequence<T>(a: seq<T>, b: seq<T>)
    decreases |b|
  {
    if a == [] then true
    else if b == [] then false
    else (a[0] == b[0] && Subsequence(a[1..], b[1..])) || Subsequence(a, b[1..])
  }

  /** The filter only drops entries: what it keeps stays in order. */
  lemma {:induction false} KeepErrorsIsSubsequence(errors: seq<FieldError>, passed: set<int>)
    ensures Subsequence(KeepErrors(errors, passed), errors)
    decreases |errors|
  {
    if errors != [] {
      KeepErrorsIsSubsequence(errors[1..], passed);
      var tail := KeepErrors(errors[1..], passed);
      if Kept(errors[0], passed) {
        assert KeepErrors(errors, passed) == [errors[0]] + tail;
        assert ([errors[0]] + tail)[1..] == tail;
      } else {
        assert KeepErrors(errors, passed) == tail;
        if tail != [] {
          assert Subsequence(tail, errors[1..]);
        }
      }
    }
  }

  /**
    What `validateForm` returns, stated against the inputs: errors in input
    order, at most one per input; a grouped error is dropped exactly when
    another input of its group passed; ungrouped errors always stay.
   */
  lemma ValidateFormMeaning(inputs: seq<Input>, e: FieldError)
    requires e in RawErrors(inputs)
    ensures Subsequence(KeepErrors(RawErrors(inputs), PassedGroups(inputs)), RawErrors(inputs))
    ensures |KeepErrors(RawErrors(inputs), PassedGroups(inputs))| <= |inputs|
    ensures !InGroup(e.group) ==> e in KeepErrors(RawErrors(inputs), PassedGroups(inputs))
    ensures InGroup(e.group) ==>
      (e !in KeepErrors(RawErrors(inputs), PassedGroups(inputs)) <==> exists k :: PassesInGroup(inputs, k, e.group.value))
  {
    KeepErrorsIsSubsequence(RawErrors(inputs), PassedGroups(inputs));
  }

  /**
    A valid telegram login alone satisfies the phone-or-telegram group: in any
    form holding one, every error of that group (an empty or malformed phone,
    another telegram input) is filtered out.
   */
  lemma TelegramAloneIsEnough(inputs: seq<Input>, k: int)
    requires 0 <= k < |inputs| && inputs[k].name == Some("telegram")
    requires RunMatches(inputs[k].value, IsWordChar, 5)
    ensures forall e :: e in KeepErrors(RawErrors(inputs), PassedGroups(inputs)) ==> e.group != Some(1)
  {
    var w, m :| 0 <= w && 5 <= m && w + m <= |inputs[k].value| && Window(inputs[k].value, IsWordChar, w, m);
    assert inputs[k].value != "";
    assert PassesInGroup(inputs, k, 1);
  }

  // ---------------------------------------------------------------------------
  // The request payload
  // ---------------------------------------------------------------------------

  /** The key of one `&`-piece: the text before its first '='. */
  function PieceKey(piece: string): string {
    Split(piece, '=')[0]
  }

  /** The raw value of one `&`-piece: the text between its first and second '=', or "undefined" when there is no '='. */
  function PieceRawValue(piece: string): string {
    var item := Split(piece, '=');
    if |item| > 1 then item[1] else "undefined"
  }

  /**
    The payload the pieces give, None when `decodeURIComponent` throws; it
    reads the pieces in order, so a later piece overwrites an earlier one.
   */
  function PayloadOf(pieces: seq<string>, decode: string -> Option<string>): Option<map<string, string>>
    decreases |pieces|
  {
    if pieces == [] then Some(map[])
    else
      var last := pieces[|pieces| - 1];
      match PayloadOf(pieces[..|pieces| - 1], decode)
      case None => None
      case Some(m) =>
        match decode(PieceRawValue(last))
        case None => None
        case Some(v) => Some(m[PieceKey(last) := v])
  }

  /** The loop in `submitHandler` that turns `form.serialize()` into `ajaxData`. */
  method ParsePayload(serialized: string, decode: string -> Option<string>) returns (data: Option<map<string, string>>)
    ensures data == PayloadOf(Split(serialized, '&'), decode)
  {
    var dataArr := Split(serialized, '&');
    var ajaxData: map<string, string> := map[];
    for i := 0 to |dataArr|
      invariant PayloadOf(dataArr[..i], decode) == Some(ajaxData)
    {
      var item := Split(dataArr[i], '=');
      var name := item[0];
      var value := decode(if |item| > 1 then item[1] else "undefined");
      assert dataArr[..i + 1][..i] == dataArr[..i];
      if value.None? {
        assert PayloadOf(dataArr[..i + 1], decode) == None;
        PayloadStaysFailed(dataArr, i + 1, decode);
        return None;
      }
      ajaxData := ajaxData[name := value.value];
    }
    assert dataArr[..|dataArr|] == dataArr;
    return Some(ajaxData);
  }

  /** Once decoding has thrown, the rest of the pieces change nothing. */
  lemma {:induction false} PayloadStaysFailed(pieces: seq<string>, i: nat, decode: string -> Option<string>)
    requires i <= |pieces|
    requires PayloadOf(pieces[..i], decode) == None
    ensures PayloadOf(pieces, decode) == None
    decreases |pieces| - i
  {
    if i < |pieces| {
      assert pieces[..i + 1][..i] == pieces[..i];
      PayloadStaysFailed(pieces, i + 1, decode);
    } else {
      assert pieces[..i] == pieces;
    }
  }

  /** One field as `form.serialize()` writes it: the encoded name, '=', and the encoded value. */
  function EncodePair(key: string, value: string, encode: string -> string): string {
    encode(key) + "=" + encode(value)
  }

  /** `form.serialize()` of a list of fields. */
  function Serialize(fields: seq<(string, string)>, encode: string -> string): string {
    Join(seq(|fields|, k requires 0 <= k < |fields| => EncodePair(fields[k].0, fields[k].1, encode)), '&')
  }

  /** The map the fields give when a later field overwrites an earlier one with the same key. */
  function LastWins(fields: seq<(string, string)>): map<string, string>
    decreases |fields|
  {
    if fields == [] then map[] else LastWins(fields[..|fields| - 1])[fields[|fields| - 1].0 := fields[|fields| - 1].1]
  }

  /** The fields with their names as the serialised text carries them. */
  function EncodedNames(fields: seq<(string, string)>, encode: string -> string): (r: seq<(string, string)>)
    ensures |r| == |fields|
    ensures forall k :: 0 <= k < |fields| ==> r[k] == (encode(fields[k].0), fields[k].1)
  {
    seq(|fields|, k requires 0 <= k < |fields| => (encode(fields[k].0), fields[k].1))
  }

  /** The separators that `encodeURIComponent` never leaves in its output. */
  predicate Clean(s: string) {
    '&' !in s && '=' !in s
  }

  lemma {:induction false} PieceOfPair(key: string, value: string, encode: string -> string)
    requires Clean(encode(key)) && Clean(encode(value))
    ensures PieceKey(EncodePair(key, value, encode)) == encode(key)
    ensures PieceRawValue(EncodePair(key, value, encode)) == encode(value)
  {
    var piece := EncodePair(key, value, encode);
    SplitWithoutSeparator(encode(key), '=');
    SplitWithoutSeparator(encode(value), '=');
    SplitJoin([encode(key), encode(value)], '=');
    assert Join([encode(key), encode(value)], '=') == encode(key) + "=" + Join([encode(value)], '=');
  }

  lemma {:induction false} PayloadOfPairs(fields: seq<(string, string)>, encode: string -> string, decode: string -> Option<string>)
    requires forall v :: decode(encode(v)) == Some(v)
    requires forall k :: 0 <= k < |fields| ==> Clean(encode(fields[k].0)) && Clean(encode(fields[k].1))
    ensures PayloadOf(seq(|fields|, k requires 0 <= k < |fields| => EncodePair(fields[k].0, fields[k].1, encode)), decode)
      == Some(LastWins(EncodedNames(fields, encode)))
    decreases |fields|
  {
    var pieces := seq(|fields|, k requires 0 <= k < |fields| => EncodePair(fields[k].0, fields[k].1, encode));
    if fields != [] {
      var n := |fields| - 1;
      var front := fields[..n];
      PayloadOfPairs(front, encode, decode);
      assert pieces[..n] == seq(|front|, k requires 0 <= k < |front| => EncodePair(front[k].0, front[k].1, encode));
      assert EncodedNames(fields, encode)[..n] == EncodedNames(front, encode);
      PieceOfPair(fields[n].0, fields[n].1, encode);
    }
  }

  /**
    The parser undoes `form.serialize()` on the values but not on the names:
    when decoding undoes encoding and the encoded text holds no separator,
    the payload maps each field's encoded name to its last value.
   */
  lemma ParseSerialized(fields: seq<(string, string)>, encode: string -> string, decode: string -> Option<string>)
    requires |fields| >= 1
    requires forall v :: decode(encode(v)) == Some(v)
    requires forall k :: 0 <= k < |fields| ==> Clean(encode(fields[k].0)) && Clean(encode(fields[k].1))
    ensures PayloadOf(Split(Serialize(fields, encode), '&'), decode) == Some(LastWins(EncodedNames(fields, encode)))
  {
    var pieces := seq(|fields|, k requires 0 <= k < |fields| => EncodePair(fields[k].0, fields[k].1, encode));
    forall k | 0 <= k < |pieces|
      ensures '&' !in pieces[k]
    {
      assert pieces[k] == encode(fields[k].0) + "=" + encode(fields[k].1);
    }
    SplitJoin(pieces, '&');
    PayloadOfPairs(fields, encode, decode);
  }

  /** For names that encoding leaves as they are (the form's own names), each name maps to its last value. */
  lemma ParseSerializedPlainNames(fields: seq<(string, string)>, encode: string -> string, decode: string -> Option<string>)
    requires |fields| >= 1
    requires forall v :: decode(encode(v)) == Some(v)
    requires forall k :: 0 <= k < |fields| ==> encode(fields[k].0) == fields[k].0
    requires forall k :: 0 <= k < |fields| ==> Clean(fields[k].0) && Clean(encode(fields[k].1))
    ensures PayloadOf(Split(Serialize(fields, encode), '&'), decode) == Some(LastWins(fields))
  {
    ParseSerialized(fields, encode, decode);
    assert EncodedNames(fields, encode) == fields;
  }
}
