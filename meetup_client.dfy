/**
  The meetup page's client logic: the registration form's payload and error
  list, the countdown's days/hours/minutes and their padding, writing a
  number into its digit cells, and the scroll trigger that adds the
  "animate" class to a block.

  The clock is a parameter: the countdown takes the distance in milliseconds
  (`countDownDate - new Date()`), scroll positions and block offsets are
  integers supplied by the caller.
 */
module MeetupClient {
  import opened JsRuntime
  import opened FormRules

  // ---------------------------------------------------------------------------
  // Registration
  // ---------------------------------------------------------------------------

  /**
    `new FormData(form).forEach((value, key) => { if (value) data[key] = value })`:
    the payload keeps the fields with a non-empty value, the last one where a
    name repeats.
   */
  function Payload(entries: seq<(string, string)>): map<string, string>
    decreases |entries|
  {
    if entries == [] then map[]
    else
      var n := |entries| - 1;
      if Truthy(entries[n].1) then Payload(entries[..n])[entries[n].0 := entries[n].1] else Payload(entries[..n])
  }

  /** Some entry gives field k a non-empty value. */
  ghost predicate Given(entries: seq<(string, string)>, k: string) {
    exists i :: 0 <= i < |entries| && entries[i].0 == k && Truthy(entries[i].1)
  }

  /** Entry i gives field k the non-empty value v, and no later entry gives k a non-empty value. */
  ghost predicate LastGiven(entries: seq<(string, string)>, i: int, k: string, v: string) {
    0 <= i < |entries| && entries[i] == (k, v) && Truthy(v)
    && forall j :: i < j < |entries| && entries[j].0 == k ==> !Truthy(entries[j].1)
  }

  /** The payload holds exactly the fields given a non-empty value, each with the last such value. */
  lemma {:induction false} PayloadMeaning(entries: seq<(string, string)>)
    ensures forall k :: k in Payload(entries) <==> Given(entries, k)
    ensures forall k :: k in Payload(entries) ==> exists i :: LastGiven(entries, i, k, Payload(entries)[k])
    decreases |entries|
  {
    if entries != [] {
      var n := |entries| - 1;
      var front := entries[..n];
      PayloadMeaning(front);
      assert forall i :: 0 <= i < n ==> front[i] == entries[i];
      var data := Payload(entries);
      var prev := Payload(front);
      forall k
        ensures k in data <==> Given(entries, k)
      {
        if k in prev {
          assert Given(front, k);
          var i :| 0 <= i < n && front[i].0 == k && Truthy(front[i].1);
          assert entries[i].0 == k && Truthy(entries[i].1);
        }
        if Given(entries, k) {
          var i :| 0 <= i < |entries| && entries[i].0 == k && Truthy(entries[i].1);
          if i < n {
            assert Given(front, k);
          }
        }
      }
      forall k | k in data
        ensures exists i :: LastGiven(entries, i, k, data[k])
      {
        if Truthy(entries[n].1) && k == entries[n].0 {
          assert LastGiven(entries, n, k, data[k]);
        } else {
          assert k in prev && data[k] == prev[k];
          var i :| LastGiven(front, i, k, prev[k]);
          assert LastGiven(entries, i, k, data[k]);
        }
      }
    }
  }

  /** The `forEach` loop that fills `data`. */
  method BuildPayload(entries: seq<(string, string)>) returns (data: map<string, string>)
    ensures data == Payload(entries)
  {
    data := map[];
    for i := 0 to |entries|
      invariant data == Payload(entries[..i])
    {
      assert entries[..i + 1][..i] == entries[..i];
      var (key, value) := entries[i];
      if Truthy(value) {
        data := data[key := value];
      }
    }
    assert entries[..|entries|] == entries;
  }

  /** One entry of `formDataErrors` (`maessage` in the page). */
  datatype FormError = FormError(field: string, message: string)

  const NameInvalid: string := "Некорректное имя"
  const NameRequired: string := "Имя обязательно"
  const PhoneInvalid: string := "Некорректный номер телефона"
  const TelegramInvalid: string := "Некорректный телеграм логин"
  const ContactRequired: string := "Номер телефона или телеграм логин обязателен"

  /** `data[key]` read as a condition. */
  predicate Present(data: map<string, string>, key: string) {
    key in data && Truthy(data[key])
  }

  /** What `test(data.name)` sees: the value, or the text "undefined" when the field is absent. */
  function NameArgument(data: map<string, string>): string {
    if "name" in data then data["name"] else "undefined"
  }

  /** Is there an error for this field in the list? */
  predicate HasFieldError(errors: seq<FormError>, field: string) {
    exists i :: 0 <= i < |errors| && errors[i].field == field
  }

  /** The name check: its error, if the tested text does not end in a letter. */
  function NameError(data: map<string, string>): (r: seq<FormError>)
    ensures r != [] <==> !NameMatches(NameArgument(data))
    ensures r != [] ==> r == [FormError("name", if Present(data, "name") then NameInvalid else NameRequired)]
  {
    if !NameTest(NameArgument(data)) then [FormError("name", if Present(data, "name") then NameInvalid else NameRequired)] else []
  }

  /** The phone format check, on a present phone only. */
  function PhoneError(data: map<string, string>): (r: seq<FormError>)
    ensures r != [] <==> Present(data, "phone") && !RunMatches(data["phone"], IsPhoneChar, 5)
    ensures r != [] ==> r == [FormError("phone", PhoneInvalid)]
  {
    if Present(data, "phone") && !PhoneTest(data["phone"]) then [FormError("phone", PhoneInvalid)] else []
  }

  /** The telegram format check, on a present login only. */
  function TelegramError(data: map<string, string>): (r: seq<FormError>)
    ensures r != [] <==> Present(data, "telegram") && !TelegramMatches(data["telegram"])
    ensures r != [] ==> r == [FormError("telegram", TelegramInvalid)]
  {
    if Present(data, "telegram") && !TelegramTest(data["telegram"]) then [FormError("telegram", TelegramInvalid)] else []
  }

  /** The check that a phone or a telegram login is given. */
  function ContactError(data: map<string, string>): (r: seq<FormError>)
    ensures r != [] <==> !Present(data, "phone") && !Present(data, "telegram")
    ensures r != [] ==> r == [FormError("phone", ContactRequired)]
  {
    if !Present(data, "phone") && !Present(data, "telegram") then [FormError("phone", ContactRequired)] else []
  }

  /** The error list of `register`: the four checks in this order. */
  function Errors(data: map<string, string>): seq<FormError> {
    NameError(data) + PhoneError(data) + TelegramError(data) + ContactError(data)
  }

  /** No field has two errors in the list. */
  predicate DistinctFields(errors: seq<FormError>) {
    forall i, j :: 0 <= i < j < |errors| ==> errors[i].field != errors[j].field
  }

  /** Two lists without a field in common join into one that still names each field once. */
  lemma DistinctConcat(a: seq<FormError>, b: seq<FormError>)
    requires DistinctFields(a) && DistinctFields(b)
    requires forall x, y :: x in a && y in b ==> x.field != y.field
    ensures DistinctFields(a + b)
  {
    var ab := a + b;
    forall i, j | 0 <= i < j < |ab|
      ensures ab[i].field != ab[j].field
    {
      if j < |a| {
        assert ab[i] == a[i] && ab[j] == a[j];
      } else if i >= |a| {
        assert ab[i] == b[i - |a|] && ab[j] == b[j - |a|];
      } else {
        assert ab[i] == a[i] && ab[j] == b[j - |a|];
        assert a[i] in a && b[j - |a|] in b;
      }
    }
  }

  /** The name check's errors are the list's errors for the field "name". */
  lemma ErrorsName(data: map<string, string>)
    ensures HasFieldError(Errors(data), "name") <==> !NameMatches(NameArgument(data))
    ensures forall e :: e in Errors(data) && e.field == "name" ==>
      e.message == (if Present(data, "name") then NameInvalid else NameRequired)
  {
    var name, phone, telegram, contact := NameError(data), PhoneError(data), TelegramError(data), ContactError(data);
    var errors := Errors(data);
    assert forall e :: e in errors <==> e in name || e in phone || e in telegram || e in contact;
    if HasFieldError(errors, "name") {
      var i :| 0 <= i < |errors| && errors[i].field == "name";
      assert errors[i] in errors;
    }
    if name != [] {
      assert errors[0] == name[0];
    }
  }

  /** The format and contact errors, each present exactly when its condition holds. */
  lemma ErrorsContact(data: map<string, string>)
    ensures FormError("phone", PhoneInvalid) in Errors(data) <==> Present(data, "phone") && !RunMatches(data["phone"], IsPhoneChar, 5)
    ensures FormError("telegram", TelegramInvalid) in Errors(data) <==> Present(data, "telegram") && !TelegramMatches(data["telegram"])
    ensures FormError("phone", ContactRequired) in Errors(data) <==> !Present(data, "phone") && !Present(data, "telegram")
  {
    var name, phone, telegram, contact := NameError(data), PhoneError(data), TelegramError(data), ContactError(data);
    assert forall e :: e in Errors(data) <==> e in name || e in phone || e in telegram || e in contact;
  }

  /** Only the five messages occur, and no field twice. */
  lemma ErrorsShape(data: map<string, string>)
    ensures forall e :: e in Errors(data) ==>
      e in {FormError("name", NameInvalid), FormError("name", NameRequired), FormError("phone", PhoneInvalid),
            FormError("telegram", TelegramInvalid), FormError("phone", ContactRequired)}
    ensures DistinctFields(Errors(data))
  {
    var name, phone, telegram, contact := NameError(data), PhoneError(data), TelegramError(data), ContactError(data);
    assert forall e :: e in Errors(data) <==> e in name || e in phone || e in telegram || e in contact;
    DistinctConcat(name, phone);
    DistinctConcat(name + phone, telegram);
    DistinctConcat(name + phone + telegram, contact);
  }

  /** The pushes of `register` into `formDataErrors`. */
  method CollectErrors(data: map<string, string>) returns (errors: seq<FormError>)
    ensures errors == Errors(data)
  {
    errors := [];
    if !NameTest(NameArgument(data)) {
      errors := errors + [FormError("name", if Present(data, "name") then NameInvalid else NameRequired)];
    }
    if Present(data, "phone") && !PhoneTest(data["phone"]) {
      errors := errors + [FormError("phone", PhoneInvalid)];
    }
    if Present(data, "telegram") && !TelegramTest(data["telegram"]) {
      errors := errors + [FormError("telegram", TelegramInvalid)];
    }
    if !Present(data, "phone") && !Present(data, "telegram") {
      errors := errors + [FormError("phone", ContactRequired)];
    }
  }

  /** The text "undefined" ends in a letter, so the name pattern accepts it. */
  lemma UndefinedPassesNameTest()
    ensures NameMatches("undefined")
  {
    assert NameTest("undefined");
  }

  /**
    For a payload built from the form (every value non-empty): an absent name
    is never reported, so "Имя обязательно" cannot appear; a present name is
    reported, as invalid, exactly when it does not end in a letter.
   */
  lemma NameErrorOnPayload(entries: seq<(string, string)>)
    ensures var errors := Errors(Payload(entries));
      && ("name" !in Payload(entries) ==> !HasFieldError(errors, "name"))
      && ("name" in Payload(entries) ==> (HasFieldError(errors, "name") <==> !NameTest(Payload(entries)["name"])))
      && forall i :: 0 <= i < |errors| ==> errors[i] != FormError("name", NameRequired)
  {
    UndefinedPassesNameTest();
    var data := Payload(entries);
    PayloadMeaning(entries);
    ErrorsName(data);
    ErrorsContact(data);
    ErrorsShape(data);
    if "name" in data {
      assert Present(data, "name");
    }
  }

  /** What the form must hold for `register` to find no error. */
  ghost predicate Acceptable(data: map<string, string>) {
    && ("name" !in data || NameMatches(data["name"]))
    && (Present(data, "phone") || Present(data, "telegram"))
    && (Present(data, "phone") ==> RunMatches(data["phone"], IsPhoneChar, 5))
    && (Present(data, "telegram") ==> TelegramMatches(data["telegram"]))
  }

  /**
    There is no error exactly when the name is absent or ends in a letter,
    a phone or a telegram login is given, and each one given passes its
    pattern.
   */
  lemma NoErrorsIffAcceptable(data: map<string, string>)
    ensures Errors(data) == [] <==> Acceptable(data)
  {
    var errors := Errors(data);
    UndefinedPassesNameTest();
    ErrorsName(data);
    ErrorsContact(data);
    ErrorsShape(data);
    if errors == [] {
      assert !HasFieldError(errors, "name");
    }
  }

  /** The outcome of `register`: the POST is sent with the payload, or the errors are shown. */
  datatype Submission = Sent(payload: map<string, string>) | Rejected(errors: seq<FormError>)

  /** `register`: build the payload, collect the errors, send only when there are none. */
  method Register(entries: seq<(string, string)>) returns (outcome: Submission)
    ensures outcome == if Errors(Payload(entries)) == [] then Sent(Payload(entries)) else Rejected(Errors(Payload(entries)))
    ensures outcome.Sent? <==> Acceptable(Payload(entries))
    ensures outcome.Sent? ==> forall k :: k in outcome.payload ==> Truthy(outcome.payload[k])
  {
    var data := BuildPayload(entries);
    var errors := CollectErrors(data);
    NoErrorsIffAcceptable(data);
    PayloadMeaning(entries);
    if |errors| > 0 {
      return Rejected(errors);
    }
    return Sent(data);
  }

  // ---------------------------------------------------------------------------
  // The countdown
  // ---------------------------------------------------------------------------

  const MsPerMinute: int := 1000 * 60
  const MsPerHour: int := 1000 * 60 * 60
  const MsPerDay: int := 1000 * 60 * 60 * 24

  /** The quotient rounded toward zero, which JavaScript's `%` pairs with. */
  function TruncQuot(a: int, b: int): int
    requires b > 0
  {
    if a >= 0 then a / b else -((-a) / b)
  }

  /** JavaScript's `%`: the remainder takes the sign of the dividend. */
  function JsRem(a: int, b: int): (r: int)
    requires b > 0
    ensures a == b * TruncQuot(a, b) + r
    ensures a >= 0 ==> 0 <= r < b
    ensures a < 0 ==> -b < r <= 0
  {
    if a >= 0 then a % b else -((-a) % b)
  }

  /**
    `Math.floor(distance / d)` etc.; for a positive divisor Dafny's `/` on
    integers is already the floor of the quotient.
   */
  function Countdown(distance: int): (int, int, int) {
    (distance / MsPerDay, JsRem(distance, MsPerDay) / MsPerHour, JsRem(distance, MsPerHour) / MsPerMinute)
  }

  /**
    Before the deadline the parts are a proper split of the distance: hours
    below 24, minutes below 60, and they account for all of it except the
    seconds of the current minute.
   */
  lemma CountdownSplits(distance: int)
    requires distance >= 0
    ensures var (days, hours, minutes) := Countdown(distance);
      && days >= 0 && 0 <= hours <= 23 && 0 <= minutes <= 59
      && days * MsPerDay + hours * MsPerHour + minutes * MsPerMinute <= distance
      && distance < days * MsPerDay + hours * MsPerHour + minutes * MsPerMinute + MsPerMinute
  {
    var days := distance / MsPerDay;
    var rd := distance % MsPerDay;
    var hours := rd / MsPerHour;
    var rh := rd % MsPerHour;
    assert distance == days * MsPerDay + rd;
    assert rd == hours * MsPerHour + rh;
    assert distance % MsPerHour == rh by {
      assert distance == days * 24 * MsPerHour + hours * MsPerHour + rh;
      assert distance == (days * 24 + hours) * MsPerHour + rh;
    }
    var minutes := rh / MsPerMinute;
    assert rh == minutes * MsPerMinute + rh % MsPerMinute;
  }

  /** After the deadline the parts are negative or zero: one millisecond late reads -1 everywhere. */
  lemma CountdownAfterDeadline()
    ensures Countdown(-1) == (-1, -1, -1)
    ensures Countdown(-MsPerDay - 1) == (-2, -1, -1)
  {
  }

  /** The last two characters of s (all of it when shorter): `s.slice(-2)`. */
  function LastTwo(s: string): string {
    if |s| <= 2 then s else s[|s| - 2..]
  }

  /** `(v < 10) ? ('0' + v).slice(-2) : v`, as the text the digit cells receive. */
  function Pad(v: int): string {
    if v < 10 then LastTwo("0" + IntToString(v)) else IntToString(v)
  }

  /**
    A single digit gets a leading zero; 10 and above are left as they are;
    after the deadline -1..-9 keep their sign and anything from -10 down
    loses it, leaving the last two digits.
   */
  lemma PadCases(v: int)
    ensures 0 <= v < 10 ==> Pad(v) == ['0', DigitChar(v)]
    ensures v >= 10 ==> Pad(v) == NatToString(v) && |Pad(v)| >= 2
    ensures -10 < v < 0 ==> Pad(v) == ['-', DigitChar(-v)]
    ensures v <= -10 ==> |Pad(v)| == 2 && '-' !in Pad(v)
  {
    if 0 <= v < 10 {
      assert IntToString(v) == [DigitChar(v)];
      assert "0" + IntToString(v) == ['0', DigitChar(v)];
    } else if -10 < v < 0 {
      assert IntToString(v) == ['-', DigitChar(-v)];
      assert "0" + IntToString(v) == ['0', '-', DigitChar(-v)];
    } else if v <= -10 {
      var d := NatToString(-v);
      assert "0" + IntToString(v) == "0-" + d;
      assert LastTwo("0-" + d) == d[|d| - 2..];
      assert IsDigit(d[|d| - 2]) && IsDigit(d[|d| - 1]);
    }
  }

  lemma PadExamples()
    ensures Pad(7) == "07" && Pad(0) == "00" && Pad(42) == "42" && Pad(123) == "123"
    ensures Pad(-5) == "-5" && Pad(-12) == "12"
  {
    PadCases(7);
    PadCases(0);
    PadCases(-5);
    assert NatToString(42) == "42";
    assert NatToString(12) == "12";
  }

  /**
    `timeToHtml`: cell i receives character i of the text; a cell past its
    end receives `undefined`, which `textContent` shows as "".
   */
  method TimeToHtml(cells: array<string>, time: string)
    modifies cells
    ensures forall i :: 0 <= i < cells.Length ==> cells[i] == (if i < |time| then [time[i]] else "")
  {
    for i := 0 to cells.Length
      invariant forall j :: 0 <= j < i ==> cells[j] == (if j < |time| then [time[j]] else "")
    {
      cells[i] := if i < |time| then [time[i]] else "";
    }
  }

  // ---------------------------------------------------------------------------
  // Scroll-triggered animation
  // ---------------------------------------------------------------------------

  /** One `animationObj` entry. */
  datatype Block = Block(offset: int, animated: bool)

  /** The condition under which `setAnimationClass` marks a block. */
  predicate ShouldAnimate(b: Block, scrollTop: int) {
    !b.animated && scrollTop >= b.offset + 100
  }

  /** The keys `setAnimationClass` marks at this scroll position. */
  function Triggered(blocks: map<string, Block>, scrollTop: int): (r: set<string>)
    ensures forall k :: k in r <==> k in blocks && !blocks[k].animated && scrollTop >= blocks[k].offset + 100
  {
    set k | k in blocks && ShouldAnimate(blocks[k], scrollTop)
  }

  /** Scrolling further down never unmarks a block. */
  lemma TriggeredGrows(blocks: map<string, Block>, s: int, t: int)
    requires s <= t
    ensures Triggered(blocks, s) <= Triggered(blocks, t)
  {
  }

  /** The entries `detectAnimationBlocks` writes: every flag false, a repeated key keeping its last offset. */
  function DetectedBlocks(found: seq<(string, int)>): (r: map<string, Block>)
    ensures forall k :: k in r ==> !r[k].animated
    decreases |found|
  {
    if found == [] then map[]
    else DetectedBlocks(found[..|found| - 1])[found[|found| - 1].0 := Block(found[|found| - 1].1, false)]
  }

  /** No flag is ever set, so a block is marked again on every scroll event past its threshold. */
  lemma MarkingRepeats(found: seq<(string, int)>, k: string, scrollTop: int)
    requires k in DetectedBlocks(found)
    ensures k in Triggered(DetectedBlocks(found), scrollTop) <==> scrollTop >= DetectedBlocks(found)[k].offset + 100
  {
  }

  /** The page's animation state: the recorded blocks and the nodes that carry the "animate" class. */
  class AnimationState {
    var animationObj: map<string, Block>
    var animatedNodes: set<string>

    constructor ()
      ensures animationObj == map[] && animatedNodes == {}
    {
      animationObj := map[];
      animatedNodes := {};
    }

    /** `detectAnimationBlocks`, given each block's key and computed offset in page order. */
    method DetectAnimationBlocks(found: seq<(string, int)>)
      modifies this`animationObj
      ensures animationObj == old(animationObj) + DetectedBlocks(found)
    {
      for i := 0 to |found|
        invariant animationObj == old(animationObj) + DetectedBlocks(found[..i])
      {
        assert found[..i + 1][..i] == found[..i];
        animationObj := animationObj[found[i].0 := Block(found[i].1, false)];
      }
      assert found[..|found|] == found;
    }

    /** `setAnimationClass`: add the class to every block past its threshold; the flags stay as they are. */
    method SetAnimationClass(scrollTop: int)
      modifies this`animatedNodes
      ensures animatedNodes == old(animatedNodes) + Triggered(animationObj, scrollTop)
    {
      var keys := animationObj.Keys;
      ghost var visited: set<string> := {};
      while keys != {}
        invariant keys + visited == animationObj.Keys && keys !! visited
        invariant animatedNodes == old(animatedNodes) + Triggered(animationObj, scrollTop) * visited
        decreases keys
      {
        var key :| key in keys;
        var value := animationObj[key];
        if !value.animated {
          if scrollTop >= value.offset + 100 {
            animatedNodes := animatedNodes + {key};
          }
        }
        keys := keys - {key};
        visited := visited + {key};
      }
    }
  }
}
