# Lottery and meetup site: a Dafny model

This project models the logic of a prize-wheel lottery landing page and a meetup landing page, together with their small Node/Express backends and the Parallax.js scene library the meetup page ships. Dafny checks the model and its properties.

What is modelled:

- **Lottery page client** (`lottery_fe/js/main.js`), module `LotteryClient`:
  - `testPrizes` and the recursive `getRandomPrize`. `Math.random()` is a finite sequence of draws in [0, 1).
  - The `number || 8` prize id that `startGame` posts and looks up.
  - `validateInput` against the message table, then `validateForm` with its phone-or-telegram group filter.
  - The `a=b&c=d` payload parser in `submitHandler`.
- **Meetup page client** (`affhub_meetup/js/main.js`), module `MeetupClient`:
  - The `register` payload filter and its error list. Sending happens only when the list is empty.
  - The countdown's days, hours and minutes, using JavaScript's truncating `%`, and its `('0' + v).slice(-2)` padding.
  - `timeToHtml` writing a value into an array of digit cells.
  - `detectAnimationBlocks`/`setAnimationClass`, which mark blocks with the "animate" class.
- **The field patterns both forms use**, module `FormRules`. Each is stated as a ghost predicate of what the regular expression matches, and an executable test is proved equal to it. The patterns are unanchored: name means "the last character is a letter", phone means "five phone characters in a row somewhere", telegram means "five word characters in a row somewhere". The meetup page writes them as `/.../g` literals. A literal is a new object on every evaluation, so `lastIndex` never carries over between tests.
- **The lottery backend** (`backend/app/routes/users.js`, `backend/app/routes/prizes.js`), module `BackendStore`:
  - Registration is find-or-create keyed by the client ip, and is always committed.
  - The prize list.
  - The award. It writes the prize id on the user and decrements the prize's amount, with no check of any kind.
  - Each handler is a pure transition on a `Db` value. Class `Backend` applies it to its own `users`/`prizes` fields. The inventory is the seeded one.
- **The earlier backend** (`app/routes/users.js`), module `AppStore`: find-or-create keyed by email, a commit only when a row was created, and the prize title in the response.
- **Shared rows and `findOrCreate`**, module `Records`. The users table is a sequence whose position plus one is the auto-incremented id (no route deletes a row). Prizes map id to row.
- **Parallax.js** (`affhub_meetup/js/libs/parallax.js`), module `ParallaxLib`:
  - The helpers `clamp`, `camelCase` and `deserialize`, and the precedence of the constructor's option merge.
  - The `Parallax` object's flags, readings, listeners and per-axis setters.
  - `enable`/`disable`, `rotate` and the timers that re-enable or recalibrate.
- **Pieces of the JavaScript runtime**, module `JsRuntime`: the values may be absent, the code tests truthiness, the regular expressions use `\s`/`\w`, and the code calls `split`/`join` and `toString` on integers.

The award handler in `backend/app/routes/prizes.js` checks nothing: not that a registrant is awarded once, not that an amount stays at zero or above, and not that the two writes happen together. `AwardGoesNegative`, `AwardTwice` and `AwardUnknownUser` show this. The client's retry in `getRandomPrize` is gated on a `count` field that the served prize rows do not have (see Findings).

## Model

| member | source | states |
|---|---|---|
| `JsRuntime.Split` | lottery_fe/js/main.js:143 | `split` with a one-character separator yields at least one piece, and no piece holds the separator |
| `JsRuntime.JoinSplit` | lottery_fe/js/main.js:143 | joining the pieces of a split with the separator gives back the original string |
| `JsRuntime.SplitJoin` | lottery_fe/js/main.js:143-145 | splitting a join of separator-free pieces gives back exactly those pieces |
| `JsRuntime.SplitWithoutSeparator` | lottery_fe/js/main.js:145 | a string without the separator splits to itself alone |
| `JsRuntime.NatToString` | affhub_meetup/js/main.js:383-385 | `toString` of a natural number: decimal digits, one digit iff below 10, no leading zero |
| `JsRuntime.NatToStringValue` | affhub_meetup/js/main.js:383-385 | reading the digits back gives the number |
| `JsRuntime.IntToString` | affhub_meetup/js/main.js:383 | `toString` of an integer is never empty |
| `FormRules.NameTest` | lottery_fe/js/main.js:84 | the name test answers true exactly when a non-empty run of name letters reaches the end of the value |
| `FormRules.ScanRunCorrect` | lottery_fe/js/main.js:89 | the left-to-right run scan answers true exactly when a run of n pattern characters exists |
| `FormRules.RunMatchesExactly` | lottery_fe/js/main.js:89 | a run of at least n characters exists iff a run of exactly n does |
| `FormRules.RunTest` | lottery_fe/js/main.js:89 | `/[P]{n,}/.test(s)` is true iff s contains n or more consecutive characters of P |
| `FormRules.PhoneTest` | lottery_fe/js/main.js:89 | the phone test is true iff the value contains five consecutive digits, `+ ( ) -` or whitespace |
| `FormRules.TelegramAtIsIrrelevant` | lottery_fe/js/main.js:95 | the optional '@' changes nothing: the pattern matches iff five word characters stand in a row |
| `FormRules.TelegramTest` | lottery_fe/js/main.js:95 | the telegram test is true iff the value holds an optional '@' followed by five or more word characters |
| `FormRules.PatternExamples` | lottery_fe/js/main.js:84-95 | "123abc" is a valid name and "abc1" is not; a number inside prose passes the phone test; a login inside other text passes the telegram test |
| `LotteryClient.TestPrizes` | lottery_fe/js/main.js:102-110 | the loop returns true iff some entry has `count > 0` |
| `LotteryClient.ServedListIsNeverCounted` | lottery_fe/js/main.js:105 | on rows carrying only `amount`, as the prize list is served, `testPrizes` is false whatever the amounts |
| `LotteryClient.RandomNumberInRange` | lottery_fe/js/main.js:111-113 | `Math.floor(u * (max - min + 1)) + min` lies in [min, max], and is min for an empty range |
| `LotteryClient.GetRandomPrize` | lottery_fe/js/main.js:114-122 | a picked index is in range with a positive amount; `false` only when no entry is counted; a TypeError exactly for an empty list; running out of draws only while it would recurse |
| `LotteryClient.UncountedSpinUsesOneDraw` | lottery_fe/js/main.js:114-122 | when no entry is counted, the first draw decides: its index if that sector is in stock, `false` otherwise, with no recursion |
| `LotteryClient.CountedButEmptyNeverStops` | lottery_fe/js/main.js:120 | a counted entry with every amount spent makes the pick recurse through any finite supply of draws |
| `LotteryClient.PickComesFromADraw` | lottery_fe/js/main.js:115-118 | a picked index is the index selected by one of the draws |
| `LotteryClient.SpentSectorGivesUp` | lottery_fe/js/main.js:114-122 | a draw landing on a spent sector gives `false` although another sector is in stock, and the page then posts id 8 |
| `LotteryClient.GetRandomPrizeIntended` | lottery_fe/js/main.js:114-122 | the pick with the retry gated on `amount`: `false` only when no sector is in stock |
| `LotteryClient.IntendedTakesFirstDrawInStock` | lottery_fe/js/main.js:114-122 | the intended pick returns the sector of the first draw that lands in stock |
| `LotteryClient.PostedPrizeIdCases` | lottery_fe/js/main.js:261 | the id posted is the drawn index when non-zero, and 8 for index 0 or `false` |
| `LotteryClient.FindById` | lottery_fe/js/main.js:266 | `prizes.find` by id: the first entry with that id, or none when no entry has it |
| `LotteryClient.ShownPrizeIsThePreviousEntry` | lottery_fe/js/main.js:250-266 | on the seeded list, the entry posted and shown for sector i is entry (i+7) mod 8, never the entry whose amount was checked |
| `LotteryClient.ValidateInput` | lottery_fe/js/main.js:178-202 | `false` for a missing input or one without a rule; the rule's empty message for an empty value; its invalid message when the pattern does not match; "" otherwise |
| `LotteryClient.ErrorOf` | lottery_fe/js/main.js:215-221 | each input pushes at most one error |
| `LotteryClient.RawErrors` | lottery_fe/js/main.js:207-227 | the collected errors number at most the inputs |
| `LotteryClient.PassedGroups` | lottery_fe/js/main.js:222-226 | a group is in `validGroups` iff some input of that group produced no error |
| `LotteryClient.KeepErrors` | lottery_fe/js/main.js:229-241 | the filter keeps exactly the errors that are ungrouped or whose group has no passing input |
| `LotteryClient.ValidateForm` | lottery_fe/js/main.js:203-243 | the loop's result is the per-input errors in input order, filtered by the groups that had a passing input |
| `LotteryClient.KeepErrorsIsSubsequence` | lottery_fe/js/main.js:229-241 | the filter only drops errors and keeps the rest in order |
| `LotteryClient.ValidateFormMeaning` | lottery_fe/js/main.js:207-242 | the result is a subsequence of the per-input errors, at most one per input; an ungrouped error always stays; a grouped error is dropped iff an input of its group passed |
| `LotteryClient.TelegramAloneIsEnough` | lottery_fe/js/main.js:203-243 | in any form, an input named telegram whose value holds five word characters in a row removes every error of the phone-or-telegram group |
| `LotteryClient.ParsePayload` | lottery_fe/js/main.js:141-149 | the loop's payload is the fold of the `&`-pieces: key before the first '=', the decoded text up to the second '=' as value, a later key overwriting, and failure when decoding throws |
| `LotteryClient.PayloadStaysFailed` | lottery_fe/js/main.js:147 | once decoding throws, no further piece changes the outcome |
| `LotteryClient.PieceOfPair` | lottery_fe/js/main.js:145-147 | a serialised piece `encode(name)=encode(value)` gives back the encoded name as its key and the encoded value |
| `LotteryClient.EncodedNames` | lottery_fe/js/main.js:142 | each field paired with its name as `form.serialize()` encodes it |
| `LotteryClient.PayloadOfPairs` | lottery_fe/js/main.js:143-149 | the pieces of serialised fields give the map from each encoded name to its last value |
| `LotteryClient.ParseSerialized` | lottery_fe/js/main.js:142-149 | parsing decodes the values of `form.serialize()` but not the names: each encoded field name maps to its last value |
| `LotteryClient.ParseSerializedPlainNames` | lottery_fe/js/main.js:142-149 | for names that encoding leaves unchanged, parsing undoes `form.serialize()`: each field name maps to its last value |
| `MeetupClient.PayloadMeaning` | affhub_meetup/js/main.js:465-468 | the payload holds exactly the fields with a non-empty value, each with the last non-empty value given for it |
| `MeetupClient.BuildPayload` | affhub_meetup/js/main.js:465-468 | the `forEach` loop builds exactly the payload `Payload` defines |
| `MeetupClient.NameError` | affhub_meetup/js/main.js:469-473 | the name check reports one error iff the tested text does not end in a letter, "Некорректное имя" for a present name |
| `MeetupClient.PhoneError` | affhub_meetup/js/main.js:474-478 | one phone format error iff a phone is given and holds no five phone characters in a row |
| `MeetupClient.TelegramError` | affhub_meetup/js/main.js:479-483 | one telegram format error iff a login is given and holds no five word characters in a row |
| `MeetupClient.ContactError` | affhub_meetup/js/main.js:484-488 | one contact error iff neither a phone nor a telegram login is given |
| `MeetupClient.ErrorsName` | affhub_meetup/js/main.js:469-473 | the list has an error for the name iff the tested text does not end in a letter, with the message for a present or an absent name |
| `MeetupClient.ErrorsContact` | affhub_meetup/js/main.js:474-488 | each format error and the contact error is in the list exactly when its condition holds |
| `MeetupClient.ErrorsShape` | affhub_meetup/js/main.js:469-488 | the list holds only the five messages and never two errors for one field |
| `MeetupClient.CollectErrors` | affhub_meetup/js/main.js:469-488 | the four pushes build exactly the list `Errors` defines |
| `MeetupClient.NoErrorsIffAcceptable` | affhub_meetup/js/main.js:469-490 | no error exactly when the name is absent or ends in a letter, a phone or a telegram login is given, and each one given passes its pattern |
| `MeetupClient.UndefinedPassesNameTest` | affhub_meetup/js/main.js:469 | the text "undefined" that an absent name is tested as passes the name pattern |
| `MeetupClient.NameErrorOnPayload` | affhub_meetup/js/main.js:469-473 | on a built payload an absent name is never reported, "Имя обязательно" never appears, and a present name is reported iff it fails the test |
| `MeetupClient.Register` | affhub_meetup/js/main.js:460-490 | the request is sent with the built payload iff the error list is empty, and otherwise the errors are shown; it is sent iff the form is acceptable, and then carries only non-empty values |
| `MeetupClient.JsRem` | affhub_meetup/js/main.js:380-381 | JavaScript's `%`: the dividend is the divisor times the quotient rounded toward zero, plus the remainder, which takes the sign of the dividend and stays below the divisor in size |
| `MeetupClient.CountdownSplits` | affhub_meetup/js/main.js:379-381 | before the deadline: hours in 0..23, minutes in 0..59, and days, hours and minutes account for the distance to within one minute |
| `MeetupClient.CountdownAfterDeadline` | affhub_meetup/js/main.js:377-381 | one millisecond after the deadline every part reads -1 |
| `MeetupClient.PadCases` | affhub_meetup/js/main.js:383-385 | a digit gets a leading "0"; 10 and above are unchanged; -1..-9 keep their sign; -10 and below lose it |
| `MeetupClient.PadExamples` | affhub_meetup/js/main.js:383-385 | 7 shows as "07", 42 as "42", -5 as "-5" and -12 as "12" |
| `MeetupClient.TimeToHtml` | affhub_meetup/js/main.js:399-404 | cell i shows the i-th character of the text, and a cell past its end shows nothing |
| `MeetupClient.Triggered` | affhub_meetup/js/main.js:203-213 | a key is marked iff its flag is false and the scroll position is at least its offset plus 100 |
| `MeetupClient.TriggeredGrows` | affhub_meetup/js/main.js:207 | scrolling further down never unmarks a block |
| `MeetupClient.DetectedBlocks` | affhub_meetup/js/main.js:178-189 | every recorded block has its flag false |
| `MeetupClient.MarkingRepeats` | affhub_meetup/js/main.js:184-187 | since no flag is ever set, a block is marked on every scroll past its threshold |
| `MeetupClient.AnimationState.DetectAnimationBlocks` | affhub_meetup/js/main.js:178-189 | each block found is recorded under its key with its offset and a false flag; a later block with the same key wins |
| `MeetupClient.AnimationState.SetAnimationClass` | affhub_meetup/js/main.js:203-213 | the marked nodes grow by exactly the triggered keys, and the recorded blocks are left as they were |
| `Records.FindFirst` | backend/app/routes/users.js:12-15 | the first row whose column equals the value, or none when no row matches |
| `Records.FindOrCreate` | backend/app/routes/users.js:12-19 | the first matching row, untouched, or, exactly when none matches, a new row from the defaults at the next id |
| `Records.FindOrCreateTwice` | backend/app/routes/users.js:12-19 | a second find-or-create with the same key finds the same row and inserts nothing |
| `Records.FindOrCreateKeepsUnique` | backend/app/routes/users.js:12-19 | find-or-create keeps the key column free of duplicates |
| `BackendStore.ClientIp` | backend/app/routes/users.js:10 | the ip is the forwarded-for header when it is non-empty, the connection's address otherwise |
| `BackendStore.RegisterEffect` | backend/app/routes/users.js:12-21 | a known ip gets its existing row back and nothing is written; an unknown one gets a new row of body plus the derived ip, which overrides the body's; prizes untouched; committed in both cases |
| `BackendStore.RegisterTwice` | backend/app/routes/users.js:12-39 | two registrations from one ip return the same user id and add at most one row |
| `BackendStore.RegisterKeepsIpsUnique` | backend/app/routes/users.js:12-19 | registration keeps one row per ip |
| `BackendStore.AwardEffect` | backend/app/routes/prizes.js:15-26 | the user with that id gets the prize id, overwriting any earlier one; that prize's amount drops by exactly 1; every other user and prize is unchanged |
| `BackendStore.AwardUnknownUser` | backend/app/routes/prizes.js:15-26 | with an unknown user id no user changes, yet the prize is still decremented |
| `BackendStore.AwardGoesNegative` | backend/app/routes/prizes.js:22-26 | an exhausted prize is decremented all the same and goes below zero |
| `BackendStore.AwardTwice` | backend/app/routes/prizes.js:22-26 | repeating the award takes 2 off the amount: it is not idempotent |
| `BackendStore.AwardKeepsIpsUnique` | backend/app/routes/prizes.js:15-21 | an award changes no user's columns, so one row per ip still holds |
| `BackendStore.AwardAllCountsDown` | backend/app/routes/prizes.js:22-26 | after a run of awards each prize's amount has dropped by the number of requests naming it, with no floor |
| `BackendStore.SeedFacts` | backend/app/database/seeders/1_seed_prizes.js:5-30 | the seed holds ids 1 to 8 with positive amounts, and six awards of prize 1 (amount 5) leave it at -1 |
| `BackendStore.Backend.Seeded` | backend/app/database/seeders/1_seed_prizes.js:5-30 | a fresh database has no users and the eight seeded prizes |
| `BackendStore.Backend.ListPrizes` | backend/app/routes/prizes.js:6-10 | the list is every prize row, and nothing is written |
| `BackendStore.Backend.RegisterUser` | backend/app/routes/users.js:8-39 | the tables and the returned id are those of the registration transition for the derived ip |
| `BackendStore.Backend.AwardPrize` | backend/app/routes/prizes.js:12-27 | the tables afterwards are those of the award transition |
| `AppStore.PrizeTitle` | app/routes/users.js:24 | the response carries a title iff the user holds a prize id naming an existing prize, and then it is that prize's title |
| `AppStore.RegisterEffect` | app/routes/users.js:12-25 | a known email gets its existing row back, nothing is written and nothing committed; an unknown one gets a new row holding the body, committed; the response's prize is the returned user's |
| `AppStore.NewUserHasNoPrize` | app/routes/users.js:16-24 | a newly created user's response carries no prize |
| `AppStore.RegisterTwice` | app/routes/users.js:12-21 | two requests with one email name the same row, add at most one, and the second does not commit |
| `AppStore.RegisterKeepsEmailsUnique` | app/routes/users.js:12-19 | registration keeps one row per email |
| `AppStore.AppBackend.RegisterUser` | app/routes/users.js:8-26 | the tables, the cookie's id, the commit and the response's prize are those of the registration transition |
| `ParallaxLib.Clamp` | affhub_meetup/js/libs/parallax.js:16-20 | the result lies between the bounds, taken in either order, and is the value itself when that lies between them |
| `ParallaxLib.ClampIsMedian` | affhub_meetup/js/libs/parallax.js:16-20 | clamp equals the median of the value and the two bounds |
| `ParallaxLib.ClampIdempotent` | affhub_meetup/js/libs/parallax.js:16-20 | clamping twice is clamping once |
| `ParallaxLib.ToUpper` | affhub_meetup/js/libs/parallax.js:42 | upper-casing a character other than '-' never yields '-' |
| `ParallaxLib.DropHyphens` | affhub_meetup/js/libs/parallax.js:41 | the greedy `-+`: a suffix that does not start with '-', after a prefix made only of hyphens |
| `ParallaxLib.CamelCase` | affhub_meetup/js/libs/parallax.js:40-44 | the result is no longer than the name (the rule itself is stated by `CamelCaseHyphenRun` and `CamelCaseAllHyphens`) |
| `ParallaxLib.DropHyphensRun` | affhub_meetup/js/libs/parallax.js:41 | the greedy `-+` consumes a whole run of hyphens and nothing after it |
| `ParallaxLib.CamelCaseHyphenRun` | affhub_meetup/js/libs/parallax.js:41-43 | a run of hyphens of any length is removed and the character after it upper-cased, or kept as it is when it is a line terminator |
| `ParallaxLib.CamelCaseAllHyphens` | affhub_meetup/js/libs/parallax.js:41-43 | a name made only of hyphens becomes empty |
| `ParallaxLib.CamelCaseHasNoHyphen` | affhub_meetup/js/libs/parallax.js:40-44 | no hyphen survives the conversion |
| `ParallaxLib.CamelCaseWithoutHyphen` | affhub_meetup/js/libs/parallax.js:40-44 | a name without hyphens is unchanged |
| `ParallaxLib.CamelCaseIdempotent` | affhub_meetup/js/libs/parallax.js:40-44 | converting twice changes nothing more |
| `ParallaxLib.CamelCasePrefix` | affhub_meetup/js/libs/parallax.js:40-44 | a hyphen-free prefix passes through unchanged |
| `ParallaxLib.CamelCaseOneHyphen` | affhub_meetup/js/libs/parallax.js:41-43 | a single hyphen is removed and the character after it upper-cased |
| `ParallaxLib.CamelCaseExample` | affhub_meetup/js/libs/parallax.js:40-44 | "webkit-transform" becomes "webkitTransform" |
| `ParallaxLib.CamelCaseRunExamples` | affhub_meetup/js/libs/parallax.js:41-43 | a run of hyphens goes as one ("a--b" to "aB"), and a trailing run is just removed ("x-" to "x") |
| `ParallaxLib.Deserialize` | affhub_meetup/js/libs/parallax.js:26-38 | "true" and "false" give the booleans and only they do; an absent attribute and "null" give null; other text gives a number when numeric, else itself |
| `ParallaxLib.Merge` | affhub_meetup/js/libs/parallax.js:182-188 | explicit options win over non-null data attributes, which win over the defaults; null data attributes are dropped |
| `ParallaxLib.KeepOrReplace` | affhub_meetup/js/libs/parallax.js:387 | an undefined argument keeps the current value, anything else replaces it |
| `ParallaxLib.InputListener` | affhub_meetup/js/libs/parallax.js:348-362 | `enable` listens for orientation when supported, else motion when supported, else the mouse |
| `ParallaxLib.Parallax.constructor` | affhub_meetup/js/libs/parallax.js:156-248 | the input element falls back to the element; the settings are the merged ones; the calibration flag is raised, readings are zero, and the object ends enabled |
| `ParallaxLib.Parallax.Enable` | affhub_meetup/js/libs/parallax.js:342-366 | a no-op when enabled; otherwise enabled, not portrait, listening for the chosen input and resizes, calibration zeroed only for the mouse |
| `ParallaxLib.Parallax.Disable` | affhub_meetup/js/libs/parallax.js:368-384 | a no-op when disabled; otherwise disabled and no longer listening for the input or resizes |
| `ParallaxLib.Parallax.Calibrate` | affhub_meetup/js/libs/parallax.js:386-389 | each axis keeps its flag for an undefined argument and takes the argument otherwise; nothing else changes |
| `ParallaxLib.Parallax.Invert` | affhub_meetup/js/libs/parallax.js:391-394 | the same for the invert flags |
| `ParallaxLib.Parallax.Friction` | affhub_meetup/js/libs/parallax.js:396-399 | the same for the friction values |
| `ParallaxLib.Parallax.Scalar` | affhub_meetup/js/libs/parallax.js:401-404 | the same for the scalars |
| `ParallaxLib.Parallax.SetLimit` | affhub_meetup/js/libs/parallax.js:406-409 | the same for the limits |
| `ParallaxLib.Parallax.Origin` | affhub_meetup/js/libs/parallax.js:411-414 | the same for the origins |
| `ParallaxLib.Parallax.Rotate` | affhub_meetup/js/libs/parallax.js:497-517 | portrait follows the window shape; a change of it, or a raised flag, makes this reading the calibration; the flag ends lowered; the input is always the reading divided by 30 |
| `ParallaxLib.Parallax.OnCalibrationTimer` | affhub_meetup/js/libs/parallax.js:454-456 | the calibration flag is raised again |
| `ParallaxLib.Parallax.OnDeviceOrientation` | affhub_meetup/js/libs/parallax.js:519-526 | a reading with both angles sets the orientation status and is applied as by rotate, portrait, flag, calibration and input; otherwise nothing changes |
| `ParallaxLib.Parallax.OnDeviceMotion` | affhub_meetup/js/libs/parallax.js:528-535 | the same for a motion event and the motion status, calibration included |
| `ParallaxLib.Parallax.OnOrientationTimer` | affhub_meetup/js/libs/parallax.js:434-442 | with orientation support but no reading yet, orientation is dropped and the object ends enabled on motion or the mouse, even if it had been disabled, with the calibration reset to zero when it falls back to the mouse; otherwise nothing changes |
| `ParallaxLib.Parallax.OnMotionTimer` | affhub_meetup/js/libs/parallax.js:444-452 | the same for motion, falling back to orientation or the mouse, and resetting the calibration for the mouse |
| `ParallaxLib.Parallax.OnWindowResize` | affhub_meetup/js/libs/parallax.js:458-460 | the window size becomes the new one |

## Left out

- Google Sheets appends (`backend/app/routes/users.js:29-34`, the affhub route and its controller): network I/O to a foreign API. `$.ajax` calls are likewise left out; their outcome is the value a function returns.
- The following are plumbing, not logic: Express wiring, cookies, status codes and response bodies beyond the returned values. The award handler never sends a response.
- Sequelize models, migrations, associations and schema constraints are not modelled. The model assumes every body field, and the derived ip, is stored as given, although `backend/app/database/models/User.js` declares no `ip` attribute and only the third migration adds the column. The model also assumes the user's prize is read through its prize id, as the associations in `backend/app/database/index.js` allow.
- Transactions and concurrent requests: requests run one after another. The commit is reported as a flag.
- AppStore.PrizeTitle: reads the prize through the user's prize id. The association declared in `app/database/models/User.js` (`hasOne` on the prize's own id) and eager loading on `findOrCreate`'s create path are ORM behaviour and are not modelled.
- AppStore.Register: a body without an email is looked up as "a row without an email". What the ORM does with an undefined where-value is not modelled.
- Request bodies are text columns only. Body fields that would set `id`, `prizeId` or the timestamps are not modelled. Route parameters and `body.userId` are taken as integers; the string-to-integer cast is not modelled.
- `Math.random()` is a sequence of draws in [0, 1). `new Date()` enters as the millisecond distance to the deadline. Layout offsets and scroll positions are integers given by the caller.
- LotteryClient.GetRandomPrize: the draws are finite. Where the page would keep drawing, the model returns `OutOfDraws`.
- `startGame`'s spin count and wheel angle are left out: animation only.
- The page's handlers of the prize list and registration responses are left out, and so is `prizes` being undefined before the list arrives.
- `decodeURIComponent` and `encodeURIComponent` are parameters. Their definitions are not modelled.
- Names inherited from `Object.prototype` (`errorMessages["constructor"]`) are not modelled as rules.
- Numbers are exact reals or integers: no floating-point rounding, NaN or infinities. This covers the `beta || 0` fallback for NaN, and the `parseInt` of layout offsets.
- `toString` of integers from 10^21 up switches to exponent form; not modelled.
- ParallaxLib.Deserialize: the numeric test is a parameter. The number is kept as its text; `parseFloat`'s value is not modelled.
- ParallaxLib.ToUpper: covers ASCII and the basic Cyrillic block only. Full Unicode case mapping is not modelled, including mappings that yield several characters.
- ParallaxLib.Parallax.constructor: takes the merged per-axis settings already typed. `Merge` states the precedence rule on name-to-value maps, but the conversion of deserialised attribute values into those settings is not modelled.
- The other constructor options (relative input, hover, thresholds, delays, precision, selector, ready callback) are not modelled.
- Parallax motion is left out. This covers `onAnimationFrame`, `onMouseMove`, `updateLayers`, `updateDimensions`, `updateBounds`, `setPosition`, `accelerate` and `transformSupport`. Animation-frame and timer handles, and `doReadyCallback`, are also left out. Window listeners are a set of listener kinds.
- DOM updates are left out, other than the digit cells and the set of marked block keys. This covers error display, field clearing, popups, sliders and SVG animation.

## Findings

| source | as written | input that shows it | evidently intended | confidence | as-written member | corrected member |
|---|---|---|---|---|---|---|
| lottery_fe/js/main.js:105 | the retry after a spent sector is gated on `prize.count > 0`; the served prize rows have only `amount`, so the gate is always false | prizes `[{id 1, amount 0}, {id 2, amount 5}]` and a first draw landing on sector 0: the pick returns `false` although prize 2 is in stock, and the page posts id 8 | gate on `amount > 0`, so that `false` means no prize is in stock | high; not executed | `LotteryClient.SpentSectorGivesUp` | `LotteryClient.GetRandomPrizeIntended` |
