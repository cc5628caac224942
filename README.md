# AutoNumberGame — a verified model of the game core

AutoNumberGame is a chat game in which the players collect Russian licence
plate numbers 001..999 together. A player sends a number; the game
remembers it, says how many are left every ten numbers, announces victory
once 999 numbers are stored, and on "?" lists the first ten numbers nobody
has found yet.

This project models the two classes that hold the game's state and
rules:

- `Storage.GameStorage` (`game_storage.dfy`) is the registry. It holds the set of claimed tokens, the set of players and
  the time of the last change. Alongside it are:
  - the `isValidNumber` check;
  - the scan for the first ten unclaimed padded names;
  - the save/load contract with the JSON data file.

  Tokens are stored exactly as sent, so "7" and "007" are two members.
  The model proves what follows from that:
  - the game can count as complete while "001" is still listed as missing
    (`CompleteWhileMissing`);
  - the remaining count can become negative (`RemainingCanBeNegative`);
  - an empty missing list does imply at least 999 members
    (`NoneMissingMeansComplete`).
- `Game.GameLogic` (`game_logic.dfy`) is the message state machine. It:
  - trims the message;
  - answers "?" with the missing list;
  - hands a well-formed number to the submission;
  - answers anything else with a usage hint.

  A submission records the sender as a player and rejects duplicates. It
  adds the number, saves, and replies with "запомнили", the remaining
  count on multiples of ten, and the victory lines on completion.
  - Each handler is proved against a pure function of the registry before
    the call: `MessageReply` and `SubmissionReply`.
  - The new state is stated field by field.
  - Lemmas pin down what each reply announces and exactly when.

Some of the repository's storage tests expect a later registry than the one
`src/storage/gameStorage.js` implements:
- numbers normalised to their padded names
  (`src/storage/gameStorage.test.js:311-325`);
- an owner record per number (`:234-252`);
- bot-state and activity methods (`:279-843`).

The code has none of these, and the model follows the code. Tokens are
stored raw, so "7" and then "007" are both added (`Scenarios.TwoSpellings`),
and `hasNumber("01")` is false after `addNumber("1")`.

`text.dfy` (module `Text`) defines the JavaScript string operations the
two classes rely on:
- `trim` with JavaScript's whitespace set;
- digit patterns and `parseInt` on digit strings;
- `String(n)`, `padStart`;
- `join`.

It also defines `Lines`, which mirrors `split('\n')`. The source never
calls `split`; the model uses `Lines` to state which lines a reply holds.

Each method in `scenarios.dfy` builds fresh objects and calls the handlers
in a situation taken from the repository's tests or from the source. Its postcondition about the
result is proved.

Conventions:
- Clock readings, the outcomes of file-system calls and the environment
  variable are parameters.
- A handler whose save fails settles as `Thrown(message)`.
- The data file's last written document is the ghost field
  `GameStorage.lastSaved`.

## Model

| member | source | states |
|---|---|---|
| Text.Trim | src/game/gameLogic.js:7 | definition of `trim` (trim the start, then the end); characterised by `TrimShape` and `TrimSurrounded` |
| Text.TrimShape | src/game/gameLogic.js:7 | `trim` gives a contiguous piece of the input that neither starts nor ends with whitespace, and what it cut off on both sides is whitespace |
| Text.TrimSurrounded | src/game/gameLogic.js:7 | whitespace around a token that neither starts nor ends with whitespace is removed exactly, leaving the token |
| Text.TrimStart | src/game/gameLogic.js:7 | leading trim keeps a suffix, removes only whitespace, and stops at a non-whitespace character |
| Text.ParseDigits | src/storage/gameStorage.js:73 | the decimal value of k digits is below 10^k |
| Text.NatToStringParses | src/storage/gameStorage.js:87 | `String(n)` reads back as n and has no leading zero |
| Text.NatToStringLength | src/storage/gameStorage.js:87 | a number below 10^k is written with at most k digits |
| Text.IntToString | src/game/gameLogic.js:54 | the decimal rendering of an integer holds only digits and a minus sign, and for n ≥ 0 is `String(n)` |
| Text.PadStartShape | src/storage/gameStorage.js:87 | `padStart` yields max(width, length) characters: fill characters followed by the original string |
| Text.LinesOfJoin | src/game/gameLogic.js:99-103 | splitting lines joined with "\n" at the line breaks gives back the lines, when none contains a break |
| Text.JoinThreeWide | src/game/gameLogic.js:88 | joining three-character names with ", " puts name k at offset 5k, total length 5n-2 |
| Storage.IsValidNumber | src/storage/gameStorage.js:71-74 | definition of `isValidNumber`; characterised by `ValidNumberCharacterized` |
| Storage.ValidNumberCharacterized | src/storage/gameStorage.js:71-74 | a token is valid exactly when it has 1-3 characters, all digits, not all zeros (the 999 bound is implied by the pattern) |
| Storage.ValidNumberExamples | src/storage/gameStorage.test.js:92-110 | "001", "123", "999", "1", "42" are accepted; "000", "1000", "abc", "12a", "" are rejected |
| Storage.Pad3 | src/storage/gameStorage.js:87-88 | definition of `String(i).padStart(3, '0')`; characterised by `Pad3Slot` and `Pad3Injective` |
| Storage.Pad3Slot | src/storage/gameStorage.js:87-88 | the padded name of slot 1..999 has three digits, is valid and reads back as the slot |
| Storage.Pad3Injective | src/storage/gameStorage.js:87-88 | distinct slots have distinct padded names |
| Storage.UnpaddedIsDistinctMember | src/storage/gameStorage.js:59-66 | for slots below 100 the unpadded and padded spellings are both valid and different, so both can be members |
| Storage.AbsentUpToSpec | src/storage/gameStorage.js:86-91 | the scan up to n collects exactly the slots whose padded name is absent, in ascending order |
| Storage.FirstTenMissing | src/storage/gameStorage.js:84-93 | definition of the list `getFirstTenMissingNumbers` returns; characterised by `FirstTenMissingSpec` |
| Storage.FirstTenMissingSpec | src/storage/gameStorage.js:84-93 | the missing list has at most ten names; each is the padded name of an absent slot; they ascend; no absent slot below the last listed (anywhere, when fewer than ten) is left out |
| Storage.TakeAbsentSpec | src/storage/gameStorage.js:86-91 | the first ten absent slots in 1..n, as numbers: bounded, absent, ascending, gap-free |
| Storage.SmallAbsentSlotListed | src/storage/gameStorage.js:84-93 | any absent slot among 1..10 appears in the missing list |
| Storage.FirstTenMissingAtStart | src/storage/gameStorage.test.js:163-168 | while "001".."010" are unclaimed (e.g. on an empty registry) the list is exactly "001".."010" |
| Storage.NoneMissingMeansComplete | src/storage/gameStorage.js:84-97 | an empty missing list implies at least 999 members, i.e. a complete game |
| Storage.CompleteWhileMissing | src/storage/gameStorage.js:95-97 | a registry of 999 valid members counts as complete while "001" is still reported missing, because "1" fills no slot |
| Storage.RemainingCanBeNegative | src/storage/gameStorage.js:80-82 | 1000 valid members (all padded names plus "1") leave a remaining count of -1 |
| Storage.Restore | src/storage/gameStorage.js:39-40 | `new Set(field \|\| [])` is empty for an absent field and otherwise holds exactly the listed elements |
| Storage.RestoreStamp | src/storage/gameStorage.js:41 | definition of `parsed.lastUpdate \|\| now`; used by `SaveLoadRoundTrip` and `GameStorage.LoadData` |
| Storage.SaveLoadRoundTrip | src/storage/gameStorage.js:33-57 | loading the document a save wrote restores both sets and a non-empty stamp, and the lists have one entry per member |
| Storage.SetToSeq | src/storage/gameStorage.js:51-52 | `Array.from(set)` lists every member exactly once and nothing else |
| Storage.GameStorage.constructor | src/storage/gameStorage.js:5-12 | a new registry has no numbers, no players and the creation time as its stamp |
| Storage.GameStorage.Initialize | src/storage/gameStorage.js:14-22 | a loaded file replaces the state; a missing file keeps it; a directory or read failure keeps the state and saves it; a failed write is passed on and leaves the file's content unknown |
| Storage.GameStorage.LoadData | src/storage/gameStorage.js:33-47 | a file replaces numbers, players and stamp (stamp falls back to the clock); ENOENT changes nothing; other errors change nothing and are rethrown |
| Storage.GameStorage.SaveData | src/storage/gameStorage.js:49-57 | a successful write leaves the file encoding both current sets and the save's own clock reading; a failed one is passed on, leaves the file's content unknown (it may have been truncated), and changes no in-memory field |
| Storage.GameStorage.AddNumber | src/storage/gameStorage.js:59-69 | an invalid token gives the format error and changes nothing; a valid one is a member afterwards, `wasAdded` says whether it was new, the stamp moves only then, and `remaining` is 999 less the new size |
| Storage.GameStorage.HasNumber | src/storage/gameStorage.js:76-78 | true exactly when the string, as given, is a member |
| Storage.GameStorage.GetRemainingCount | src/storage/gameStorage.js:80-82 | remaining plus the number of members is 999 |
| Storage.GameStorage.GetFirstTenMissingNumbers | src/storage/gameStorage.js:84-93 | the loop returns `FirstTenMissing` of the current set (whose meaning `FirstTenMissingSpec` states) and at most ten names |
| Storage.GameStorage.IsGameComplete | src/storage/gameStorage.js:95-97 | complete exactly when the remaining count is at most zero |
| Storage.GameStorage.GetStats | src/storage/gameStorage.js:99-106 | total, players and stamp are those of the registry, and total plus remaining is 999 |
| Game.MaxNumbersFrom | src/game/gameLogic.js:20 | `parseInt(MAX_NUMBERS) \|\| 999`: NaN and 0 give 999, any other value is kept, so the bound is never 0 |
| Game.IsValidNumberFormat | src/game/gameLogic.js:27-30 | definition of `isValidNumberFormat`; characterised by `FormatImpliesValidNumber` and `FormatExamples` |
| Game.FormatImpliesValidNumber | src/game/gameLogic.js:27-30 | whatever the bound, a token the logic accepts is valid for the storage; with a bound ≥ 999 the two checks agree |
| Game.FormatExamples | src/game/gameLogic.test.js:44-57 | "1", "42", "123", "999" pass the default format check; "000", "1000", "abc", "12a", "" fail it |
| Game.InfoText | src/game/gameLogic.js:21-24 | definition of the usage hint; characterised by `InfoTextDefault` |
| Game.InfoTextDefault | src/game/gameLogic.js:20-24 | with the default bound the usage hint begins "Отправьте номер от 001 до 999" |
| Game.SuccessText | src/game/gameLogic.js:50-61 | definition of the success reply; characterised by `SuccessTextLines` and `SuccessTextAnnounces` |
| Game.SuccessTextLines | src/game/gameLogic.js:50-61 | the success reply splits into "запомнили", the optional remaining line and the optional two victory lines |
| Game.SuccessTextAnnounces | src/game/gameLogic.js:50-61 | the success reply starts with "запомнили", has "Осталось N номеров" exactly when N is a multiple of ten, and the victory line exactly when the game is complete |
| Game.MissingResponse | src/game/gameLogic.js:78-93 | definition of the reply to "?" for a given list; characterised by `MissingResponseReports` and `MissingTextOffsets` |
| Game.MissingTextOffsets | src/game/gameLogic.js:88-91 | a non-empty list of three-character names appears after the header, name k at offset 5k |
| Game.MissingResponseReports | src/game/gameLogic.js:78-93 | the "?" reply is 'complete' exactly when nothing is missing, which implies at least 999 members; otherwise it is the header followed by the listed names at fixed offsets |
| Game.StatsText | src/game/gameLogic.js:98-104 | definition of the statistics reply; characterised by `StatsTextLines` |
| Game.StatsTextLines | src/game/gameLogic.js:95-106 | the statistics reply has five lines: the title, found, remaining, players and the rendered stamp |
| Game.SubmissionReply | src/game/gameLogic.js:38-75 | definition of the outcome of a submission on a given registry; characterised by `SubmissionReplyCases` |
| Game.MessageReply | src/game/gameLogic.js:6-25 | definition of the outcome of a message on a given registry; characterised by `MessageReplyNeverError`, and `GameLogic.ProcessMessage` is proved to return it |
| Game.SubmissionReplyCases | src/game/gameLogic.js:38-75 | duplicate exactly for a present number; error exactly for an absent invalid token; a throw exactly when a new number's save fails; success exactly when it is saved, with the success reply's announcements for the new count |
| Game.MessageReplyNeverError | src/game/gameLogic.js:15-16 | a message never receives the 'error' reply, since every token passing the format check passes the storage's validation |
| Game.GameLogic.constructor | src/game/gameLogic.js:2-4 | keeps the storage and fixes the bound from the environment value |
| Game.GameLogic.ProcessMessage | src/game/gameLogic.js:6-25 | the reply is `MessageReply` of the registry before the call; only a submission adds the sender as a player; only a new valid number is added and stamped with the first clock reading, and then the file holds the new state with the second reading (unknown if the write fails) |
| Game.GameLogic.ProcessNumberSubmission | src/game/gameLogic.js:32-76 | the reply is `SubmissionReply`; a human sender joins the players whatever the outcome, a bot does not; only a new valid number is added, stamped and saved, with separate clock readings for the stamp and the save |
| Game.GameLogic.SubmitNumber | src/game/gameLogic.js:38-75 | the reply is `SubmissionReply`; the player set is untouched; the registry gains the number only when it is new and valid, and is saved then, with the save's own clock reading; a failed save leaves the file unknown |
| Game.GameLogic.BuildSuccessReply | src/game/gameLogic.js:50-61 | the reply built line by line equals `SuccessText`, whose lines `SuccessTextAnnounces` describes |
| Game.GameLogic.GetMissingNumbersResponse | src/game/gameLogic.js:78-93 | the reply is `MissingResponse` of the current missing list, and 'complete' exactly when that list is empty |
| Game.GameLogic.GetGameStats | src/game/gameLogic.js:95-106 | a 'stats' reply whose text renders the registry's size, remaining count, player count and the rendering of its own stamp `toMoscow(lastUpdate)` (lines given by `StatsTextLines`) |
| Game.GameLogic.ResetGame | src/game/gameLogic.js:108-118 | both sets are emptied and stamped; a successful save, with its own later clock reading, gives the 'reset' reply; a failed one is thrown and leaves the file unknown |
| Scenarios.TrimHelpCommand | src/game/gameLogic.test.js:101-107 | " ? " trims to "?" |
| Scenarios.SubmitThenRepeat | src/game/gameLogic.test.js:111-132 | a first "123" is remembered and its sender joins the players; the same number again is a duplicate and changes nothing |
| Scenarios.HelpOnEmptyRegistry | src/game/gameLogic.test.js:61-69 | the message "?" on an empty registry gets the missing-list reply for "001".."010" and records neither a number nor a player |
| Scenarios.HelpCommandReply | src/game/gameLogic.js:7-11 | "?" is no submission and its reply is the missing-list reply of the registry |
| Scenarios.UnknownCommand | src/game/gameLogic.test.js:94-99 | "invalid" gets the default usage hint and records nothing |
| Scenarios.FailedSave | src/game/gameLogic.js:47-64 | a number whose save fails stays in memory and the write error is thrown |
| Scenarios.UnpaddedLeavesSlotOpen | src/storage/gameStorage.js:84-93 | after adding "7" the missing list still starts at "001" and includes "007" |
| Scenarios.UnnormalisedLookup | src/storage/gameStorage.js:76-78 | after `addNumber("1")`, `hasNumber("01")` and `hasNumber("001")` are false |
| Scenarios.TwoSpellings | src/storage/gameStorage.js:59-69 | "7" and "007" are added as two members without recording a player |
| Scenarios.StatsAfterSubmission | src/storage/gameStorage.js:99-106 | one submission gives one number, 998 remaining, one player and the stamp of the change |
| Scenarios.ResetAfterPlay | src/game/gameLogic.test.js:209-219 | a reset after play empties both sets and replies 'reset' |

## Left out

- File system and JSON: reading, parsing, writing and `mkdir` are not modelled as such. Their outcomes (`IoStatus`, `ReadOutcome`, a parsed `Document`) are parameters, and `ensureDataDirectory` (src/storage/gameStorage.js:24-31) is only the outcome it passes to `initialize`.
- The `console.warn` in `initialize` has no observable effect on the state and is left out.
- Clock readings (`new Date().toISOString()`) are parameters of type `Timestamp`; each reading in the source is its own parameter (`now` for the in-memory stamp, `saveNow` for the stamp a save writes). The model never inspects them and does not relate successive readings to each other.
- `getGameStats`: the Moscow-time locale rendering (`new Date(...).toLocaleString`) is a function `toMoscow` supplied by the caller, applied to the registry's stamp; its output is not modelled.
- `MAX_NUMBERS` is read from the environment once, when a `GameLogic` is constructed, as the value `parseInt` returned (`None` for NaN). The source reads it anew at each of lines 20, 28 and 59; a change of the environment while running is not modelled. `parseInt` returns a JavaScript double, so a value of 1e21 or more (rendered "1e+21" by `String`) or a digit string long enough to give `Infinity` cannot be expressed by `Option<int>` and `IntToString`, and is not modelled.
- Asynchrony: `async` handlers run to completion one at a time. Interleavings of concurrent messages are not modelled.
- `Array.from(set)` yields members in insertion order. The model's `SetToSeq` promises each member exactly once in some order, and does not record insertion order.
- `isValidNumber` and `hasNumber` apply `String(...)` to their argument. The model's arguments are always strings, so that coercion is the identity and non-string values (numbers, `null` from a hand-edited data file) are not modelled.
- A data file whose `numbers` or `players` field is not a list of strings is not modelled. `Document` holds lists of strings or nothing, so the exception `new Set(...)` would throw part-way through `loadData` is not modelled either.
- `GameStorage.addNumber` receives a second argument from `GameLogic` that the source ignores. The model keeps the parameter and ignores it too.
- Default arguments become required parameters: `dataFilePath = './data/game_data.json'` of the `GameStorage` constructor (src/storage/gameStorage.js:5) and `isBot = false` of `processNumberSubmission` (src/game/gameLogic.js:32). Callers pass those values explicitly; no behaviour is lost.
- The Telegram bot, `src/index.js`, the activity ledger and storage methods that the tests call but `src/storage/gameStorage.js` does not define (number owners, bot state, user statistics) are not part of this model.
- `Scenarios.StatsAfterSubmission`: the reply text of `getGameStats` for concrete values is not stated; its lines are given generically by `Game.StatsTextLines`.
