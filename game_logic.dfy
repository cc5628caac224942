/** The message state machine on top of the registry (class `GameLogic`):
    it routes "?" to the missing-number list, a well-formed number to a
    submission and anything else to a usage hint, and it builds the reply
    texts, including the progress line every ten numbers and the victory
    line. */
module Game {
  import opened Text
  import opened Storage

  /** The `type` tag of a reply. */
  datatype ResponseType = Complete | MissingNumbers | Info | Duplicate | Success | Error | Stats | Reset

  datatype Response = Response(text: string, kind: ResponseType)

  /** How an asynchronous handler settles: with a reply, or by throwing the
      error of a failed save. */
  datatype Outcome = Returned(response: Response) | Thrown(message: string)

  const DefaultMaxNumbers: int := 999

  const DuplicateText: string := "уже есть"
  const AddErrorText: string := "Ошибка при добавлении номера"
  const AllFoundText: string := "Все номера найдены! 🎉"
  const MissingHeader: string := "Первые 10 недостающих номеров:\n"
  const ResetText: string := "Игра сброшена. Все номера удалены."
  const RememberedLine: string := "запомнили"
  const VictoryLine: string := "🎉 ПОБЕДА! 🎉"

  /** `parseInt(process.env.MAX_NUMBERS) || 999`, given what `parseInt`
      returned (`None` for NaN): the fallback applies to NaN and to 0, so
      the bound is never 0. */
  function MaxNumbersFrom(parsedEnv: Option<int>): (m: int)
    ensures m != 0
    ensures parsedEnv.None? ==> m == DefaultMaxNumbers
    ensures parsedEnv.Some? ==> m == if parsedEnv.value == 0 then DefaultMaxNumbers else parsedEnv.value
  {
    if parsedEnv.Some? && parsedEnv.value != 0 then parsedEnv.value else DefaultMaxNumbers
  }

  // ---------------------------------------------------------------------
  // validation
  // ---------------------------------------------------------------------

  /** `isValidNumberFormat`: the storage's digit pattern, with the value in
      1..maxNumbers. */
  predicate IsValidNumberFormat(text: string, maxNumbers: int) {
    MatchesOneToThreeDigits(text) && ParseDigits(text) >= 1 && ParseDigits(text) <= maxNumbers
  }

  /** Whatever the configured bound, a token that passes the logic's check
      also passes the storage's, because three digits never exceed 999; with
      a bound of 999 or more the two checks agree. */
  lemma FormatImpliesValidNumber(text: string, maxNumbers: int)
    ensures IsValidNumberFormat(text, maxNumbers) ==> IsValidNumber(text)
    ensures maxNumbers >= MaxSlots ==> (IsValidNumberFormat(text, maxNumbers) <==> IsValidNumber(text))
  {
    if MatchesOneToThreeDigits(text) {
      ThreeDigitsBelowThousand(text);
    }
  }

  /** The tokens the logic is expected to accept and reject by default. */
  lemma FormatExamples()
    ensures IsValidNumberFormat("1", DefaultMaxNumbers) && IsValidNumberFormat("42", DefaultMaxNumbers)
    ensures IsValidNumberFormat("123", DefaultMaxNumbers) && IsValidNumberFormat("999", DefaultMaxNumbers)
    ensures !IsValidNumberFormat("000", DefaultMaxNumbers) && !IsValidNumberFormat("1000", DefaultMaxNumbers)
    ensures !IsValidNumberFormat("abc", DefaultMaxNumbers) && !IsValidNumberFormat("12a", DefaultMaxNumbers)
    ensures !IsValidNumberFormat("", DefaultMaxNumbers)
  {
    assert !IsDigit("12a"[2]) && !IsDigit("abc"[0]);
    ParseDigitsZero("000");
  }

  // ---------------------------------------------------------------------
  // reply texts
  // ---------------------------------------------------------------------

  /** The usage hint for unrecognised input. */
  function InfoText(maxNumbers: int): string {
    "Отправьте номер от 001 до " + PadStart(IntToString(maxNumbers), 3, '0')
    + " или \"?\" для просмотра недостающих номеров"
  }

  /** With the default bound the hint names the range 001..999. */
  lemma InfoTextDefault()
    ensures var prefix := "Отправьте номер от 001 до 999";
            InfoText(DefaultMaxNumbers)[..|prefix|] == prefix
  {
    assert IntToString(999) == "999";
  }

  function RemainingLine(remaining: int): string {
    "Осталось " + IntToString(remaining) + " номеров"
  }

  function FoundAllLine(maxNumbers: int): string {
    "Все " + IntToString(maxNumbers) + " номеров найдены!"
  }

  /** The reply to a successful submission, line by line as it is
      assembled: "запомнили", then the remaining count when it is a multiple
      of ten, then the two victory lines when the game is complete. (The
      remainder of JavaScript's `%` is zero exactly when Dafny's is.) */
  function SuccessText(remaining: int, complete: bool, maxNumbers: int): string {
    RememberedLine
    + (if remaining % 10 == 0 then "\n" + RemainingLine(remaining) else "")
    + (if complete then "\n" + VictoryLine + "\n" + FoundAllLine(maxNumbers) else "")
  }

  lemma NoLineBreakInNumber(n: int)
    ensures '\n' !in IntToString(n)
  {
  }

  /** The lines a success reply is made of. */
  function SuccessLines(remaining: int, complete: bool, maxNumbers: int): (r: seq<string>)
    ensures |r| >= 1
  {
    [RememberedLine]
    + (if remaining % 10 == 0 then [RemainingLine(remaining)] else [])
    + (if complete then [VictoryLine, FoundAllLine(maxNumbers)] else [])
  }

  /** Optional line-break-separated parts are the join of the parts that
      are present. */
  lemma JoinOptional(a: string, b: string, c: string, d: string, p: bool, q: bool)
    ensures a + (if p then "\n" + b else "") + (if q then "\n" + c + "\n" + d else "")
            == Join([a] + (if p then [b] else []) + (if q then [c, d] else []), "\n")
  {
    JoinCons(c, [d], "\n");
    if p {
      JoinCons(b, [c, d], "\n");
      if q {
        JoinCons(a, [b, c, d], "\n");
        assert [a] + [b] + [c, d] == [a] + [b, c, d];
      } else {
        JoinCons(a, [b], "\n");
      }
    } else if q {
      JoinCons(a, [c, d], "\n");
    }
  }

  /** Splitting a success reply at its line breaks gives back its lines. */
  lemma SuccessTextLines(remaining: int, complete: bool, maxNumbers: int)
    ensures Lines(SuccessText(remaining, complete, maxNumbers)) == SuccessLines(remaining, complete, maxNumbers)
  {
    NoLineBreakInNumber(remaining);
    NoLineBreakInNumber(maxNumbers);
    assert '\n' !in RememberedLine && '\n' !in VictoryLine;
    LinesOfOptional(RememberedLine, RemainingLine(remaining), VictoryLine, FoundAllLine(maxNumbers), remaining % 10 == 0, complete);
  }

  lemma LinesOfOptional(a: string, b: string, c: string, d: string, p: bool, q: bool)
    requires '\n' !in a && '\n' !in b && '\n' !in c && '\n' !in d
    ensures Lines(a + (if p then "\n" + b else "") + (if q then "\n" + c + "\n" + d else ""))
            == [a] + (if p then [b] else []) + (if q then [c, d] else [])
  {
    var lines := [a] + (if p then [b] else []) + (if q then [c, d] else []);
    assert forall i :: 0 <= i < |lines| ==> lines[i] in [a, b, c, d];
    JoinOptional(a, b, c, d, p, q);
    LinesOfJoin(lines);
  }

  /** Which of the optional lines a list built like `SuccessLines` holds,
      told apart by their first characters. */
  lemma OptionalMembers(a: string, b: string, c: string, d: string, p: bool, q: bool)
    requires |a| >= 1 && |b| >= 1 && |c| >= 1 && |d| >= 1
    requires b[0] != a[0] && b[0] != c[0] && b[0] != d[0] && c[0] != a[0] && c[0] != d[0]
    ensures var lines := [a] + (if p then [b] else []) + (if q then [c, d] else []);
            && lines[0] == a
            && (b in lines <==> p)
            && (c in lines <==> q)
  {
    var lines := [a] + (if p then [b] else []) + (if q then [c, d] else []);
    assert lines[0] == a;
    if !p {
      assert forall i :: 0 <= i < |lines| ==> lines[i][0] != b[0];
    }
    if !q {
      assert forall i :: 0 <= i < |lines| ==> lines[i][0] != c[0];
    }
  }

  /** A success reply starts with "запомнили", has the line "Осталось N
      номеров" exactly when N is a multiple of ten, and has the victory line
      exactly when the game is complete. */
  lemma SuccessTextAnnounces(remaining: int, complete: bool, maxNumbers: int)
    ensures var text := SuccessText(remaining, complete, maxNumbers);
            && |RememberedLine| <= |text| && text[..|RememberedLine|] == RememberedLine
            && Lines(text)[0] == RememberedLine
            && (RemainingLine(remaining) in Lines(text) <==> remaining % 10 == 0)
            && (VictoryLine in Lines(text) <==> complete)
  {
    SuccessTextLines(remaining, complete, maxNumbers);
    var a, b, c, d := RememberedLine, RemainingLine(remaining), VictoryLine, FoundAllLine(maxNumbers);
    assert a[0] == 'з' && b[0] == 'О' && c[0] == '🎉' && d[0] == 'В';
    OptionalMembers(a, b, c, d, remaining % 10 == 0, complete);
  }

  /** The reply to "?": "all found" for an empty list, otherwise the header
      and the list joined with ", ". */
  function MissingResponse(missing: seq<string>): Response {
    if |missing| == 0 then Response(AllFoundText, Complete)
    else Response(MissingHeader + Join(missing, ", "), MissingNumbers)
  }

  /** A non-empty list of three-character names shows up in the reply
      after the header, name k at offset 5k. */
  lemma MissingTextOffsets(missing: seq<string>)
    requires |missing| >= 1
    requires forall k :: 0 <= k < |missing| ==> |missing[k]| == 3
    ensures var text := MissingResponse(missing).text;
            && text[..|MissingHeader|] == MissingHeader
            && |text| == |MissingHeader| + 5 * |missing| - 2
            && forall k :: 0 <= k < |missing| ==>
                 text[|MissingHeader| + 5 * k..|MissingHeader| + 5 * k + 3] == missing[k]
  {
    JoinThreeWide(missing);
    var body := Join(missing, ", ");
    var text := MissingHeader + body;
    forall k | 0 <= k < |missing|
      ensures text[|MissingHeader| + 5 * k..|MissingHeader| + 5 * k + 3] == missing[k]
    {
      assert text[|MissingHeader| + 5 * k..|MissingHeader| + 5 * k + 3] == body[5 * k..5 * k + 3];
    }
  }

  /** What the reply to "?" tells the user about the registry: "complete"
      only when no padded name is missing, which implies at least 999
      members; otherwise every listed name can be read from the text at a
      fixed offset, in the order of the list. */
  lemma MissingResponseReports(numbers: set<string>)
    ensures var missing := FirstTenMissing(numbers);
            var r := MissingResponse(missing);
            && (r.kind == Complete <==> missing == [])
            && (r.kind == Complete ==> |numbers| >= MaxSlots)
            && (r.kind == MissingNumbers ==>
                  && r.text[..|MissingHeader|] == MissingHeader
                  && |r.text| == |MissingHeader| + 5 * |missing| - 2
                  && forall k :: 0 <= k < |missing| ==>
                       r.text[|MissingHeader| + 5 * k..|MissingHeader| + 5 * k + 3] == missing[k])
  {
    var missing := FirstTenMissing(numbers);
    if missing == [] {
      NoneMissingMeansComplete(numbers);
    } else {
      FirstTenMissingSpec(numbers);
      MissingTextOffsets(missing);
    }
  }

  /** The statistics reply, given the locale rendering of the last update. */
  function StatsText(stats: GameStats, lastUpdateMoscow: string): string {
    "📊 Статистика игры:" + "\n"
    + "Найдено номеров: " + IntToString(stats.totalNumbers) + "\n"
    + "Осталось: " + IntToString(stats.remaining) + "\n"
    + "Игроков: " + IntToString(stats.players) + "\n"
    + "Последнее обновление (Мск): " + lastUpdateMoscow
  }

  lemma JoinFive(l0: string, l1: string, l2: string, l3: string, l4: string)
    ensures l0 + "\n" + l1 + "\n" + l2 + "\n" + l3 + "\n" + l4 == Join([l0, l1, l2, l3, l4], "\n")
  {
    JoinCons(l3, [l4], "\n");
    JoinCons(l2, [l3, l4], "\n");
    JoinCons(l1, [l2, l3, l4], "\n");
    JoinCons(l0, [l1, l2, l3, l4], "\n");
    assert [l0] + [l1, l2, l3, l4] == [l0, l1, l2, l3, l4];
  }

  /** The statistics reply has five lines: a title and one line per count
      and for the stamp. */
  lemma StatsTextLines(stats: GameStats, lastUpdateMoscow: string)
    requires '\n' !in lastUpdateMoscow
    ensures Lines(StatsText(stats, lastUpdateMoscow)) == [
              "📊 Статистика игры:",
              "Найдено номеров: " + IntToString(stats.totalNumbers),
              "Осталось: " + IntToString(stats.remaining),
              "Игроков: " + IntToString(stats.players),
              "Последнее обновление (Мск): " + lastUpdateMoscow]
  {
    NoLineBreakInNumber(stats.totalNumbers);
    NoLineBreakInNumber(stats.remaining);
    NoLineBreakInNumber(stats.players);
    assert '\n' !in "📊 Статистика игры:" && '\n' !in "Найдено номеров: " && '\n' !in "Осталось: ";
    assert '\n' !in "Игроков: " && '\n' !in "Последнее обновление (Мск): ";
    LinesOfLabelled("📊 Статистика игры:",
      "Найдено номеров: ", IntToString(stats.totalNumbers),
      "Осталось: ", IntToString(stats.remaining),
      "Игроков: ", IntToString(stats.players),
      "Последнее обновление (Мск): ", lastUpdateMoscow);
  }

  /** A title followed by four labelled values, one per line. */
  lemma LinesOfLabelled(t: string, p1: string, v1: string, p2: string, v2: string,
                        p3: string, v3: string, p4: string, v4: string)
    requires '\n' !in t && '\n' !in p1 && '\n' !in v1 && '\n' !in p2 && '\n' !in v2
    requires '\n' !in p3 && '\n' !in v3 && '\n' !in p4 && '\n' !in v4
    ensures Lines(t + "\n" + p1 + v1 + "\n" + p2 + v2 + "\n" + p3 + v3 + "\n" + p4 + v4)
            == [t, p1 + v1, p2 + v2, p3 + v3, p4 + v4]
  {
    var l1, l2, l3, l4 := p1 + v1, p2 + v2, p3 + v3, p4 + v4;
    var lines := [t, l1, l2, l3, l4];
    var s1 := t + "\n" + l1;
    assert t + "\n" + p1 + v1 == s1;
    var s2 := s1 + "\n" + l2;
    assert t + "\n" + p1 + v1 + "\n" + p2 + v2 == s2;
    var s3 := s2 + "\n" + l3;
    assert t + "\n" + p1 + v1 + "\n" + p2 + v2 + "\n" + p3 + v3 == s3;
    assert t + "\n" + p1 + v1 + "\n" + p2 + v2 + "\n" + p3 + v3 + "\n" + p4 + v4 == s3 + "\n" + l4;
    JoinFive(t, l1, l2, l3, l4);
    assert forall i :: 0 <= i < |lines| ==> lines[i] in [t, l1, l2, l3, l4];
    LinesOfJoin(lines);
  }

  // ---------------------------------------------------------------------
  // replies as functions of the registry before the call
  // ---------------------------------------------------------------------

  /** Whether submitting `number` to a registry holding `numbers` adds it. */
  predicate Adds(numbers: set<string>, number: string) {
    number !in numbers && IsValidNumber(number)
  }

  /** The outcome of `processNumberSubmission` on a registry holding
      `numbers`, when the save meets `write`. */
  function SubmissionReply(numbers: set<string>, number: string, maxNumbers: int, write: IoStatus): Outcome {
    if number in numbers then Returned(Response(DuplicateText, Duplicate))
    else if !IsValidNumber(number) then Returned(Response(AddErrorText, Error))
    else if write.IoError? then Thrown(write.message)
    else
      var count := |numbers| + 1;
      Returned(Response(SuccessText(MaxSlots - count, count >= MaxSlots, maxNumbers), Success))
  }

  /** Whether `processMessage` hands the trimmed text on as a submission. */
  predicate IsSubmission(text: string, maxNumbers: int) {
    text != "?" && IsValidNumberFormat(text, maxNumbers)
  }

  /** The outcome of `processMessage` on a registry holding `numbers`. */
  function MessageReply(numbers: set<string>, message: string, maxNumbers: int, write: IoStatus): Outcome {
    var text := Trim(message);
    if text == "?" then Returned(MissingResponse(FirstTenMissing(numbers)))
    else if IsValidNumberFormat(text, maxNumbers) then SubmissionReply(numbers, text, maxNumbers, write)
    else Returned(Response(InfoText(maxNumbers), Info))
  }

  /** Each kind of submission reply, and exactly when it is given: a
      duplicate for a number present, an error for a rejected token, a
      thrown save error or 'success' for a number that is added. */
  lemma SubmissionReplyCases(numbers: set<string>, number: string, maxNumbers: int, write: IoStatus)
    ensures var r := SubmissionReply(numbers, number, maxNumbers, write);
            && (r == Returned(Response(DuplicateText, Duplicate)) <==> number in numbers)
            && (r == Returned(Response(AddErrorText, Error)) <==> number !in numbers && !IsValidNumber(number))
            && (r.Thrown? <==> Adds(numbers, number) && write.IoError?)
            && (r.Returned? && r.response.kind == Success <==> Adds(numbers, number) && write == IoOk)
            && (r.Returned? && r.response.kind == Success ==>
                  SuccessTextAnnouncesAt(r.response.text, MaxSlots - |numbers| - 1, |numbers| + 1 >= MaxSlots))
  {
    var r := SubmissionReply(numbers, number, maxNumbers, write);
    assert DuplicateText != AddErrorText by {
      assert |DuplicateText| != |AddErrorText|;
    }
    if Adds(numbers, number) && write == IoOk {
      SuccessTextAnnounces(MaxSlots - (|numbers| + 1), |numbers| + 1 >= MaxSlots, maxNumbers);
    }
  }

  /** What a success reply announces: the remaining count exactly on a
      multiple of ten, the victory exactly on completion. */
  predicate SuccessTextAnnouncesAt(text: string, remaining: int, complete: bool) {
    && Lines(text)[0] == RememberedLine
    && (RemainingLine(remaining) in Lines(text) <==> remaining % 10 == 0)
    && (VictoryLine in Lines(text) <==> complete)
  }

  /** A message never gets the 'error' reply: whatever passes the logic's
      format check passes the storage's validation too. */
  lemma MessageReplyNeverError(numbers: set<string>, message: string, maxNumbers: int, write: IoStatus)
    ensures var r := MessageReply(numbers, message, maxNumbers, write);
            r.Returned? ==> r.response.kind != Error
  {
    FormatImpliesValidNumber(Trim(message), maxNumbers);
  }

  // ---------------------------------------------------------------------
  // the state machine
  // ---------------------------------------------------------------------

  class GameLogic {
    const storage: GameStorage
    /** The configured size of the namespace, read once at construction. */
    const maxNumbers: int

    constructor (storage: GameStorage, parsedEnv: Option<int>)
      ensures this.storage == storage && maxNumbers == MaxNumbersFrom(parsedEnv)
    {
      this.storage := storage;
      maxNumbers := MaxNumbersFrom(parsedEnv);
    }

    /** `processMessage`: trims the input, answers "?" with the missing
        list, hands a well-formed number to the submission as a human's,
        and answers anything else with the usage hint. Only a submission
        changes state. */
    method ProcessMessage(message: string, userId: string, now: Timestamp, saveNow: Timestamp, write: IoStatus)
      returns (r: Outcome)
      modifies storage
      ensures r == MessageReply(old(storage.numbers), message, maxNumbers, write)
      ensures var submitted := IsSubmission(Trim(message), maxNumbers);
              var added := submitted && Adds(old(storage.numbers), Trim(message));
              && storage.players == old(storage.players) + (if submitted then {userId} else {})
              && storage.numbers == old(storage.numbers) + (if added then {Trim(message)} else {})
              && storage.lastUpdate == (if added then now else old(storage.lastUpdate))
              && (added && write == IoOk ==> storage.SavedAt(saveNow))
              && (added && write.IoError? ==> storage.lastSaved == None)
              && (!added ==> storage.lastSaved == old(storage.lastSaved))
    {
      var text := Trim(message);
      if text == "?" {
        var response := GetMissingNumbersResponse();
        r := Returned(response);
        assert r == MessageReply(old(storage.numbers), message, maxNumbers, write);
        return;
      }
      if IsValidNumberFormat(text, maxNumbers) {
        r := ProcessNumberSubmission(text, userId, false, now, saveNow, write);
        assert r == MessageReply(old(storage.numbers), message, maxNumbers, write);
        return;
      }
      r := Returned(Response(InfoText(maxNumbers), Info));
      assert r == MessageReply(old(storage.numbers), message, maxNumbers, write);
    }

    /** `processNumberSubmission`: records a human sender as a player before
        anything else, then submits the number. */
    method ProcessNumberSubmission(number: string, userId: string, isBot: bool, now: Timestamp, saveNow: Timestamp,
                                   write: IoStatus)
      returns (r: Outcome)
      modifies storage
      ensures r == SubmissionReply(old(storage.numbers), number, maxNumbers, write)
      ensures var added := Adds(old(storage.numbers), number);
              && storage.players == old(storage.players) + (if isBot then {} else {userId})
              && storage.numbers == old(storage.numbers) + (if added then {number} else {})
              && storage.lastUpdate == (if added then now else old(storage.lastUpdate))
              && (added && write == IoOk ==> storage.SavedAt(saveNow))
              && (added && write.IoError? ==> storage.lastSaved == None)
              && (!added ==> storage.lastSaved == old(storage.lastSaved))
    {
      if !isBot {
        storage.players := storage.players + {userId};
      }
      r := SubmitNumber(number, userId, now, saveNow, write);
    }

    /** The rest of `processNumberSubmission`: a number already present is
        answered with 'duplicate'; otherwise it goes to `addNumber`, and a
        number that was added is answered with 'success' once the new state
        is saved (a failed save is thrown). A token the storage rejects gets
        the 'error' reply. The player set is left alone. The clock is read
        twice: `now` stamps the change in memory, `saveNow` is the stamp the
        save writes. */
    method SubmitNumber(number: string, userId: string, now: Timestamp, saveNow: Timestamp, write: IoStatus)
      returns (r: Outcome)
      modifies storage
      ensures r == SubmissionReply(old(storage.numbers), number, maxNumbers, write)
      ensures var added := Adds(old(storage.numbers), number);
              && storage.players == old(storage.players)
              && storage.numbers == old(storage.numbers) + (if added then {number} else {})
              && storage.lastUpdate == (if added then now else old(storage.lastUpdate))
              && (added && write == IoOk ==> storage.SavedAt(saveNow))
              && (added && write.IoError? ==> storage.lastSaved == None)
              && (!added ==> storage.lastSaved == old(storage.lastSaved))
    {
      if storage.HasNumber(number) {
        r := Returned(Response(DuplicateText, Duplicate));
        assert r == SubmissionReply(old(storage.numbers), number, maxNumbers, write);
        return;
      }
      var result := storage.AddNumber(number, userId, now);
      if result.Checked? && result.wasAdded {
        var count := |old(storage.numbers)| + 1;
        assert |storage.numbers| == count;
        var response := BuildSuccessReply(result.remaining, storage.IsGameComplete());
        assert response == SuccessText(MaxSlots - count, count >= MaxSlots, maxNumbers);
        var saved := storage.SaveData(saveNow, write);
        if saved.IoError? {
          r := Thrown(saved.message);
        } else {
          r := Returned(Response(response, Success));
        }
        assert r == SubmissionReply(old(storage.numbers), number, maxNumbers, write);
        return;
      }
      r := Returned(Response(AddErrorText, Error));
      assert r == SubmissionReply(old(storage.numbers), number, maxNumbers, write);
    }

    /** The success reply, appended to line by line as in
        `processNumberSubmission`. */
    method BuildSuccessReply(remaining: int, complete: bool) returns (response: string)
      ensures response == SuccessText(remaining, complete, maxNumbers)
    {
      response := RememberedLine;
      if remaining % 10 == 0 {
        response := response + ("\n" + RemainingLine(remaining));
      }
      if complete {
        response := response + ("\n" + VictoryLine + "\n" + FoundAllLine(maxNumbers));
      }
    }

    /** `getMissingNumbersResponse`. */
    method GetMissingNumbersResponse() returns (r: Response)
      ensures r == MissingResponse(FirstTenMissing(storage.numbers))
      ensures r.kind == Complete <==> FirstTenMissing(storage.numbers) == []
    {
      var missing := storage.GetFirstTenMissingNumbers();
      if |missing| == 0 {
        return Response(AllFoundText, Complete);
      }
      var numbersList := Join(missing, ", ");
      return Response(MissingHeader + numbersList, MissingNumbers);
    }

    /** `getGameStats`, given the Moscow-time rendering of a stamp as
        `toMoscow`. */
    function GetGameStats(toMoscow: Timestamp -> string): (r: Response)
      reads storage
      ensures r.kind == Stats
      ensures r.text == StatsText(GameStats(|storage.numbers|, MaxSlots - |storage.numbers|, |storage.players|, storage.lastUpdate),
                                  toMoscow(storage.lastUpdate))
    {
      Response(StatsText(storage.GetStats(), toMoscow(storage.lastUpdate)), Stats)
    }

    /** `resetGame`: empties both sets, stamps the change with `now`, saves
        with the later reading `saveNow`, and replies 'reset' once the save
        has gone through. */
    method ResetGame(now: Timestamp, saveNow: Timestamp, write: IoStatus) returns (r: Outcome)
      modifies storage
      ensures storage.numbers == {} && storage.players == {} && storage.lastUpdate == now
      ensures write == IoOk ==> r == Returned(Response(ResetText, Reset)) && storage.SavedAt(saveNow)
      ensures write.IoError? ==> r == Thrown(write.message) && storage.lastSaved == None
    {
      storage.numbers := {};
      storage.players := {};
      storage.lastUpdate := now;
      var saved := storage.SaveData(saveNow, write);
      if saved.IoError? {
        return Thrown(saved.message);
      }
      return Returned(Response(ResetText, Reset));
    }
  }
}
