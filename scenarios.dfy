/** Situations the repository's own tests describe: each method builds
    fresh objects and calls the handlers, and its postcondition about the
    result is proved from the contracts of the other modules. */
module Scenarios {
  import opened Text
  import opened Storage
  import opened Game

  /** A "?" with blanks around it reaches the game as "?". */
  lemma TrimHelpCommand()
    ensures Trim(" ? ") == "?"
  {
    TrimSurrounded(" ", "?", " ");
    assert " " + "?" + " " == " ? ";
  }

  /** A new number is remembered and its sender becomes a player; sending
      it again is a duplicate and changes nothing. */
  method SubmitThenRepeat() returns (first: Outcome, second: Outcome, numbers: set<string>, players: set<string>)
    ensures first == Returned(Response("запомнили", Success))
    ensures second == Returned(Response("уже есть", Duplicate))
    ensures numbers == {"123"} && players == {"user123"}
  {
    var storage := new GameStorage("data/game.json", "t0");
    var logic := new GameLogic(storage, None);
    assert ParseDigits("123") == 123;
    first := logic.ProcessNumberSubmission("123", "user123", false, "t1", "t1s", IoOk);
    assert SuccessText(998, false, DefaultMaxNumbers) == "запомнили";
    second := logic.ProcessNumberSubmission("123", "user123", false, "t2", "t2s", IoOk);
    numbers := storage.numbers;
    players := storage.players;
  }

  /** The message "?" on an empty registry is answered with its first ten
      slots, and records neither a number nor a player. */
  method HelpOnEmptyRegistry() returns (r: Outcome, numbers: set<string>, players: set<string>)
    ensures r == Returned(MissingResponse(["001", "002", "003", "004", "005", "006", "007", "008", "009", "010"]))
    ensures r.response.kind == MissingNumbers
    ensures numbers == {} && players == {}
  {
    var storage := new GameStorage("data/game.json", "t0");
    var logic := new GameLogic(storage, None);
    FirstTenMissingAtStart(storage.numbers);
    HelpCommandReply(storage.numbers, logic.maxNumbers, IoOk);
    r := logic.ProcessMessage("?", "user123", "t1", "t1s", IoOk);
    numbers := storage.numbers;
    players := storage.players;
  }

  /** "?" is answered with the missing list and is no submission. */
  lemma HelpCommandReply(numbers: set<string>, maxNumbers: int, write: IoStatus)
    ensures !IsSubmission(Trim("?"), maxNumbers)
    ensures MessageReply(numbers, "?", maxNumbers, write) == Returned(MissingResponse(FirstTenMissing(numbers)))
  {
    TrimSurrounded("", "?", "");
    assert "" + "?" + "" == "?";
  }

  /** Text that is neither "?" nor a number gets the usage hint naming the
      default range, and nothing is recorded. */
  method UnknownCommand() returns (r: Outcome, numbers: set<string>, players: set<string>)
    ensures r == Returned(Response(InfoText(DefaultMaxNumbers), Info))
    ensures numbers == {} && players == {}
  {
    var storage := new GameStorage("data/game.json", "t0");
    var logic := new GameLogic(storage, None);
    TrimSurrounded("", "invalid", "");
    assert "" + "invalid" + "" == "invalid";
    assert !IsDigit("invalid"[0]);
    r := logic.ProcessMessage("invalid", "user123", "t1", "t1s", IoOk);
    numbers := storage.numbers;
    players := storage.players;
  }

  /** A number whose save fails is still held in memory, and the error of
      the write is what the handler throws. */
  method FailedSave() returns (r: Outcome, numbers: set<string>)
    ensures r == Thrown("disk full")
    ensures numbers == {"5"}
  {
    var storage := new GameStorage("data/game.json", "t0");
    var logic := new GameLogic(storage, None);
    assert ParseDigits("5") == 5;
    r := logic.ProcessNumberSubmission("5", "user123", false, "t1", "t1s", IoError("disk full"));
    numbers := storage.numbers;
  }

  /** The storage keeps tokens as spelled, so "7" does not fill slot 7. */
  method UnpaddedLeavesSlotOpen() returns (a: AddResult, missing: seq<string>)
    ensures a == Checked(true, 998)
    ensures missing == ["001", "002", "003", "004", "005", "006", "007", "008", "009", "010"]
  {
    var storage := new GameStorage("data/game.json", "t0");
    assert ParseDigits("7") == 7;
    a := storage.AddNumber("7", "user123", "t1");
    forall i | 1 <= i <= 10
      ensures Pad3(i) !in storage.numbers
    {
      Pad3Slot(i);
    }
    FirstTenMissingAtStart(storage.numbers);
    missing := storage.GetFirstTenMissingNumbers();
  }

  /** Lookups are not normalised: after "1" is added, "01" and "001" are
      still absent. */
  method UnnormalisedLookup() returns (a: AddResult, hasShort: bool, hasPadded: bool)
    ensures a == Checked(true, 998)
    ensures !hasShort && !hasPadded
  {
    var storage := new GameStorage("data/game.json", "t0");
    assert ParseDigits("1") == 1;
    a := storage.AddNumber("1", "user1", "t1");
    assert |"01"| != |"1"| && |"001"| != |"1"|;
    hasShort := storage.HasNumber("01");
    hasPadded := storage.HasNumber("001");
  }

  /** "7" and "007" are two members, and adding them records no player. */
  method TwoSpellings() returns (a: AddResult, b: AddResult, numbers: set<string>, stats: GameStats)
    ensures a == Checked(true, 998) && b == Checked(true, 997)
    ensures numbers == {"7", "007"}
    ensures stats == GameStats(2, 997, 0, "t2")
  {
    var storage := new GameStorage("data/game.json", "t0");
    assert IsValidNumber("7") && IsValidNumber("007") by {
      assert ParseDigits("7") == 7 && ParseDigits("007") == 7;
    }
    a := storage.AddNumber("7", "user123", "t1");
    assert storage.numbers == {"7"};
    assert |"007"| != |"7"|;
    b := storage.AddNumber("007", "user123", "t2");
    numbers := storage.numbers;
    assert |numbers| == 2;
    stats := storage.GetStats();
  }

  /** Statistics after one submission: one number, 998 left, one player,
      and the stamp of the change. */
  method StatsAfterSubmission() returns (stats: GameStats)
    ensures stats == GameStats(1, 998, 1, "t1")
  {
    var storage := new GameStorage("data/game.json", "t0");
    var logic := new GameLogic(storage, None);
    assert ParseDigits("123") == 123;
    var r := logic.ProcessNumberSubmission("123", "user123", false, "t1", "t1s", IoOk);
    stats := storage.GetStats();
  }

  /** A reset after play empties both sets and answers 'reset'. */
  method ResetAfterPlay() returns (r: Outcome, numbers: set<string>, players: set<string>)
    ensures r == Returned(Response("Игра сброшена. Все номера удалены.", Reset))
    ensures numbers == {} && players == {}
  {
    var storage := new GameStorage("data/game.json", "t0");
    var logic := new GameLogic(storage, None);
    storage.players := {"user123"};
    assert ParseDigits("42") == 42;
    var added := storage.AddNumber("42", "user123", "t1");
    r := logic.ResetGame("t2", "t2s", IoOk);
    numbers := storage.numbers;
    players := storage.players;
  }
}
