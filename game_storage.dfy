/** The in-memory registry of claimed licence numbers (class `GameStorage`)
    with its validation, membership and progress queries, the scan for the
    first ten unclaimed numbers, and its save/load contract with the data
    file. Numbers are stored exactly as submitted: "7" and "007" are two
    different members. */
module Storage {
  import opened Text

  datatype Option<T> = None | Some(value: T)

  /** An ISO-8601 clock reading; the model never looks inside one. */
  type Timestamp = string

  /** The size of the namespace, fixed at 999 in the storage. */
  const MaxSlots: int := 999

  const InvalidNumberFormat: string := "Invalid number format"

  /** What `addNumber` returns: `{wasAdded, remaining}` for a well-formed
      token, `{wasAdded: false, error}` for any other. */
  datatype AddResult =
    | Checked(wasAdded: bool, remaining: int)
    | Invalid(error: string)

  /** What `getStats` returns. */
  datatype GameStats = GameStats(totalNumbers: nat, remaining: int, players: nat, lastUpdate: Timestamp)

  /** The data file's JSON document once parsed. A field that is absent or
      null is `None`. */
  datatype Document = Document(numbers: Option<seq<string>>, players: Option<seq<string>>, lastUpdate: Option<Timestamp>)

  /** What reading and parsing the data file gives: a document, the ENOENT
      error, or any other failure (unreadable file, malformed JSON). */
  datatype ReadOutcome =
    | FileRead(document: Document)
    | FileMissing
    | ReadFailed(message: string)

  /** The outcome of a file-system call that returns no data. */
  datatype IoStatus = IoOk | IoError(message: string)

  // ---------------------------------------------------------------------
  // validation
  // ---------------------------------------------------------------------

  /** `isValidNumber`: one to three digits whose value lies in 1..999. */
  predicate IsValidNumber(number: string) {
    MatchesOneToThreeDigits(number) && ParseDigits(number) >= 1 && ParseDigits(number) <= 999
  }

  /** The range check on the value adds nothing to the digit pattern but the
      exclusion of all-zero tokens: up to three digits can never exceed 999. */
  lemma ValidNumberCharacterized(s: string)
    ensures IsValidNumber(s) <==> 1 <= |s| <= 3 && AllDigits(s) && exists i :: 0 <= i < |s| && s[i] != '0'
  {
    if MatchesOneToThreeDigits(s) {
      ParseDigitsZero(s);
      ThreeDigitsBelowThousand(s);
    }
  }

  lemma ThreeDigitsBelowThousand(s: string)
    requires MatchesOneToThreeDigits(s)
    ensures ParseDigits(s) <= 999
  {
    assert Pow10(1) == 10 && Pow10(2) == 100 && Pow10(3) == 1000;
  }

  /** The examples the storage is expected to accept and reject. */
  lemma ValidNumberExamples()
    ensures IsValidNumber("001") && IsValidNumber("123") && IsValidNumber("999")
    ensures IsValidNumber("1") && IsValidNumber("42")
    ensures !IsValidNumber("000") && !IsValidNumber("1000") && !IsValidNumber("abc")
    ensures !IsValidNumber("12a") && !IsValidNumber("")
  {
    assert !IsDigit("12a"[2]) && !IsDigit("abc"[0]);
    ValidNumberCharacterized("000");
  }

  // ---------------------------------------------------------------------
  // zero-padded slot names
  // ---------------------------------------------------------------------

  /** `String(i).padStart(3, '0')`. */
  function Pad3(i: nat): string {
    PadStart(NatToString(i), 3, '0')
  }

  /** Each slot 1..999 has a three-digit padded name that is itself a valid
      token and reads back as the slot. */
  lemma Pad3Slot(i: nat)
    requires 1 <= i <= 999
    ensures |Pad3(i)| == 3 && AllDigits(Pad3(i)) && ParseDigits(Pad3(i)) == i
    ensures IsValidNumber(Pad3(i))
  {
    assert Pow10(3) == 1000;
    NatToStringLength(i, 3);
    var s := NatToString(i);
    NatToStringParses(i);
    assert Pad3(i) == Zeros(3 - |s|) + s;
    ParseDigitsLeadingZeros(3 - |s|, s);
  }

  /** Distinct slots have distinct padded names. */
  lemma Pad3Injective(i: nat, j: nat)
    requires 1 <= i <= 999 && 1 <= j <= 999
    requires Pad3(i) == Pad3(j)
    ensures i == j
  {
    Pad3Slot(i);
    Pad3Slot(j);
  }

  /** The one- and two-digit spellings of a slot are valid tokens that differ
      from its padded name, so the registry can hold both at once. */
  lemma UnpaddedIsDistinctMember(i: nat)
    requires 1 <= i <= 99
    ensures IsValidNumber(NatToString(i)) && IsValidNumber(Pad3(i))
    ensures NatToString(i) != Pad3(i)
  {
    assert Pow10(2) == 100 && Pow10(3) == 1000;
    NatToStringLength(i, 2);
    Pad3Slot(i);
    NatToStringParses(i);
    assert NatToString(i)[0] != '0';
    ValidNumberCharacterized(NatToString(i));
  }

  // ---------------------------------------------------------------------
  // the unclaimed slots
  // ---------------------------------------------------------------------

  /** The slots 1..n whose padded name is not in `numbers`, ascending. */
  function AbsentUpTo(numbers: set<string>, n: nat): seq<nat> {
    if n == 0 then []
    else AbsentUpTo(numbers, n - 1) + (if Pad3(n) in numbers then [] else [n])
  }

  lemma {:induction false} AbsentUpToSpec(numbers: set<string>, n: nat)
    ensures forall i :: i in AbsentUpTo(numbers, n) <==> 1 <= i <= n && Pad3(i) !in numbers
    ensures forall j, k :: 0 <= j < k < |AbsentUpTo(numbers, n)| ==> AbsentUpTo(numbers, n)[j] < AbsentUpTo(numbers, n)[k]
  {
    if n > 0 {
      AbsentUpToSpec(numbers, n - 1);
      var prev := AbsentUpTo(numbers, n - 1);
      var ext: seq<nat> := if Pad3(n) in numbers then [] else [n];
      assert AbsentUpTo(numbers, n) == prev + ext;
      forall i ensures i in prev + ext <==> 1 <= i <= n && Pad3(i) !in numbers {
        assert i in prev + ext <==> i in prev || i in ext;
      }
      assert forall j :: 0 <= j < |prev| ==> prev[j] in prev;
    }
  }

  /** Scanning further only appends. */
  lemma {:induction false} AbsentUpToPrefix(numbers: set<string>, m: nat, n: nat)
    requires m <= n
    ensures AbsentUpTo(numbers, m) <= AbsentUpTo(numbers, n)
    decreases n
  {
    if m < n {
      AbsentUpToPrefix(numbers, m, n - 1);
    }
  }

  function Pads(xs: seq<nat>): (r: seq<string>)
    ensures |r| == |xs|
  {
    seq(|xs|, k requires 0 <= k < |xs| => Pad3(xs[k]))
  }

  lemma PadsAppend(xs: seq<nat>, x: nat)
    ensures Pads(xs + [x]) == Pads(xs) + [Pad3(x)]
  {
  }

  function Take10(xs: seq<nat>): seq<nat> {
    if |xs| <= 10 then xs else xs[..10]
  }

  /** The padded names of the first ten unclaimed slots of 1..999 (fewer
      when fewer are unclaimed): the value `getFirstTenMissingNumbers`
      computes. */
  function FirstTenMissing(numbers: set<string>): seq<string> {
    Pads(Take10(AbsentUpTo(numbers, MaxSlots)))
  }

  /** What the missing-number list means: at most ten names; each the padded
      name of an unclaimed slot; in strictly ascending order; and no
      unclaimed slot below the last one listed (or anywhere, when fewer than
      ten are listed) is left out. */
  lemma FirstTenMissingSpec(numbers: set<string>)
    ensures |FirstTenMissing(numbers)| <= 10
    ensures forall k :: 0 <= k < |FirstTenMissing(numbers)| ==>
              var name := FirstTenMissing(numbers)[k];
              |name| == 3 && AllDigits(name) && 1 <= ParseDigits(name) <= 999
              && name == Pad3(ParseDigits(name)) && name !in numbers
    ensures forall j, k :: 0 <= j < k < |FirstTenMissing(numbers)| ==>
              ParseDigits(FirstTenMissing(numbers)[j]) < ParseDigits(FirstTenMissing(numbers)[k])
    ensures forall i :: 1 <= i <= 999 && Pad3(i) !in numbers
              && (|FirstTenMissing(numbers)| < 10 || i <= ParseDigits(FirstTenMissing(numbers)[|FirstTenMissing(numbers)| - 1]))
              ==> Pad3(i) in FirstTenMissing(numbers)
  {
    var t := Take10(AbsentUpTo(numbers, MaxSlots));
    var r := FirstTenMissing(numbers);
    TakeAbsentSpec(numbers, MaxSlots);
    forall k | 0 <= k < |r|
      ensures |r[k]| == 3 && AllDigits(r[k]) && ParseDigits(r[k]) == t[k]
    {
      Pad3Slot(t[k]);
    }
    forall i | 1 <= i <= 999 && Pad3(i) !in numbers && (|r| < 10 || i <= ParseDigits(r[|r| - 1]))
      ensures Pad3(i) in r
    {
      var p :| 0 <= p < |t| && t[p] == i;
      assert r[p] == Pad3(i);
    }
  }

  /** The first ten unclaimed slots of 1..n, as numbers. */
  lemma TakeAbsentSpec(numbers: set<string>, n: nat)
    ensures var t := Take10(AbsentUpTo(numbers, n));
            && |t| <= 10
            && (forall k :: 0 <= k < |t| ==> 1 <= t[k] <= n && Pad3(t[k]) !in numbers)
            && (forall j, k :: 0 <= j < k < |t| ==> t[j] < t[k])
            && (forall i :: 1 <= i <= n && Pad3(i) !in numbers && (|t| < 10 || i <= t[|t| - 1]) ==> i in t)
  {
    var a := AbsentUpTo(numbers, n);
    var t := Take10(a);
    AbsentUpToSpec(numbers, n);
    assert forall k :: 0 <= k < |t| ==> t[k] == a[k];
    forall k | 0 <= k < |t| ensures 1 <= t[k] <= n && Pad3(t[k]) !in numbers {
      assert a[k] in a;
    }
    forall i | 1 <= i <= n && Pad3(i) !in numbers && (|t| < 10 || i <= t[|t| - 1])
      ensures i in t
    {
      assert i in a;
      var p :| 0 <= p < |a| && a[p] == i;
      assert t[p] == i;
    }
  }

  /** Every unclaimed slot among the first ten is listed. */
  lemma SmallAbsentSlotListed(numbers: set<string>, i: nat)
    requires 1 <= i <= 10 && Pad3(i) !in numbers
    ensures Pad3(i) in FirstTenMissing(numbers)
  {
    var t := Take10(AbsentUpTo(numbers, MaxSlots));
    TakeAbsentSpec(numbers, MaxSlots);
    if |t| == 10 {
      AscendingFromOne(t, 9);
    }
    var p :| 0 <= p < |t| && t[p] == i;
    assert FirstTenMissing(numbers)[p] == Pad3(i);
  }

  lemma {:induction false} AscendingFromOne(t: seq<nat>, k: nat)
    requires k < |t|
    requires forall j :: 0 <= j < |t| ==> 1 <= t[j]
    requires forall i, j :: 0 <= i < j < |t| ==> t[i] < t[j]
    ensures t[k] >= k + 1
  {
    if k > 0 {
      AscendingFromOne(t, k - 1);
    }
  }

  /** While none of "001".."010" is claimed, the list is exactly those ten;
      in particular it is on an empty registry. */
  lemma FirstTenMissingAtStart(numbers: set<string>)
    requires forall i :: 1 <= i <= 10 ==> Pad3(i) !in numbers
    ensures FirstTenMissing(numbers) == ["001", "002", "003", "004", "005", "006", "007", "008", "009", "010"]
  {
    AbsentUpToStart(numbers, 10);
    AbsentUpToPrefix(numbers, 10, MaxSlots);
    var t := Take10(AbsentUpTo(numbers, MaxSlots));
    assert t == AbsentUpTo(numbers, 10);
    assert t == [1, 2, 3, 4, 5, 6, 7, 8, 9, 10];
    FirstTenNames();
  }

  lemma FirstTenNames()
    ensures Pads([1, 2, 3, 4, 5, 6, 7, 8, 9, 10]) == ["001", "002", "003", "004", "005", "006", "007", "008", "009", "010"]
  {
    FirstFiveNames();
    SecondFiveNames();
  }

  lemma FirstFiveNames()
    ensures Pad3(1) == "001" && Pad3(2) == "002" && Pad3(3) == "003" && Pad3(4) == "004" && Pad3(5) == "005"
  {
  }

  lemma SecondFiveNames()
    ensures Pad3(6) == "006" && Pad3(7) == "007" && Pad3(8) == "008" && Pad3(9) == "009" && Pad3(10) == "010"
  {
  }

  lemma {:induction false} AbsentUpToStart(numbers: set<string>, n: nat)
    requires forall i :: 1 <= i <= n ==> Pad3(i) !in numbers
    ensures |AbsentUpTo(numbers, n)| == n
    ensures forall k :: 0 <= k < n ==> AbsentUpTo(numbers, n)[k] == k + 1
  {
    if n > 0 {
      AbsentUpToStart(numbers, n - 1);
    }
  }

  // ---------------------------------------------------------------------
  // completion against the missing list
  // ---------------------------------------------------------------------

  /** The padded names of slots 1..n. */
  ghost function PadSet(n: nat): set<string> {
    set i | 1 <= i <= n :: Pad3(i)
  }

  lemma {:induction false} PadSetSize(n: nat)
    requires n <= 999
    ensures |PadSet(n)| == n
  {
    if n > 0 {
      PadSetSize(n - 1);
      var prev := PadSet(n - 1);
      forall x | x in PadSet(n)
        ensures x in prev + {Pad3(n)}
      {
        var i :| 1 <= i <= n && Pad3(i) == x;
        if i < n {
          assert x in prev;
        }
      }
      assert PadSet(n) == prev + {Pad3(n)};
      assert Pad3(n) !in prev by {
        if Pad3(n) in prev {
          var i :| 1 <= i <= n - 1 && Pad3(i) == Pad3(n);
          Pad3Injective(i, n);
        }
      }
    }
  }

  /** An empty missing list implies a complete game: all 999 padded names
      are present, so there are at least 999 members. */
  lemma NoneMissingMeansComplete(numbers: set<string>)
    requires FirstTenMissing(numbers) == []
    ensures |numbers| >= MaxSlots
  {
    FirstTenMissingSpec(numbers);
    assert PadSet(999) <= numbers;
    PadSetSize(999);
    SubsetSize(PadSet(999), numbers);
  }

  lemma SubsetSize(a: set<string>, b: set<string>)
    requires a <= b
    ensures |a| <= |b|
  {
    assert b == a + (b - a);
  }

  /** The converse fails because members are not normalised: 998 padded
      names plus "1" make 999 valid members, so the game counts as complete,
      while "001" is still reported missing. */
  lemma CompleteWhileMissing()
    ensures var numbers := (PadSet(999) - {Pad3(1)}) + {"1"};
            (forall x :: x in numbers ==> IsValidNumber(x))
            && |numbers| == MaxSlots && FirstTenMissing(numbers) != []
  {
    var numbers := (PadSet(999) - {Pad3(1)}) + {"1"};
    PadSetSize(999);
    Pad3Slot(1);
    assert Pad3(1) in PadSet(999);
    assert "1" !in PadSet(999);
    assert |PadSet(999) - {Pad3(1)}| == 998;
    assert Pad3(1) !in numbers;
    SmallAbsentSlotListed(numbers, 1);
    forall x | x in numbers ensures IsValidNumber(x) {
      if x != "1" {
        var i :| 1 <= i <= 999 && Pad3(i) == x;
        Pad3Slot(i);
      } else {
        ValidNumberCharacterized("1");
      }
    }
  }

  /** For the same reason the remaining count can drop below zero: all 999
      padded names plus "1" are 1000 valid members. */
  lemma RemainingCanBeNegative()
    ensures var numbers := PadSet(999) + {"1"};
            (forall x :: x in numbers ==> IsValidNumber(x))
            && MaxSlots - |numbers| == -1
  {
    var numbers := PadSet(999) + {"1"};
    PadSetSize(999);
    Pad3Slot(1);
    assert "1" !in PadSet(999);
    forall x | x in numbers ensures IsValidNumber(x) {
      if x != "1" {
        var i :| 1 <= i <= 999 && Pad3(i) == x;
        Pad3Slot(i);
      } else {
        ValidNumberCharacterized("1");
      }
    }
  }

  // ---------------------------------------------------------------------
  // the data file
  // ---------------------------------------------------------------------

  /** `xs` lists the members of `s`, each once, in some order: what
      `Array.from` gives for a Set. */
  predicate Lists(xs: seq<string>, s: set<string>) {
    && (forall i, j :: 0 <= i < j < |xs| ==> xs[i] != xs[j])
    && (forall x :: x in xs ==> x in s)
    && (forall x :: x in s ==> x in xs)
  }

  /** The document `saveData` writes for the given state and clock reading. */
  predicate Encodes(doc: Document, numbers: set<string>, players: set<string>, stamp: Timestamp) {
    && doc.numbers.Some? && Lists(doc.numbers.value, numbers)
    && doc.players.Some? && Lists(doc.players.value, players)
    && doc.lastUpdate == Some(stamp)
  }

  /** `new Set(field || [])`. */
  function Restore(field: Option<seq<string>>): (r: set<string>)
    ensures field.None? ==> r == {}
    ensures field.Some? ==> forall x :: x in r <==> x in field.value
  {
    match field
    case None => {}
    case Some(xs) => set x | x in xs
  }

  /** `field || now`: an absent, null or empty stamp is replaced by the clock. */
  function RestoreStamp(field: Option<Timestamp>, now: Timestamp): Timestamp {
    if field.Some? && field.value != "" then field.value else now
  }

  /** Loading what was saved restores both sets, and the stamp the save
      wrote. */
  lemma SaveLoadRoundTrip(doc: Document, numbers: set<string>, players: set<string>, stamp: Timestamp, now: Timestamp)
    requires Encodes(doc, numbers, players, stamp)
    ensures Restore(doc.numbers) == numbers && Restore(doc.players) == players
    ensures stamp != "" ==> RestoreStamp(doc.lastUpdate, now) == stamp
    ensures |doc.numbers.value| == |numbers| && |doc.players.value| == |players|
  {
    ListsSize(doc.numbers.value, numbers);
    ListsSize(doc.players.value, players);
  }

  lemma {:induction false} ListsSize(xs: seq<string>, s: set<string>)
    requires Lists(xs, s)
    ensures |xs| == |s|
  {
    if xs != [] {
      var last := xs[|xs| - 1];
      var init := xs[..|xs| - 1];
      assert forall x :: x in init ==> x != last;
      assert Lists(init, s - {last});
      ListsSize(init, s - {last});
    }
  }

  /** `Array.from(set)`: picks the members one at a time. JavaScript yields
      them in insertion order, which the model does not record. */
  method SetToSeq(s: set<string>) returns (xs: seq<string>)
    ensures Lists(xs, s) && |xs| == |s|
  {
    xs := [];
    var rest := s;
    while rest != {}
      invariant rest <= s
      invariant forall x :: x in s <==> x in xs || x in rest
      invariant forall x :: x in xs ==> x !in rest
      invariant forall i, j :: 0 <= i < j < |xs| ==> xs[i] != xs[j]
      invariant |xs| + |rest| == |s|
      decreases |rest|
    {
      var x :| x in rest;
      xs := xs + [x];
      rest := rest - {x};
    }
  }

  // ---------------------------------------------------------------------
  // the registry object
  // ---------------------------------------------------------------------

  class GameStorage {
    const dataFilePath: string
    var numbers: set<string>
    var players: set<string>
    var lastUpdate: Timestamp
    /** The document the data file is known to hold after this object's
        last save: `None` before any save, and after a failed write, which
        may have truncated the file. */
    ghost var lastSaved: Option<Document>

    /** True when the data file holds the current sets, written at `stamp`. */
    ghost predicate SavedAt(stamp: Timestamp)
      reads this
    {
      lastSaved.Some? && Encodes(lastSaved.value, numbers, players, stamp)
    }

    constructor (dataFilePath: string, now: Timestamp)
      ensures this.dataFilePath == dataFilePath
      ensures numbers == {} && players == {} && lastUpdate == now && lastSaved == None
    {
      this.dataFilePath := dataFilePath;
      numbers := {};
      players := {};
      lastUpdate := now;
      lastSaved := None;
    }

    /** `initialize`: makes sure the directory exists and loads the file; if
        either step throws, starts from the current state and writes it,
        and a failure of that write is passed on. */
    method Initialize(directory: IoStatus, read: ReadOutcome, now: Timestamp, write: IoStatus) returns (r: IoStatus)
      modifies this`numbers, this`players, this`lastUpdate, this`lastSaved
      ensures directory == IoOk && read.FileRead? ==>
                r == IoOk && lastSaved == old(lastSaved)
                && numbers == Restore(read.document.numbers) && players == Restore(read.document.players)
                && lastUpdate == RestoreStamp(read.document.lastUpdate, now)
      ensures directory == IoOk && read.FileMissing? ==>
                r == IoOk && lastSaved == old(lastSaved)
                && numbers == old(numbers) && players == old(players) && lastUpdate == old(lastUpdate)
      ensures directory.IoError? || read.ReadFailed? ==>
                && numbers == old(numbers) && players == old(players) && lastUpdate == old(lastUpdate)
                && (write == IoOk ==> r == IoOk && SavedAt(now))
                && (write.IoError? ==> r == write && lastSaved == None)
    {
      var loaded := directory;
      if directory == IoOk {
        loaded := LoadData(read, now);
      }
      if loaded.IoError? {
        r := SaveData(now, write);
      } else {
        r := IoOk;
      }
    }

    /** `loadData`: replaces the state with the file's contents; a missing
        file changes nothing, and any other failure is passed on. */
    method LoadData(read: ReadOutcome, now: Timestamp) returns (r: IoStatus)
      modifies this`numbers, this`players, this`lastUpdate
      ensures read.FileRead? ==>
                r == IoOk && numbers == Restore(read.document.numbers) && players == Restore(read.document.players)
                && lastUpdate == RestoreStamp(read.document.lastUpdate, now)
      ensures read.FileMissing? ==>
                r == IoOk && numbers == old(numbers) && players == old(players) && lastUpdate == old(lastUpdate)
      ensures read.ReadFailed? ==>
                r == IoError(read.message) && numbers == old(numbers) && players == old(players)
                && lastUpdate == old(lastUpdate)
    {
      match read
      case FileRead(doc) =>
        numbers := Restore(doc.numbers);
        players := Restore(doc.players);
        lastUpdate := RestoreStamp(doc.lastUpdate, now);
        r := IoOk;
      case FileMissing =>
        r := IoOk;
      case ReadFailed(message) =>
        r := IoError(message);
    }

    /** `saveData`: writes both sets as lists and a fresh stamp; the
        in-memory `lastUpdate` is left as it is. A failed write is passed on
        and leaves the file's content unknown. */
    method SaveData(now: Timestamp, write: IoStatus) returns (r: IoStatus)
      modifies this`lastSaved
      ensures write == IoOk ==> r == IoOk && SavedAt(now)
      ensures write.IoError? ==> r == write && lastSaved == None
    {
      var ns := SetToSeq(numbers);
      var ps := SetToSeq(players);
      var doc := Document(Some(ns), Some(ps), Some(now));
      if write == IoOk {
        lastSaved := Some(doc);
      } else {
        lastSaved := None;
      }
      r := write;
    }

    /** `addNumber`: inserts a valid token that is not yet present, exactly
        as spelled, and stamps the change; the user id is ignored and the
        player set is never touched. */
    method AddNumber(number: string, userId: string, now: Timestamp) returns (r: AddResult)
      modifies this`numbers, this`lastUpdate
      ensures !IsValidNumber(number) ==>
                r == Invalid(InvalidNumberFormat) && numbers == old(numbers) && lastUpdate == old(lastUpdate)
      ensures IsValidNumber(number) ==>
                && numbers == old(numbers) + {number}
                && r == Checked(number !in old(numbers), MaxSlots - |numbers|)
                && lastUpdate == (if number in old(numbers) then old(lastUpdate) else now)
                && HasNumber(number)
      ensures IsValidNumber(number) && number !in old(numbers) ==> |numbers| == |old(numbers)| + 1
    {
      if IsValidNumber(number) {
        var wasAdded := number !in numbers;
        if wasAdded {
          numbers := numbers + {number};
          lastUpdate := now;
        }
        r := Checked(wasAdded, GetRemainingCount());
      } else {
        r := Invalid(InvalidNumberFormat);
      }
    }

    /** `hasNumber`: membership of the string exactly as given. */
    function HasNumber(number: string): (r: bool)
      reads this
      ensures r <==> number in numbers
    {
      number in numbers
    }

    /** `getRemainingCount`: 999 less the number of members; with unpadded
        duplicates of padded names this can be negative. */
    function GetRemainingCount(): (r: int)
      reads this
      ensures r + |numbers| == MaxSlots
    {
      MaxSlots - |numbers|
    }

    /** `getFirstTenMissingNumbers`: scans 1..999 in order, collecting padded
        names not present and stopping at the tenth. */
    method GetFirstTenMissingNumbers() returns (missing: seq<string>)
      ensures missing == FirstTenMissing(numbers)
      ensures |missing| <= 10
    {
      missing := [];
      var i := 1;
      while i <= MaxSlots
        invariant 1 <= i <= MaxSlots + 1
        invariant missing == Pads(AbsentUpTo(numbers, i - 1))
        invariant |missing| < 10
      {
        var padded := Pad3(i);
        if padded !in numbers {
          PadsAppend(AbsentUpTo(numbers, i - 1), i);
          missing := missing + [padded];
          if |missing| >= 10 {
            AbsentUpToPrefix(numbers, i, MaxSlots);
            assert Take10(AbsentUpTo(numbers, MaxSlots)) == AbsentUpTo(numbers, i);
            break;
          }
        }
        assert padded in numbers ==> AbsentUpTo(numbers, i) == AbsentUpTo(numbers, i - 1);
        i := i + 1;
      }
    }

    /** `isGameComplete`: at least 999 members, which is the same as no
        slots remaining. */
    function IsGameComplete(): (r: bool)
      reads this
      ensures r <==> GetRemainingCount() <= 0
    {
      |numbers| >= MaxSlots
    }

    /** `getStats`. */
    function GetStats(): (r: GameStats)
      reads this
      ensures r.totalNumbers == |numbers| && r.players == |players| && r.lastUpdate == lastUpdate
      ensures r.totalNumbers + r.remaining == MaxSlots
    {
      GameStats(|numbers|, GetRemainingCount(), |players|, lastUpdate)
    }
  }
}
