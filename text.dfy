/** String helpers that the game code takes from JavaScript's built-ins:
    `String.prototype.trim`, the `\d` character class, `parseInt` on a
    string of decimal digits, `String(n)` on an integer, `padStart` and
    `Array.prototype.join`. `Lines` mirrors `split('\n')`; the game code
    never calls it, and the model uses it to state which lines a reply
    holds. */
module Text {

  // ---------------------------------------------------------------------
  // trim
  // ---------------------------------------------------------------------

  /** The ECMAScript WhiteSpace and LineTerminator code points, which is
      exactly what `trim` strips from both ends of a string. */
  predicate IsJsWhitespace(c: char) {
    || c == '\t' || c == '\n' || c == '\U{B}' || c == '\U{C}' || c == '\r' || c == ' '
    || c == '\U{A0}' || c == '\U{1680}' || ('\U{2000}' <= c <= '\U{200A}')
    || c == '\U{2028}' || c == '\U{2029}' || c == '\U{202F}' || c == '\U{205F}'
    || c == '\U{3000}' || c == '\U{FEFF}'
  }

  predicate AllWhitespace(s: string) {
    forall i :: 0 <= i < |s| ==> IsJsWhitespace(s[i])
  }

  /** Drops leading whitespace: the result is the suffix of `s` that
      starts at the first non-whitespace character. */
  function TrimStart(s: string): (r: string)
    ensures |r| <= |s| && r == s[|s| - |r|..]
    ensures AllWhitespace(s[..|s| - |r|])
    ensures r == [] || !IsJsWhitespace(r[0])
  {
    if s != [] && IsJsWhitespace(s[0]) then
      var r := TrimStart(s[1..]);
      assert s[..|s| - |r|] == [s[0]] + s[1..][..|s| - 1 - |r|];
      r
    else
      s
  }

  /** Drops trailing whitespace: the result is the prefix of `s` that
      ends at the last non-whitespace character. */
  function TrimEnd(s: string): (r: string)
    ensures |r| <= |s| && r == s[..|r|]
    ensures AllWhitespace(s[|r|..])
    ensures r == [] || !IsJsWhitespace(r[|r| - 1])
  {
    if s != [] && IsJsWhitespace(s[|s| - 1]) then
      var r := TrimEnd(s[..|s| - 1]);
      assert s[|r|..] == s[..|s| - 1][|r|..] + [s[|s| - 1]];
      r
    else
      s
  }

  /** `s.trim()`. */
  function Trim(s: string): string {
    TrimEnd(TrimStart(s))
  }

  /** What `trim` leaves: a contiguous piece of `s` with whitespace on
      neither end, everything cut away on either side being whitespace. */
  lemma TrimShape(s: string)
    ensures var r := Trim(s);
            && |r| <= |s|
            && (r == [] || (!IsJsWhitespace(r[0]) && !IsJsWhitespace(r[|r| - 1])))
            && exists i :: 0 <= i <= |s| - |r| && r == s[i..i + |r|]
                           && AllWhitespace(s[..i]) && AllWhitespace(s[i + |r|..])
  {
    var t := TrimStart(s);
    var r := TrimEnd(t);
    var i := |s| - |t|;
    assert t == s[i..];
    assert r == s[i..i + |r|] by {
      assert r == t[..|r|];
    }
    assert AllWhitespace(s[..i]);
    assert AllWhitespace(s[i + |r|..]) by {
      assert s[i + |r|..] == t[|r|..];
    }
    assert 0 <= i <= |s| - |r| && r == s[i..i + |r|] && AllWhitespace(s[..i]) && AllWhitespace(s[i + |r|..]);
  }

  /** Whitespace around a token never reaches the token: `trim` returns it. */
  lemma {:induction false} TrimSurrounded(a: string, s: string, b: string)
    requires AllWhitespace(a) && AllWhitespace(b)
    requires s != [] && !IsJsWhitespace(s[0]) && !IsJsWhitespace(s[|s| - 1])
    ensures Trim(a + s + b) == s
  {
    TrimStartSkips(a, s + b);
    assert a + s + b == a + (s + b);
    TrimEndSkips(s, b);
  }

  lemma {:induction false} TrimStartSkips(a: string, t: string)
    requires AllWhitespace(a)
    requires t != [] && !IsJsWhitespace(t[0])
    ensures TrimStart(a + t) == t
  {
    if a != [] {
      assert (a + t)[1..] == a[1..] + t;
      TrimStartSkips(a[1..], t);
    }
  }

  lemma {:induction false} TrimEndSkips(t: string, b: string)
    requires AllWhitespace(b)
    requires t != [] && !IsJsWhitespace(t[|t| - 1])
    ensures TrimEnd(t + b) == t
  {
    if b == [] {
      assert t + b == t;
    } else {
      assert (t + b)[..|t + b| - 1] == t + b[..|b| - 1];
      TrimEndSkips(t, b[..|b| - 1]);
    }
  }

  // ---------------------------------------------------------------------
  // decimal digits
  // ---------------------------------------------------------------------

  /** `\d` in a JavaScript regular expression without the `u` flag. */
  predicate IsDigit(c: char) {
    '0' <= c <= '9'
  }

  predicate AllDigits(s: string) {
    forall i :: 0 <= i < |s| ==> IsDigit(s[i])
  }

  /** `/^\d{1,3}$/.test(s)`: one to three digits and nothing else. */
  predicate MatchesOneToThreeDigits(s: string) {
    1 <= |s| <= 3 && AllDigits(s)
  }

  function Pow10(k: nat): (r: nat)
    ensures r >= 1
  {
    if k == 0 then 1 else 10 * Pow10(k - 1)
  }

  function DigitChar(d: nat): (c: char)
    requires d < 10
    ensures IsDigit(c) && (c as int) - ('0' as int) == d
  {
    ('0' as int + d) as char
  }

  /** `parseInt(s)` on a string made only of decimal digits: its value read
      left to right, leading zeros included. A string of k digits denotes a
      number below 10^k. */
  function ParseDigits(s: string): (r: nat)
    requires AllDigits(s)
    ensures r < Pow10(|s|)
  {
    if s == [] then 0
    else
      var p := ParseDigits(s[..|s| - 1]);
      var d := (s[|s| - 1] as int) - ('0' as int);
      assert p * 10 + d < Pow10(|s|) by {
        assert p <= Pow10(|s| - 1) - 1;
        assert p * 10 <= Pow10(|s| - 1) * 10 - 10;
      }
      p * 10 + d
  }

  /** A digit string denotes zero exactly when every digit is '0'. */
  lemma {:induction false} ParseDigitsZero(s: string)
    requires AllDigits(s)
    ensures ParseDigits(s) == 0 <==> forall i :: 0 <= i < |s| ==> s[i] == '0'
  {
    if s != [] {
      var init := s[..|s| - 1];
      ParseDigitsZero(init);
      if ParseDigits(s) == 0 {
        forall i | 0 <= i < |s| ensures s[i] == '0' {
          if i < |s| - 1 { assert s[i] == init[i]; }
        }
      }
    }
  }

  /** Leading zeros do not change the value of a digit string. */
  lemma {:induction false} ParseDigitsLeadingZeros(k: nat, s: string)
    requires AllDigits(s)
    ensures AllDigits(Zeros(k) + s) && ParseDigits(Zeros(k) + s) == ParseDigits(s)
  {
    if s == [] {
      assert Zeros(k) + s == Zeros(k);
      ParseDigitsZero(Zeros(k));
    } else {
      var z := Zeros(k) + s;
      assert z[..|z| - 1] == Zeros(k) + s[..|s| - 1];
      ParseDigitsLeadingZeros(k, s[..|s| - 1]);
    }
  }

  function Zeros(k: nat): (r: string)
    ensures |r| == k && forall i :: 0 <= i < k ==> r[i] == '0'
  {
    seq(k, _ => '0')
  }

  // ---------------------------------------------------------------------
  // String(n) and padStart
  // ---------------------------------------------------------------------

  /** `String(n)` for a non-negative integer: its shortest decimal
      spelling, which reads back as `n` and has no leading zero. */
  function NatToString(n: nat): (r: string)
    ensures 1 <= |r| && AllDigits(r)
    decreases n
  {
    if n < 10 then [DigitChar(n)] else NatToString(n / 10) + [DigitChar(n % 10)]
  }

  /** `String(n)` reads back as `n` and has no leading zero. */
  lemma {:induction false} NatToStringParses(n: nat)
    ensures ParseDigits(NatToString(n)) == n
    ensures |NatToString(n)| > 1 ==> NatToString(n)[0] != '0'
    decreases n
  {
    if n >= 10 {
      NatToStringParses(n / 10);
      var p := NatToString(n / 10);
      var r := NatToString(n);
      assert r[..|r| - 1] == p;
    }
  }

  /** A number below 10^k takes at most k digits to write. */
  lemma {:induction false} NatToStringLength(n: nat, k: nat)
    requires k >= 1 && n < Pow10(k)
    ensures |NatToString(n)| <= k
    decreases n
  {
    if n >= 10 {
      assert k >= 2;
      assert n / 10 < Pow10(k - 1);
      NatToStringLength(n / 10, k - 1);
    }
  }

  /** `String(n)` for any integer, with a leading '-' when negative. */
  function IntToString(n: int): (r: string)
    ensures forall i :: 0 <= i < |r| ==> IsDigit(r[i]) || r[i] == '-'
    ensures n >= 0 ==> r == NatToString(n)
  {
    if n < 0 then "-" + NatToString(-n) else NatToString(n)
  }

  /** `s.padStart(width, fill)` with a one-character fill: prefixes `s`
      with copies of `fill` until it is `width` long; a string already
      that long is returned unchanged. */
  function PadStart(s: string, width: nat, fill: char): string {
    if |s| >= width then s else seq(width - |s|, _ => fill) + s
  }

  /** What `padStart` produces: at least `width` long, ending in `s`, and
      made up of `fill` before it. */
  lemma PadStartShape(s: string, width: nat, fill: char)
    ensures var r := PadStart(s, width, fill);
            && |r| == (if |s| >= width then |s| else width)
            && r[|r| - |s|..] == s
            && forall i :: 0 <= i < |r| - |s| ==> r[i] == fill
  {
  }

  // ---------------------------------------------------------------------
  // split('\n') and join
  // ---------------------------------------------------------------------

  /** `s.split('\n')`: the pieces between line breaks, in order; a string
      without a line break is one piece, and the empty string is `[""]`. */
  function Lines(s: string): (r: seq<string>)
    ensures |r| >= 1
  {
    if s == [] then [""]
    else
      var rest := Lines(s[1..]);
      if s[0] == '\n' then [""] + rest else [[s[0]] + rest[0]] + rest[1..]
  }

  /** A string without a line break splits into itself alone. */
  lemma {:induction false} LinesOfLine(a: string)
    requires '\n' !in a
    ensures Lines(a) == [a]
  {
    if a != [] {
      assert '\n' !in a[1..];
      LinesOfLine(a[1..]);
      assert [a[0]] + a[1..] == a;
    }
  }

  /** Splitting `a + "\n" + b` puts the line-break-free `a` first and
      then splits `b`. */
  lemma {:induction false} LinesCons(a: string, b: string)
    requires '\n' !in a
    ensures Lines(a + "\n" + b) == [a] + Lines(b)
  {
    if a == [] {
      assert a + "\n" + b == "\n" + b;
      assert ("\n" + b)[1..] == b;
    } else {
      var s := a + "\n" + b;
      assert s[1..] == a[1..] + "\n" + b;
      assert '\n' !in a[1..];
      LinesCons(a[1..], b);
      assert [a[0]] + a[1..] == a;
    }
  }

  /** `xs.join(sep)`. */
  function Join(xs: seq<string>, sep: string): (r: string)
    ensures |xs| == 1 ==> r == xs[0]
  {
    if |xs| == 0 then ""
    else if |xs| == 1 then xs[0]
    else xs[0] + sep + Join(xs[1..], sep)
  }

  /** Joining onto a non-empty list puts the separator after the new head. */
  lemma JoinCons(x: string, xs: seq<string>, sep: string)
    requires |xs| >= 1
    ensures Join([x] + xs, sep) == x + sep + Join(xs, sep)
  {
    assert ([x] + xs)[1..] == xs;
  }

  /** Splitting lines undoes joining with line breaks, as long as no piece
      has a line break of its own. */
  lemma {:induction false} LinesOfJoin(xs: seq<string>)
    requires |xs| >= 1
    requires forall i :: 0 <= i < |xs| ==> '\n' !in xs[i]
    ensures Lines(Join(xs, "\n")) == xs
  {
    if |xs| == 1 {
      LinesOfLine(xs[0]);
    } else {
      LinesOfJoin(xs[1..]);
      LinesCons(xs[0], Join(xs[1..], "\n"));
    }
  }

  /** Joining three-character items with ", " puts item k at offset 5k, so
      every item can be read back from the joined text. */
  lemma {:induction false} JoinThreeWide(xs: seq<string>)
    requires |xs| >= 1
    requires forall i :: 0 <= i < |xs| ==> |xs[i]| == 3
    ensures |Join(xs, ", ")| == 5 * |xs| - 2
    ensures forall k :: 0 <= k < |xs| ==> Join(xs, ", ")[5 * k..5 * k + 3] == xs[k]
  {
    if |xs| > 1 {
      var tail := Join(xs[1..], ", ");
      JoinThreeWide(xs[1..]);
      var r := xs[0] + ", " + tail;
      assert Join(xs, ", ") == r;
      forall k | 0 <= k < |xs| ensures r[5 * k..5 * k + 3] == xs[k] {
        if k == 0 {
          assert r[..3] == xs[0];
        } else {
          assert r[5 * k..5 * k + 3] == tail[5 * (k - 1)..5 * (k - 1) + 3];
          assert xs[1..][k - 1] == xs[k];
        }
      }
    }
  }
}
