/** The handful of Python string operations the scheduler's text handling
    relies on, over ASCII: `strip`, `lstrip`, `lower`, `split`/`join` on one
    separator character, `rfind`, `isdigit`, and `int()` on a decimal string. */
module PyStrings {
  import opened Basics

  /** Characters for which Python's `str.isspace()` holds, restricted to ASCII. */
  predicate IsSpace(c: char) {
    c == ' ' || (9 <= c as int <= 13) || (28 <= c as int <= 31)
  }

  function LStripBy(s: string, strip: char -> bool): (r: string)
    ensures |r| <= |s| && r == s[|s| - |r|..]
  {
    if s != [] && strip(s[0]) then LStripBy(s[1..], strip) else s
  }

  /** `lstrip` removes exactly the leading run of stripped characters. */
  lemma {:induction false} LStripByRun(s: string, strip: char -> bool)
    ensures var r := LStripBy(s, strip);
      && (r == [] || !strip(r[0]))
      && forall i :: 0 <= i < |s| - |r| ==> strip(s[i])
  {
    if s != [] && strip(s[0]) {
      var r := LStripBy(s[1..], strip);
      LStripByRun(s[1..], strip);
      forall i | 1 <= i < |s| - |r|
        ensures strip(s[i])
      {
        assert s[i] == s[1..][i - 1];
      }
    }
  }

  function RStripBy(s: string, strip: char -> bool): (r: string)
    ensures |r| <= |s| && r == s[..|r|]
  {
    if s != [] && strip(s[|s| - 1]) then RStripBy(s[..|s| - 1], strip) else s
  }

  /** `rstrip` removes exactly the trailing run of stripped characters. */
  lemma {:induction false} RStripByRun(s: string, strip: char -> bool)
    ensures var r := RStripBy(s, strip);
      && (r == [] || !strip(r[|r| - 1]))
      && forall i :: |r| <= i < |s| ==> strip(s[i])
  {
    if s != [] && strip(s[|s| - 1]) {
      RStripByRun(s[..|s| - 1], strip);
    }
  }

  /** `s.strip()`. */
  function Strip(s: string): (r: string)
  {
    RStripBy(LStripBy(s, IsSpace), IsSpace)
  }

  /** The stripped string starts and ends with a non-space. */
  lemma StripEnds(s: string)
    ensures var r := Strip(s); r == [] || (!IsSpace(r[0]) && !IsSpace(r[|r| - 1]))
  {
    var l := LStripBy(s, IsSpace);
    LStripByRun(s, IsSpace);
    RStripByRun(l, IsSpace);
  }

  /** `s.lstrip("\n")`. */
  function LStripNewlines(s: string): (r: string)
    ensures |r| <= |s| && r == s[|s| - |r|..]
  {
    LStripBy(s, c => c == '\n')
  }

  /** `lstrip("\n")` removes exactly the leading newlines. */
  lemma LStripNewlinesRun(s: string)
    ensures var r := LStripNewlines(s);
      && (r == [] || r[0] != '\n')
      && forall i :: 0 <= i < |s| - |r| ==> s[i] == '\n'
  {
    LStripByRun(s, c => c == '\n');
  }

  function LowerChar(c: char): char {
    if 'A' <= c <= 'Z' then (c as int + 32) as char else c
  }

  /** `s.lower()` on ASCII letters. */
  function Lower(s: string): (r: string)
    ensures |r| == |s|
  {
    if s == [] then [] else [LowerChar(s[0])] + Lower(s[1..])
  }

  /** `lower` works character by character. */
  lemma {:induction false} LowerChars(s: string)
    ensures forall i :: 0 <= i < |s| ==> Lower(s)[i] == LowerChar(s[i])
  {
    if s != [] {
      LowerChars(s[1..]);
      assert forall i :: 1 <= i < |s| ==> s[i] == s[1..][i - 1];
    }
  }

  /** `s.split(sep)` for a one-character separator: never empty, and an
      empty piece for each pair of adjacent separators. */
  function Split(s: string, sep: char): (r: seq<string>)
    ensures |r| >= 1
    ensures forall i :: 0 <= i < |r| ==> sep !in r[i]
  {
    if s == [] then [""]
    else
      var rest := Split(s[1..], sep);
      if s[0] == sep then [""] + rest else [[s[0]] + rest[0]] + rest[1..]
  }

  /** `sep.join(parts)`. */
  function Join(parts: seq<string>, sep: char): string {
    if parts == [] then ""
    else if |parts| == 1 then parts[0]
    else parts[0] + [sep] + Join(parts[1..], sep)
  }

  lemma {:induction false} JoinSplit(s: string, sep: char)
    ensures Join(Split(s, sep), sep) == s
  {
    if s != [] {
      var rest := Split(s[1..], sep);
      JoinSplit(s[1..], sep);
      if s[0] == sep {
        assert ([""] + rest)[1..] == rest;
      } else {
        var parts := [[s[0]] + rest[0]] + rest[1..];
        assert parts[1..] == rest[1..];
        if |rest| == 1 {
          assert Join(rest, sep) == rest[0];
        } else {
          assert Join(rest, sep) == rest[0] + [sep] + Join(rest[1..], sep);
        }
      }
    }
  }

  /** Splitting a string that starts with a separator-free piece and a
      separator yields that piece followed by the pieces of the rest. */
  lemma {:induction false} SplitAfterPiece(piece: string, sep: char, rest: string)
    requires sep !in piece
    ensures Split(piece + [sep] + rest, sep) == [piece] + Split(rest, sep)
  {
    var s := piece + [sep] + rest;
    if piece == [] {
      assert s == [sep] + rest;
      assert s[1..] == rest;
    } else {
      assert s[1..] == piece[1..] + [sep] + rest;
      SplitAfterPiece(piece[1..], sep, rest);
      assert [s[0]] + piece[1..] == piece;
    }
  }

  /** `s.rfind(c, 0, hi)`: the last index below `hi` holding `c`, or -1. */
  function RFindBefore(s: string, c: char, hi: nat): (r: int)
    ensures -1 <= r < hi && r < |s|
    ensures r >= 0 ==> s[r] == c
    ensures forall j :: r < j < hi && j < |s| ==> s[j] != c
  {
    if hi == 0 || s == [] then -1
    else if hi > |s| then RFindBefore(s, c, |s|)
    else if s[hi - 1] == c then hi - 1
    else RFindBefore(s, c, hi - 1)
  }

  /** `c.isdigit()` restricted to ASCII. */
  predicate IsDigit(c: char) {
    '0' <= c <= '9'
  }

  /** `s.isdigit()`: non-empty and every character a digit. */
  predicate AllDigits(s: string) {
    s != [] && forall i :: 0 <= i < |s| ==> IsDigit(s[i])
  }

  function DigitChar(d: nat): char
    requires d < 10
  {
    ('0' as int + d) as char
  }

  /** The decimal value of a string of digits and underscores, ignoring the underscores. */
  function DigitsValue(s: string): nat
    requires forall i :: 0 <= i < |s| ==> IsDigit(s[i]) || s[i] == '_'
  {
    if s == [] then 0
    else if s[|s| - 1] == '_' then DigitsValue(s[..|s| - 1])
    else
      assert IsDigit(s[|s| - 1]);
      DigitsValue(s[..|s| - 1]) * 10 + (s[|s| - 1] as int - '0' as int)
  }

  /** What Python's `int()` accepts after the sign: digits, with single
      underscores allowed between two digits. */
  predicate IntBody(s: string) {
    s != [] && IsDigit(s[0]) && IsDigit(s[|s| - 1])
    && (forall i :: 0 <= i < |s| ==> IsDigit(s[i]) || s[i] == '_')
    && (forall i :: 0 <= i < |s| - 1 && s[i] == '_' ==> s[i + 1] != '_')
  }

  /** `int(s)` in base 10: `None` where Python raises `ValueError`. */
  function PyInt(s: string): (r: Option<int>)
    ensures r.Some? ==> Strip(s) != []
  {
    var t := Strip(s);
    if t == [] then None
    else
      var negative := t[0] == '-';
      var body := if t[0] == '-' || t[0] == '+' then t[1..] else t;
      if IntBody(body) then
        var v: int := DigitsValue(body);
        Some(if negative then -v else v)
      else None
  }

  /** `str(n)` for a natural number. */
  function ShowNat(n: nat): (r: string)
    ensures AllDigits(r)
    ensures r[0] != '0' || n == 0
  {
    if n < 10 then [DigitChar(n)] else ShowNat(n / 10) + [DigitChar(n % 10)]
  }

  lemma {:induction false} ShowNatValue(n: nat)
    ensures DigitsValue(ShowNat(n)) == n
  {
    if n >= 10 {
      var s := ShowNat(n);
      assert s[..|s| - 1] == ShowNat(n / 10);
      ShowNatValue(n / 10);
    }
  }

  lemma NoSpaceNoStrip(s: string)
    requires forall i :: 0 <= i < |s| ==> !IsSpace(s[i])
    ensures Strip(s) == s
  {
  }

  /** A plain run of digits reads as its decimal value. */
  lemma PyIntDigits(s: string)
    requires s != [] && AllDigits(s)
    ensures PyInt(s) == Some(DigitsValue(s))
  {
    assert IntBody(s);
    assert Strip(s) == s by {
      NoSpaceNoStrip(s);
    }
  }

  /** `int(str(n)) == n`. */
  lemma PyIntShowNat(n: nat)
    ensures PyInt(ShowNat(n)) == Some(n)
  {
    PyIntDigits(ShowNat(n));
    ShowNatValue(n);
  }
}
