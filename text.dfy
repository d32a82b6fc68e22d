/** String helpers the lifecycle needs: JavaScript's `trim`, decimal
    rendering of numbers, and the `m:ss` countdown format with its parser. */
module Text {
  import opened Types

  /** ECMAScript WhiteSpace and LineTerminator code points, the set `trim` removes. */
  predicate IsWhitespace(c: char) {
    || c == '\t' || c == '\n' || c == '\U{000B}' || c == '\U{000C}' || c == '\r'
    || c == ' ' || c == '\U{00A0}' || c == '\U{1680}'
    || ('\U{2000}' <= c <= '\U{200A}')
    || c == '\U{2028}' || c == '\U{2029}' || c == '\U{202F}' || c == '\U{205F}'
    || c == '\U{3000}' || c == '\U{FEFF}'
  }

  predicate AllWhitespace(s: string) {
    forall i :: 0 <= i < |s| ==> IsWhitespace(s[i])
  }

  /** Drops leading whitespace: a suffix of `s` that is empty exactly when `s` is all whitespace. */
  function TrimStart(s: string): (r: string)
    ensures |r| <= |s| && r == s[|s| - |r|..]
    ensures r == [] || !IsWhitespace(r[0])
    ensures AllWhitespace(s[..|s| - |r|])
    decreases |s|
  {
    if s != [] && IsWhitespace(s[0]) then
      var r := TrimStart(s[1..]);
      assert s[1..][..|s[1..]| - |r|] == s[1..|s| - |r|];
      r
    else s
  }

  /** Drops trailing whitespace: a prefix of `s`. */
  function TrimEnd(s: string): (r: string)
    ensures |r| <= |s| && r == s[..|r|]
    ensures r == [] || !IsWhitespace(r[|r| - 1])
    ensures AllWhitespace(s[|r|..])
    decreases |s|
  {
    if s != [] && IsWhitespace(s[|s| - 1]) then
      var r := TrimEnd(s[..|s| - 1]);
      assert s[|r|..] == s[..|s| - 1][|r|..] + [s[|s| - 1]];
      r
    else s
  }

  function Trim(s: string): string {
    TrimEnd(TrimStart(s))
  }

  /** `!text.trim()` holds exactly for the strings made only of whitespace. */
  lemma {:induction false} TrimEmptyIffBlank(s: string)
    ensures Trim(s) == [] <==> AllWhitespace(s)
  {
    var a := TrimStart(s);
    assert a != [] ==> a[0] == s[|s| - |a|];
    if Trim(s) == [] {
      assert AllWhitespace(a[0..]);
      assert a == [];
      assert s[..|s| - |a|] == s;
    }
  }

  predicate IsDigit(c: char) {
    '0' <= c <= '9'
  }

  predicate AllDigits(s: string) {
    forall i :: 0 <= i < |s| ==> IsDigit(s[i])
  }

  function DigitChar(d: nat): (c: char)
    requires d < 10
    ensures IsDigit(c)
  {
    ('0' as int + d) as char
  }

  function DigitValue(c: char): nat
    requires IsDigit(c)
  {
    c as int - '0' as int
  }

  /** The number a string of decimal digits denotes. */
  function DigitsValue(s: string): nat
    requires AllDigits(s)
    decreases |s|
  {
    if s == [] then 0 else DigitsValue(s[..|s| - 1]) * 10 + DigitValue(s[|s| - 1])
  }

  /** Decimal rendering of a natural number, as JavaScript's template strings print it:
      digits only, no leading zero, and denoting `n`. */
  function NatToString(n: nat): (s: string)
    ensures |s| >= 1 && AllDigits(s)
    ensures s[0] == '0' ==> n == 0
    ensures DigitsValue(s) == n
    decreases n
  {
    if n < 10 then [DigitChar(n)]
    else
      var p := NatToString(n / 10);
      var s := p + [DigitChar(n % 10)];
      assert s[..|s| - 1] == p;
      s
  }

  /** Decimal rendering of an integer, with a leading '-' for negatives. */
  function IntToString(i: int): (s: string)
    ensures |s| >= 1
    ensures i >= 0 ==> AllDigits(s) && DigitsValue(s) == i && (s[0] == '0' ==> i == 0)
    ensures i < 0 ==> |s| >= 2 && s[1] != '0'
    ensures i < 0 ==> s[0] == '-' && AllDigits(s[1..]) && DigitsValue(s[1..]) == -i
  {
    if i < 0 then
      var t := NatToString(-i);
      assert ("-" + t)[1..] == t;
      "-" + t
    else NatToString(i)
  }

  /** The countdown display: whole minutes, a colon, then the seconds padded to two digits. */
  function FormatTime(seconds: nat): string {
    var mins := seconds / 60;
    var secs := seconds % 60;
    NatToString(mins) + ":" + (if secs < 10 then "0" else "") + NatToString(secs)
  }

  /** The first position of `c` in `s`, if any. */
  function IndexOf(s: string, c: char): (r: Option<nat>)
    ensures r.Some? ==> r.value < |s| && s[r.value] == c && forall j :: 0 <= j < r.value ==> s[j] != c
    ensures r.None? ==> forall j :: 0 <= j < |s| ==> s[j] != c
    decreases |s|
  {
    if s == [] then None
    else if s[0] == c then Some(0)
    else
      match IndexOf(s[1..], c)
      case None => None
      case Some(k) => Some(k + 1)
  }

  /** Reads an `m:ss` display back into seconds: the inverse of `FormatTime`. */
  function ParseTime(s: string): Option<nat> {
    match IndexOf(s, ':')
    case None => None
    case Some(k) => ParseFields(s[..k], s[k + 1..])
  }

  /** Minutes of one or more digits and seconds of exactly two digits below 60. */
  function ParseFields(m: string, ss: string): Option<nat> {
    if AllDigits(m) && |m| >= 1 && AllDigits(ss) && |ss| == 2 && DigitsValue(ss) < 60 then
      Some(DigitsValue(m) * 60 + DigitsValue(ss))
    else None
  }

  /** Two-digit padding keeps the value: "0" + d denotes d. */
  lemma {:induction false} PaddedValue(secs: nat)
    requires secs < 60
    ensures var p := (if secs < 10 then "0" else "") + NatToString(secs);
            |p| == 2 && AllDigits(p) && DigitsValue(p) == secs
  {
    var p := (if secs < 10 then "0" else "") + NatToString(secs);
    if secs < 10 {
      assert NatToString(secs) == [DigitChar(secs)];
      assert p[..1] == "0";
      assert DigitsValue(p[..1]) == DigitsValue(p[..1][..0]) * 10 + DigitValue('0');
    } else {
      var q := NatToString(secs / 10);
      assert q == [DigitChar(secs / 10)];
      assert p == q + [DigitChar(secs % 10)];
    }
  }

  /** In a digit string followed by a colon, the first colon is that one. */
  lemma {:induction false} FirstColonAfterDigits(ms: string, rest: string)
    requires AllDigits(ms)
    ensures IndexOf(ms + ":" + rest, ':') == Some(|ms|)
  {
    var s := ms + ":" + rest;
    forall j | 0 <= j < |ms| ensures s[j] != ':' {
      assert s[j] == ms[j];
    }
    assert s[|ms|] == ':';
  }

  /** Minutes digits, a colon and two seconds digits parse to minutes times 60 plus seconds. */
  lemma {:induction false} ParseTimeOf(ms: string, p: string)
    requires |ms| >= 1 && AllDigits(ms) && |p| == 2 && AllDigits(p) && DigitsValue(p) < 60
    ensures ParseTime(ms + ":" + p) == Some(DigitsValue(ms) * 60 + DigitsValue(p))
  {
    var s := ms + ":" + p;
    FirstColonAfterDigits(ms, p);
    SplitAtColon(ms, p);
    assert ParseTime(s) == ParseFields(s[..|ms|], s[|ms| + 1..]);
  }

  /** Cutting `ms + ":" + rest` around the colon gives back both parts. */
  lemma {:induction false} SplitAtColon(ms: string, rest: string)
    ensures (ms + ":" + rest)[..|ms|] == ms
    ensures (ms + ":" + rest)[|ms| + 1..] == rest
  {
    var s := ms + ":" + rest;
    assert s[..|ms|] == ms;
    assert s[|ms| + 1..] == rest;
  }

  /** Round trip: the countdown display of `seconds` parses back to `seconds`. */
  lemma {:induction false} ParseFormatTime(seconds: nat)
    ensures ParseTime(FormatTime(seconds)) == Some(seconds)
  {
    var mins, secs := seconds / 60, seconds % 60;
    var ms := NatToString(mins);
    var p := (if secs < 10 then "0" else "") + NatToString(secs);
    assert FormatTime(seconds) == ms + ":" + p;
    PaddedValue(secs);
    ParseTimeOf(ms, p);
    assert mins * 60 + secs == seconds;
  }

  /** The five-minute workshop window starts out displayed as "5:00". */
  lemma {:induction false} FiveMinuteDisplay()
    ensures FormatTime(300) == "5:00"
  {
    assert NatToString(5) == "5";
    assert NatToString(0) == "0";
  }
}
