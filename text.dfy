/** The few Python string operations the engines rely on, over `seq<char>`
    and restricted to ASCII: substring tests (`a in b`), `str.isdigit`,
    `int(...)`, `str(int)`, `str.lower`, `str.title`, `str.replace` of one
    character and `str.strip`. */
module Text {
  import opened Wrappers

  // ---------------------------------------------------------------------
  // Substring test: Python `needle in hay` on two strings.
  // ---------------------------------------------------------------------

  /** `needle` occurs in `hay` starting at position `i`. */
  predicate MatchAt(needle: string, hay: string, i: nat)
  {
    i + |needle| <= |hay| && hay[i..i + |needle|] == needle
  }

  /** Python `needle in hay`: `needle` is a contiguous substring of `hay`.
      The empty needle is contained in every string. */
  predicate Contains(needle: string, hay: string)
  {
    exists i: nat :: i <= |hay| - |needle| && MatchAt(needle, hay, i)
  }

  lemma ContainsAt(needle: string, hay: string, i: nat)
    requires i + |needle| <= |hay| && hay[i..i + |needle|] == needle
    ensures Contains(needle, hay)
  {
    assert MatchAt(needle, hay, i);
  }

  /** A needle longer than the text does not occur in it. */
  lemma NotContainsLonger(needle: string, hay: string)
    requires |needle| > |hay|
    ensures !Contains(needle, hay)
  {
  }

  /** A needle holding a character that `hay` lacks does not occur in it. */
  lemma {:induction false} NotContainsChar(needle: string, hay: string, k: nat)
    requires k < |needle| && needle[k] !in hay
    ensures !Contains(needle, hay)
  {
    forall i: nat | i <= |hay| - |needle| ensures !MatchAt(needle, hay, i) {
      if i + |needle| <= |hay| {
        assert hay[i..i + |needle|][k] in hay;
      }
    }
  }

  /** A needle without the separator `sep` occurs in `left + [sep] + right`
      only if it occurs in one of the two sides. */
  lemma {:induction false} NotContainsSplit(needle: string, left: string, sep: char, right: string)
    requires sep !in needle
    requires !Contains(needle, left) && !Contains(needle, right)
    ensures !Contains(needle, left + [sep] + right)
  {
    var hay := left + [sep] + right;
    forall i: nat | i <= |hay| - |needle| ensures !MatchAt(needle, hay, i) {
      if i + |needle| <= |hay| {
        if i + |needle| <= |left| {
          assert !MatchAt(needle, left, i);
          assert left[i..i + |needle|] == hay[i..i + |needle|];
        } else if i > |left| {
          var j: nat := i - |left| - 1;
          assert !MatchAt(needle, right, j);
          assert right[j..j + |needle|] == hay[i..i + |needle|];
        } else {
          assert hay[i..i + |needle|][|left| - i] == sep;
        }
      }
    }
  }

  /** A string's first character is that of any non-empty prefix of it. */
  lemma PrefixFirst(s: string, p: string)
    requires |p| > 0 && p <= s
    ensures s[0] == p[0]
  {
  }

  // ---------------------------------------------------------------------
  // Digits and integers: `str.isdigit`, `int(s)` and `str(n)`.
  // ---------------------------------------------------------------------

  predicate IsDigit(c: char)
  {
    '0' <= c <= '9'
  }

  predicate AllDigits(s: string)
  {
    forall i :: 0 <= i < |s| ==> IsDigit(s[i])
  }

  /** Python `s.isdigit()` on ASCII text: non-empty and every character a digit. */
  predicate IsDigits(s: string)
  {
    |s| > 0 && AllDigits(s)
  }

  function DigitValue(c: char): (d: nat)
    requires IsDigit(c)
    ensures d < 10
  {
    (c as int) - ('0' as int)
  }

  function DigitChar(d: nat): (c: char)
    requires d < 10
    ensures IsDigit(c) && DigitValue(c) == d
  {
    ('0' as int + d) as char
  }

  /** The decimal value of a string of digits, most significant first. */
  function DigitsValue(s: string): nat
    requires AllDigits(s)
  {
    if |s| == 0 then 0 else 10 * DigitsValue(s[..|s| - 1]) + DigitValue(s[|s| - 1])
  }

  /** Python `int(s)` restricted to an optional sign followed by ASCII digits;
      `None` stands for the `ValueError` that `int` raises on anything else. */
  function ParseInt(s: string): Option<int>
  {
    if |s| > 0 && (s[0] == '+' || s[0] == '-') then
      if IsDigits(s[1..]) then
        var v: int := DigitsValue(s[1..]);
        Some(if s[0] == '-' then -v else v)
      else None
    else if IsDigits(s) then Some(DigitsValue(s))
    else None
  }

  /** Python `str(n)` for a non-negative integer. */
  function NatToString(n: nat): (s: string)
    ensures IsDigits(s)
  {
    if n < 10 then [DigitChar(n)] else NatToString(n / 10) + [DigitChar(n % 10)]
  }

  /** Python `str(i)`. */
  function IntToString(i: int): (s: string)
    ensures |s| > 0 && (IsDigit(s[0]) || s[0] == '-')
  {
    if i < 0 then "-" + NatToString(-i) else NatToString(i)
  }

  lemma {:induction false} NatToStringValue(n: nat)
    ensures DigitsValue(NatToString(n)) == n
  {
    if n >= 10 {
      NatToStringValue(n / 10);
      var s := NatToString(n);
      assert s[..|s| - 1] == NatToString(n / 10);
    }
  }

  /** `int(str(i)) == i`: parsing undoes printing. */
  lemma ParseIntToString(i: int)
    ensures ParseInt(IntToString(i)) == Some(i)
  {
    if i < 0 {
      NatToStringValue(-i);
      assert IntToString(i)[1..] == NatToString(-i);
    } else {
      NatToStringValue(i);
    }
  }

  /** Python `f"{x:.2f}"` for a value held as a whole number of hundredths. */
  function FormatHundredths(h: int): (s: string)
    ensures |s| >= 4 && s[|s| - 3] == '.'
  {
    var a: nat := if h < 0 then -h else h;
    (if h < 0 then "-" else "") + NatToString(a / 100) + "." + [DigitChar(a % 100 / 10), DigitChar(a % 10)]
  }

  /** The formatted text reads back as the value: a sign exactly for
      negative values, then whole units, a point and two digits whose
      value is the magnitude in hundredths. */
  lemma FormatHundredthsValue(h: int)
    ensures var s := FormatHundredths(h);
      var body := if h < 0 then s[1..] else s;
      && (s[0] == '-' <==> h < 0)
      && IsDigits(body[..|body| - 3]) && AllDigits(body[|body| - 2..])
      && DigitsValue(body[..|body| - 3]) * 100 + DigitValue(body[|body| - 2]) * 10 + DigitValue(body[|body| - 1])
         == (if h < 0 then -h else h)
  {
    var a: nat := if h < 0 then -h else h;
    var whole := NatToString(a / 100);
    var body := whole + "." + [DigitChar(a % 100 / 10), DigitChar(a % 10)];
    NatToStringValue(a / 100);
    assert body[..|body| - 3] == whole;
    if h < 0 {
      assert FormatHundredths(h) == "-" + body;
      assert FormatHundredths(h)[1..] == body;
    } else {
      assert FormatHundredths(h) == body;
    }
  }

  // ---------------------------------------------------------------------
  // Case mapping: `str.lower`, `str.title`, one-character `str.replace`.
  // ---------------------------------------------------------------------

  predicate IsUpper(c: char) { 'A' <= c <= 'Z' }
  predicate IsLower(c: char) { 'a' <= c <= 'z' }

  function ToLower(c: char): char
  {
    if IsUpper(c) then (c as int + 32) as char else c
  }

  function ToUpper(c: char): char
  {
    if IsLower(c) then (c as int - 32) as char else c
  }

  /** Python `s.lower()` on ASCII letters. */
  function Lower(s: string): (r: string)
    ensures |r| == |s|
  {
    if |s| == 0 then "" else [ToLower(s[0])] + Lower(s[1..])
  }

  /** Each character of `s.lower()` is the lower-cased character of `s`. */
  lemma {:induction false} LowerAt(s: string, i: nat)
    requires i < |s|
    ensures Lower(s)[i] == ToLower(s[i])
  {
    if i > 0 {
      LowerAt(s[1..], i - 1);
    }
  }

  predicate IsCased(c: char) { IsUpper(c) || IsLower(c) }

  /** One character of a title-cased text, given whether the character
      before it is a letter. */
  function TitleChar(c: char, afterLetter: bool): char
  {
    if !IsCased(c) then c else if afterLetter then ToLower(c) else ToUpper(c)
  }

  /** Python `s.title()` scanning left to right: a letter is upper-cased when
      the character before it is not a letter, lower-cased otherwise. */
  function TitleFrom(s: string, afterLetter: bool): (r: string)
    ensures |r| == |s|
  {
    if |s| == 0 then ""
    else [TitleChar(s[0], afterLetter)] + TitleFrom(s[1..], IsCased(s[0]))
  }

  function Title(s: string): (r: string)
    ensures |r| == |s|
  {
    TitleFrom(s, false)
  }

  /** Each character of the title-cased text depends only on itself and on
      whether the character before it is a letter. */
  lemma {:induction false} TitleFromAt(s: string, afterLetter: bool, i: nat)
    requires i < |s|
    ensures TitleFrom(s, afterLetter)[i] == TitleChar(s[i], if i == 0 then afterLetter else IsCased(s[i - 1]))
  {
    if i > 0 {
      TitleFromAt(s[1..], IsCased(s[0]), i - 1);
    }
  }

  lemma TitleAt(s: string)
    ensures forall i :: 0 < i < |s| ==> Title(s)[i] == TitleChar(s[i], IsCased(s[i - 1]))
    ensures |s| > 0 ==> Title(s)[0] == TitleChar(s[0], false)
  {
    forall i | 0 <= i < |s| ensures TitleFrom(s, false)[i] == TitleChar(s[i], if i == 0 then false else IsCased(s[i - 1])) {
      TitleFromAt(s, false, i);
    }
  }

  /** Title-casing only changes case: lower-casing forgets the difference. */
  lemma {:induction false} TitleFromLower(s: string, afterLetter: bool)
    ensures Lower(TitleFrom(s, afterLetter)) == Lower(s)
  {
    if |s| > 0 {
      TitleFromLower(s[1..], IsCased(s[0]));
    }
  }

  /** Title-casing twice is title-casing once. */
  lemma {:induction false} TitleFromIdempotent(s: string, afterLetter: bool)
    ensures TitleFrom(TitleFrom(s, afterLetter), afterLetter) == TitleFrom(s, afterLetter)
  {
    if |s| > 0 {
      var t := TitleFrom(s, afterLetter);
      var cased := IsCased(s[0]);
      assert t[1..] == TitleFrom(s[1..], cased);
      assert IsCased(t[0]) == cased;
      TitleFromIdempotent(s[1..], cased);
    }
  }

  /** Python `s.replace(a, b)` for one-character `a` and `b`. */
  function ReplaceChar(s: string, a: char, b: char): (r: string)
    ensures |r| == |s|
    ensures forall i :: 0 <= i < |s| ==> r[i] == (if s[i] == a then b else s[i])
  {
    if |s| == 0 then "" else [if s[0] == a then b else s[0]] + ReplaceChar(s[1..], a, b)
  }

  // ---------------------------------------------------------------------
  // `str.strip()` with the ASCII whitespace characters.
  // ---------------------------------------------------------------------

  predicate IsSpace(c: char)
  {
    c == ' ' || c == '\t' || c == '\n' || c == '\r' || c == '\U{000B}' || c == '\U{000C}'
    || ('\U{001C}' <= c <= '\U{001F}')
  }

  predicate AllSpace(s: string)
  {
    forall i :: 0 <= i < |s| ==> IsSpace(s[i])
  }

  /** The eight spaces that indent the lines of a triple-quoted template. */
  const Indent := "        "

  /** The frame of such a template: a line break and the indentation. */
  const Edge := "\n" + Indent

  /** A triple-quoted template whose text starts on the line after the
      opening quotes, and whose closing quotes sit on an indented line of
      their own. */
  function Framed(text: string): string
  {
    Edge + text + Edge
  }

  lemma EdgeIsSpace()
    ensures AllSpace(Edge)
  {
    assert forall i :: 0 <= i < |Edge| ==> Edge[i] == '\n' || Edge[i] == ' ';
  }

  /** Python `s.lstrip()`: the suffix left after dropping leading whitespace. */
  function StripLeft(s: string): (r: string)
    ensures |r| <= |s| && r == s[|s| - |r|..]
    ensures AllSpace(s[..|s| - |r|])
    ensures |r| > 0 ==> !IsSpace(r[0])
  {
    if |s| > 0 && IsSpace(s[0]) then StripLeft(s[1..]) else s
  }

  /** Python `s.rstrip()`: the prefix left after dropping trailing whitespace. */
  function StripRight(s: string): (r: string)
    ensures |r| <= |s| && r == s[..|r|]
    ensures AllSpace(s[|r|..])
    ensures |r| > 0 ==> !IsSpace(r[|r| - 1])
  {
    if |s| > 0 && IsSpace(s[|s| - 1]) then StripRight(s[..|s| - 1]) else s
  }

  /** Python `s.strip()`. */
  function Strip(s: string): string
  {
    StripRight(StripLeft(s))
  }

  /** Stripping a text framed by whitespace on both sides gives the text back
      when the text itself neither starts nor ends with whitespace. */
  lemma {:induction false} StripFramed(lead: string, body: string, trail: string)
    requires AllSpace(lead) && AllSpace(trail)
    requires |body| > 0 && !IsSpace(body[0]) && !IsSpace(body[|body| - 1])
    ensures Strip(lead + body + trail) == body
  {
    StripLeftSpaces(lead, body + trail);
    assert lead + body + trail == lead + (body + trail);
    StripRightSpaces(body, trail);
  }

  lemma {:induction false} StripLeftSpaces(lead: string, rest: string)
    requires AllSpace(lead)
    requires |rest| > 0 && !IsSpace(rest[0])
    ensures StripLeft(lead + rest) == rest
  {
    if |lead| > 0 {
      assert (lead + rest)[1..] == lead[1..] + rest;
      StripLeftSpaces(lead[1..], rest);
    }
  }

  lemma {:induction false} StripRightSpaces(body: string, trail: string)
    requires AllSpace(trail)
    requires |body| > 0 && !IsSpace(body[|body| - 1])
    ensures StripRight(body + trail) == body
  {
    if |trail| > 0 {
      assert (body + trail)[..|body + trail| - 1] == body + trail[..|trail| - 1];
      StripRightSpaces(body, trail[..|trail| - 1]);
    }
  }
}
