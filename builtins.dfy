/**
 * The Python built-ins the command-line tool relies on, with the meaning
 * CPython gives them on `str`, `int` and `list` values: repetition of a
 * string, left-justified formatting, `"  ".join`, `str.replace`, slicing
 * from a start index, `int(text)` and `str(number)`.
 */
module Builtins {
  import opened Wrappers

  function Max(a: int, b: int): int { if a < b then b else a }

  function Min(a: int, b: int): int { if a < b then a else b }

  /** `c * n` for a one-character string `c`: n copies of `c`, none when n <= 0. */
  function Repeat(c: char, n: int): (r: string)
    ensures |r| == Max(n, 0)
    ensures forall k :: 0 <= k < |r| ==> r[k] == c
  {
    if n <= 0 then "" else [c] + Repeat(c, n - 1)
  }

  /**
   * `f"{s:<{w}}"`: `s` left-justified in a field of `w` characters, padded on
   * the right with spaces; a string longer than the field is kept whole.
   */
  function LeftJustify(s: string, w: nat): (r: string)
    ensures |r| == Max(|s|, w)
    ensures r[..|s|] == s
    ensures forall k :: |s| <= k < |r| ==> r[k] == ' '
  {
    s + Repeat(' ', w - |s|)
  }

  /** `sum(xs)` */
  function Sum(xs: seq<nat>): nat
  {
    if xs == [] then 0 else xs[0] + Sum(xs[1..])
  }

  /** The number of characters in all of `parts` together. */
  function TotalLength(parts: seq<string>): nat
  {
    if parts == [] then 0 else |parts[0]| + TotalLength(parts[1..])
  }

  /** When the i-th string is exactly ws[i] long, the strings hold Sum(ws) characters. */
  lemma {:induction false} TotalLengthOfWidths(parts: seq<string>, ws: seq<nat>)
    requires |parts| == |ws|
    requires forall i :: 0 <= i < |parts| ==> |parts[i]| == ws[i]
    ensures TotalLength(parts) == Sum(ws)
  {
    if parts != [] {
      TotalLengthOfWidths(parts[1..], ws[1..]);
    }
  }

  /** The separator the tool puts between the cells of a table line. */
  const Gap := "  "

  /**
   * `"  ".join(parts)`: the parts in order with two spaces between
   * neighbours, so one separator fewer than there are parts.
   */
  function JoinCells(parts: seq<string>): (r: string)
    ensures parts == [] ==> r == ""
    ensures parts != [] ==> |r| == TotalLength(parts) + 2 * (|parts| - 1)
    ensures parts != [] ==> r[..|parts[0]|] == parts[0]
  {
    if parts == [] then ""
    else if |parts| == 1 then parts[0]
    else parts[0] + Gap + JoinCells(parts[1..])
  }

  /** Appending a part to a non-empty join adds the separator and the part. */
  lemma {:induction false} JoinCellsAppend(parts: seq<string>, last: string)
    requires parts != []
    ensures JoinCells(parts + [last]) == JoinCells(parts) + Gap + last
  {
    if |parts| == 1 {
      assert (parts + [last])[1..] == [last];
    } else {
      assert (parts + [last])[1..] == parts[1..] + [last];
      JoinCellsAppend(parts[1..], last);
    }
  }

  /** Python's normalisation of the start index of `xs[i:]` for a list of `len` items. */
  function SliceStart(i: int, len: nat): (r: nat)
    ensures r <= len
    ensures i >= 0 ==> r == Min(i, len)
    ensures i < 0 ==> r == Max(len + i, 0)
  {
    if i < 0 then (if len + i < 0 then 0 else len + i)
    else if i < len then i
    else len
  }

  /** `xs[i:]` */
  function SliceFrom<T>(xs: seq<T>, i: int): seq<T>
  {
    xs[SliceStart(i, |xs|)..]
  }

  /** `pattern` occurs in `s` starting at index `i`. */
  predicate OccursAt(s: string, pattern: string, i: nat)
  {
    i + |pattern| <= |s| && s[i..i + |pattern|] == pattern
  }

  /**
   * `s.replace(target, replacement)`: the occurrences of `target` found
   * scanning from the left, without overlap, each replaced; an empty target
   * puts the replacement before every character and once more at the end.
   */
  function Replace(s: string, target: string, replacement: string): string
    decreases |s|
  {
    if target == [] then
      (if s == [] then replacement else replacement + [s[0]] + Replace(s[1..], target, replacement))
    else if |s| < |target| then s
    else if s[..|target|] == target then replacement + Replace(s[|target|..], target, replacement)
    else [s[0]] + Replace(s[1..], target, replacement)
  }

  /** Replacing a string by itself gives back the original, the empty target included. */
  lemma {:induction false} ReplaceBySelf(s: string, target: string)
    ensures Replace(s, target, target) == s
    decreases |s|
  {
    if target == [] {
      if s != [] {
        ReplaceBySelf(s[1..], target);
        assert s == [s[0]] + s[1..];
      }
    } else if |s| < |target| {
    } else if s[..|target|] == target {
      ReplaceBySelf(s[|target|..], target);
      assert s == s[..|target|] + s[|target|..];
    } else {
      ReplaceBySelf(s[1..], target);
      assert s == [s[0]] + s[1..];
    }
  }

  /** A non-empty target that does not occur leaves the string unchanged. */
  lemma {:induction false} ReplaceWithoutOccurrence(s: string, target: string, replacement: string)
    requires target != []
    requires forall i :: 0 <= i <= |s| ==> !OccursAt(s, target, i)
    ensures Replace(s, target, replacement) == s
    decreases |s|
  {
    if |s| >= |target| {
      assert !OccursAt(s, target, 0);
      forall i | 0 <= i <= |s[1..]|
        ensures !OccursAt(s[1..], target, i)
      {
        assert !OccursAt(s, target, i + 1);
        if i + |target| <= |s[1..]| {
          assert s[1..][i..i + |target|] == s[i + 1..i + 1 + |target|];
        }
      }
      ReplaceWithoutOccurrence(s[1..], target, replacement);
      assert s == [s[0]] + s[1..];
    }
  }

  // ---------------------------------------------------------------------
  // int(text) and str(number), in base 10

  /**
   * The characters `int()` skips around a number: the ASCII space and
   * `\t` to `\r`, and the non-ASCII characters `str.isspace` accepts
   * (U+001C to U+001F count as space for `str.isspace` but not for `int()`).
   */
  predicate IsSpace(c: char)
  {
    ('\t' <= c <= '\r') || c == ' ' || c == '\U{85}' || c == '\U{A0}'
    || c == '\U{1680}' || ('\U{2000}' <= c <= '\U{200A}') || c == '\U{2028}' || c == '\U{2029}'
    || c == '\U{202F}' || c == '\U{205F}' || c == '\U{3000}'
  }

  predicate IsDigit(c: char) { '0' <= c <= '9' }

  /** `s.strip()` for the characters `int()` skips. */
  function Strip(s: string): (r: string)
    ensures |r| <= |s|
    ensures r != [] ==> !IsSpace(r[0]) && !IsSpace(r[|r| - 1])
    decreases |s|
  {
    if s == [] then s
    else if IsSpace(s[0]) then Strip(s[1..])
    else if IsSpace(s[|s| - 1]) then Strip(s[..|s| - 1])
    else s
  }

  /** r is s with a run of a characters removed before it and only spaces removed after it. */
  predicate Trimmed(s: string, a: nat, r: string)
  {
    && a + |r| <= |s|
    && r == s[a..a + |r|]
    && (forall k :: 0 <= k < a ==> IsSpace(s[k]))
    && (forall k :: a + |r| <= k < |s| ==> IsSpace(s[k]))
  }

  /** A leading space dropped before stripping the rest lies outside the result. */
  lemma TrimmedAfterLeadingSpace(s: string, a: nat, r: string)
    requires s != [] && IsSpace(s[0]) && Trimmed(s[1..], a, r)
    ensures Trimmed(s, a + 1, r)
  {
    assert s[1..][a..a + |r|] == s[a + 1..a + 1 + |r|];
    forall k | 0 <= k < a + 1
      ensures IsSpace(s[k])
    {
      if k > 0 {
        assert s[k] == s[1..][k - 1];
      }
    }
    forall k | a + 1 + |r| <= k < |s|
      ensures IsSpace(s[k])
    {
      assert s[k] == s[1..][k - 1];
    }
  }

  /** A trailing space dropped before stripping the rest lies outside the result. */
  lemma TrimmedBeforeTrailingSpace(s: string, a: nat, r: string)
    requires s != [] && IsSpace(s[|s| - 1]) && Trimmed(s[..|s| - 1], a, r)
    ensures Trimmed(s, a, r)
  {
    assert s[..|s| - 1][a..a + |r|] == s[a..a + |r|];
  }

  /**
   * `strip()` removes surrounding whitespace and nothing else: the result
   * is a slice of the input with only spaces on either side of it.
   */
  lemma {:induction false} StripTrims(s: string)
    ensures exists a: nat :: Trimmed(s, a, Strip(s))
    decreases |s|
  {
    var r := Strip(s);
    if s == [] {
      assert Trimmed(s, 0, r);
    } else if IsSpace(s[0]) {
      StripTrims(s[1..]);
      var a: nat :| Trimmed(s[1..], a, r);
      TrimmedAfterLeadingSpace(s, a, r);
    } else if IsSpace(s[|s| - 1]) {
      StripTrims(s[..|s| - 1]);
      var a: nat :| Trimmed(s[..|s| - 1], a, r);
      TrimmedBeforeTrailingSpace(s, a, r);
    } else {
      assert Trimmed(s, 0, r);
    }
  }

  /**
   * The text of a base-10 integer after its sign: digits, where single
   * underscores may separate two digits.
   */
  predicate WellFormedDigits(s: string)
  {
    && s != []
    && IsDigit(s[0]) && IsDigit(s[|s| - 1])
    && (forall i :: 0 <= i < |s| ==> IsDigit(s[i]) || s[i] == '_')
    && (forall i :: 0 <= i < |s| - 1 ==> s[i] == '_' ==> s[i + 1] != '_')
  }

  function DropUnderscores(s: string): (r: string)
    requires forall i :: 0 <= i < |s| ==> IsDigit(s[i]) || s[i] == '_'
    ensures forall i :: 0 <= i < |r| ==> IsDigit(r[i])
  {
    if s == [] then s
    else if s[0] == '_' then DropUnderscores(s[1..])
    else [s[0]] + DropUnderscores(s[1..])
  }

  function DigitValue(c: char): nat
    requires IsDigit(c)
  {
    c as int - '0' as int
  }

  /** The value of a string of decimal digits, most significant first. */
  function DigitsValue(ds: string): nat
    requires forall i :: 0 <= i < |ds| ==> IsDigit(ds[i])
  {
    if ds == [] then 0
    else DigitsValue(ds[..|ds| - 1]) * 10 + DigitValue(ds[|ds| - 1])
  }

  /** The most digits `int()` reads from a string (Python 3.11 and later, by default). */
  const MaxStrDigits := 4300

  /**
   * The value of the text after the sign, or None where Python raises
   * ValueError: malformed digits, or more than MaxStrDigits of them
   * (underscores do not count, leading zeros do).
   */
  function ParseDigits(magnitude: string): Option<nat>
  {
    if !WellFormedDigits(magnitude) then None
    else
      var digits := DropUnderscores(magnitude);
      if |digits| > MaxStrDigits then None else Some(DigitsValue(digits))
  }

  /** `int(text)`, or None where Python raises ValueError. */
  function ParseInt(text: string): Option<int>
  {
    var t := Strip(text);
    if t != [] && (t[0] == '+' || t[0] == '-') then
      var m := ParseDigits(t[1..]);
      if m.None? then None
      else
        var v: int := m.value;
        Some(if t[0] == '-' then -v else v)
    else
      var m := ParseDigits(t);
      if m.None? then None else Some(m.value)
  }

  /** The digit character for 0 <= d < 10. */
  function DigitChar(d: nat): (c: char)
    requires d < 10
    ensures IsDigit(c) && DigitValue(c) == d
  {
    (d + '0' as int) as char
  }

  /** `str(n)` for a natural number: its decimal digits, no leading zero. */
  function ShowNat(n: nat): (r: string)
    ensures r != []
    ensures forall i :: 0 <= i < |r| ==> IsDigit(r[i])
  {
    if n < 10 then [DigitChar(n)] else ShowNat(n / 10) + [DigitChar(n % 10)]
  }

  /** `str(n)` for an integer, with a minus sign when it is negative. */
  function Show(n: int): string
  {
    if n < 0 then "-" + ShowNat(-n) else ShowNat(n)
  }

  lemma {:induction false} DigitsValueOfShowNat(n: nat)
    ensures DigitsValue(ShowNat(n)) == n
  {
    var s := ShowNat(n);
    if n >= 10 {
      DigitsValueOfShowNat(n / 10);
      assert s[..|s| - 1] == ShowNat(n / 10);
    }
  }

  lemma {:induction false} DropUnderscoresOfDigits(s: string)
    requires forall i :: 0 <= i < |s| ==> IsDigit(s[i])
    ensures DropUnderscores(s) == s
  {
    if s != [] {
      DropUnderscoresOfDigits(s[1..]);
      assert s == [s[0]] + s[1..];
    }
  }

  /** A string of digits is read back as the number it spells. */
  lemma ParseDigitsOfShowNat(m: nat)
    requires |ShowNat(m)| <= MaxStrDigits
    ensures ParseDigits(ShowNat(m)) == Some(m)
  {
    var digits := ShowNat(m);
    DigitsValueOfShowNat(m);
    DropUnderscoresOfDigits(digits);
  }

  lemma StripWithoutSpaces(s: string)
    requires s != [] && !IsSpace(s[0]) && !IsSpace(s[|s| - 1])
    ensures Strip(s) == s
  {
  }

  /** `str(d)` of a single digit is that digit. */
  lemma ShowDigit(d: nat)
    requires d < 10
    ensures Show(d) == [DigitChar(d)]
  {
  }

  /**
   * `int(str(n)) == n` for every integer n whose digits `str()` itself
   * will print (Python refuses to convert more than MaxStrDigits digits
   * either way).
   */
  lemma ParseShow(n: int)
    requires |ShowNat(if n < 0 then -n else n)| <= MaxStrDigits
    ensures ParseInt(Show(n)) == Some(n)
  {
    var s := Show(n);
    if n < 0 {
      var digits := ShowNat(-n);
      ParseDigitsOfShowNat(-n);
      assert s == ['-'] + digits;
      assert s[1..] == digits;
      assert !IsSpace(s[|s| - 1]) by { assert s[|s| - 1] == digits[|digits| - 1]; }
      StripWithoutSpaces(s);
    } else {
      ParseDigitsOfShowNat(n);
      StripWithoutSpaces(s);
    }
  }

  /** A number of more than MaxStrDigits digits is refused, however well formed. */
  lemma ParseRejectsLongNumbers(digits: string)
    requires forall i :: 0 <= i < |digits| ==> IsDigit(digits[i])
    requires |digits| > MaxStrDigits
    ensures ParseInt(digits) == None
  {
    StripWithoutSpaces(digits);
    DropUnderscoresOfDigits(digits);
  }

  /**
   * A few readings of `int()`: digits, a sign, surrounding spaces and an
   * underscore are accepted; letters and a decimal point are rejected.
   */
  lemma ParseExamples()
    ensures ParseInt("3") == Some(3)
    ensures ParseInt("-2") == Some(-2)
    ensures ParseInt("10") == Some(10)
    ensures ParseInt("0") == Some(0)
    ensures ParseInt(" 1_0 ") == Some(10)
    ensures ParseInt("abc") == None
    ensures ParseInt("1.5") == None
  {
    ParseDigit(3);
    ParseDigit(0);
    ParseNegativeTwo();
    ParseTen();
    ParseSpacedUnderscore();
    ParseLetters();
    ParseDecimalPoint();
  }

  lemma ParseDigit(d: nat)
    requires d < 10
    ensures ParseInt([DigitChar(d)]) == Some(d)
  {
    ShowDigit(d);
    ParseShow(d);
  }

  lemma ParseNegativeTwo()
    ensures ParseInt("-2") == Some(-2)
  {
    assert Show(-2) == "-2" by { ShowDigit(2); }
    ParseShow(-2);
  }

  lemma ParseTen()
    ensures ParseInt("10") == Some(10)
  {
    assert Show(10) == "10" by { assert ShowNat(10) == ShowNat(1) + [DigitChar(0)]; }
    ParseShow(10);
  }

  lemma ParseLetters()
    ensures ParseInt("abc") == None
  {
    StripWithoutSpaces("abc");
    assert !WellFormedDigits("abc");
  }

  lemma ParseSpacedUnderscore()
    ensures ParseInt(" 1_0 ") == Some(10)
  {
    var s := " 1_0 ";
    assert Strip(s) == Strip(s[1..]);
    assert s[1..][..|s[1..]| - 1] == "1_0";
    StripWithoutSpaces("1_0");
    assert WellFormedDigits("1_0");
    assert DropUnderscores("1_0") == "10" by {
      assert "1_0"[1..] == "_0";
      assert "_0"[1..] == "0";
    }
    assert DigitsValue("10") == 10 by { assert "10"[..1] == "1"; }
  }

  lemma ParseDecimalPoint()
    ensures ParseInt("1.5") == None
  {
    StripWithoutSpaces("1.5");
    assert !IsDigit("1.5"[1]);
  }
}
