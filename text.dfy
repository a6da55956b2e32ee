/** The handful of Python `str` operations the review tool relies on, over ASCII. */
module Text {
  import opened Wrappers

  /**
   * The ASCII characters `str.strip()` removes: space, tab, line feed, vertical tab,
   * form feed, carriage return, and the four separators `\x1c`-`\x1f`.
   */
  predicate IsSpace(c: char) {
    c == ' ' || '\t' <= c <= '\r' || '\U{1C}' <= c <= '\U{1F}'
  }

  predicate IsDigit(c: char) { '0' <= c <= '9' }

  predicate AllDigits(s: string) { forall i :: 0 <= i < |s| ==> IsDigit(s[i]) }

  function DigitValue(c: char): nat
    requires IsDigit(c)
  {
    c as int - '0' as int
  }

  function DigitChar(d: nat): (c: char)
    requires d < 10
    ensures IsDigit(c) && DigitValue(c) == d
  {
    ('0' as int + d) as char
  }

  /** The number a string of decimal digits denotes. */
  function DigitsValue(s: string): nat
    requires AllDigits(s)
  {
    if |s| == 0 then 0 else DigitsValue(s[..|s| - 1]) * 10 + DigitValue(s[|s| - 1])
  }

  function Pow10(k: nat): nat {
    if k == 0 then 1 else 10 * Pow10(k - 1)
  }

  /** `n` written in decimal, zero-padded on the left to exactly `width` digits. */
  function PadDigits(n: nat, width: nat): (r: string)
    requires n < Pow10(width)
    ensures |r| == width && AllDigits(r)
  {
    if width == 0 then "" else PadDigits(n / 10, width - 1) + [DigitChar(n % 10)]
  }

  /** Reading back a zero-padded numeral gives the number written. */
  lemma {:induction false} PadDigitsValue(n: nat, width: nat)
    requires n < Pow10(width)
    ensures DigitsValue(PadDigits(n, width)) == n
  {
    if width > 0 {
      var r := PadDigits(n, width);
      assert r[..width - 1] == PadDigits(n / 10, width - 1);
      PadDigitsValue(n / 10, width - 1);
    }
  }

  /** ASCII `str.lower()` of one character. */
  function LowerChar(c: char): char {
    if 'A' <= c <= 'Z' then (c as int + 32) as char else c
  }

  /** `str.lower()`, ASCII letters only. */
  function Lower(s: string): (r: string)
    ensures |r| == |s|
    ensures forall i :: 0 <= i < |s| ==> r[i] == LowerChar(s[i])
  {
    seq(|s|, i requires 0 <= i < |s| => LowerChar(s[i]))
  }

  /** A one-letter lower-case answer is matched by exactly that letter in either case. */
  lemma LowerIsLetter(s: string, c: char)
    requires 'a' <= c <= 'z'
    ensures Lower(s) == [c] <==> s == [c] || s == [(c as int - 32) as char]
  {
    if Lower(s) == [c] {
      assert |s| == 1 && LowerChar(s[0]) == c;
    }
    if s == [(c as int - 32) as char] {
      assert Lower(s)[0] == c;
    }
  }

  function TrimStart(s: string): (r: string)
    ensures |r| <= |s| && r == s[|s| - |r|..]
    ensures r == [] || !IsSpace(r[0])
    ensures forall i :: 0 <= i < |s| - |r| ==> IsSpace(s[i])
  {
    if |s| > 0 && IsSpace(s[0]) then TrimStart(s[1..]) else s
  }

  function TrimEnd(s: string): (r: string)
    ensures |r| <= |s| && r == s[..|r|]
    ensures r == [] || !IsSpace(r[|r| - 1])
    ensures forall i :: |r| <= i < |s| ==> IsSpace(s[i])
  {
    if |s| > 0 && IsSpace(s[|s| - 1]) then TrimEnd(s[..|s| - 1]) else s
  }

  /** Trimming the front to `t`, then the back of `t` to `r`, leaves a slice of `s` with only white space around it. */
  lemma StripWitness(s: string, t: string, r: string)
    requires |t| <= |s| && t == s[|s| - |t|..]
    requires forall i :: 0 <= i < |s| - |t| ==> IsSpace(s[i])
    requires |r| <= |t| && r == t[..|r|]
    requires forall i :: |r| <= i < |t| ==> IsSpace(t[i])
    ensures exists a, b ::
      0 <= a <= b <= |s| && r == s[a..b] && (forall i :: 0 <= i < a || b <= i < |s| ==> IsSpace(s[i]))
  {
    var a := |s| - |t|;
    var b := a + |r|;
    assert r == s[a..b];
    forall i | b <= i < |s|
      ensures IsSpace(s[i])
    {
      assert s[i] == t[i - a];
    }
  }

  /** `str.strip()`: white space removed from both ends. */
  function Strip(s: string): (r: string)
    ensures r == [] || (!IsSpace(r[0]) && !IsSpace(r[|r| - 1]))
  {
    TrimEnd(TrimStart(s))
  }

  /** `s.strip()` is the slice of `s` that only white space surrounds, with none left at its ends. */
  lemma StripSlice(s: string)
    ensures exists a, b ::
      0 <= a <= b <= |s| && Strip(s) == s[a..b] && (forall i :: 0 <= i < a || b <= i < |s| ==> IsSpace(s[i]))
  {
    StripWitness(s, TrimStart(s), Strip(s));
  }

  /** `s.strip()` is empty exactly when `s` holds nothing but white space. */
  lemma StripEmptyIff(s: string)
    ensures Strip(s) == [] <==> forall i :: 0 <= i < |s| ==> IsSpace(s[i])
  {
  }

  /** `s.split(sep)` for a one-character separator: never empty, empty fields kept. */
  function Split(s: string, sep: char): (parts: seq<string>)
    ensures |parts| >= 1
    ensures forall i :: 0 <= i < |parts| ==> sep !in parts[i]
  {
    if |s| == 0 then [""]
    else
      var rest := Split(s[1..], sep);
      if s[0] == sep then [""] + rest else [[s[0]] + rest[0]] + rest[1..]
  }

  /** `sep.join(parts)`. */
  function Join(parts: seq<string>, sep: string): string {
    if |parts| == 0 then ""
    else if |parts| == 1 then parts[0]
    else parts[0] + sep + Join(parts[1..], sep)
  }

  /** Splitting loses nothing: joining the fields back with the separator restores the text. */
  lemma {:induction false} SplitJoin(s: string, sep: char)
    ensures Join(Split(s, sep), [sep]) == s
  {
    if |s| > 0 {
      var rest := Split(s[1..], sep);
      SplitJoin(s[1..], sep);
      if s[0] == sep {
        assert Split(s, sep) == [""] + rest;
        assert ([""] + rest)[1..] == rest;
      } else {
        var parts := [[s[0]] + rest[0]] + rest[1..];
        if |rest| > 1 {
          assert parts[1..] == rest[1..];
          assert Join(rest, [sep]) == rest[0] + [sep] + Join(rest[1..], [sep]);
        }
      }
    }
  }

  /** `int(token)` for a token already stripped: an optional sign then at least one digit. */
  function ParseInt(token: string): (r: Option<int>)
    ensures r.Some? <==>
      ((|token| >= 1 && AllDigits(token)) || (|token| >= 2 && (token[0] == '-' || token[0] == '+') && AllDigits(token[1..])))
  {
    if |token| >= 2 && (token[0] == '-' || token[0] == '+') && AllDigits(token[1..]) then
      Some(if token[0] == '-' then 0 - (DigitsValue(token[1..]) as int) else DigitsValue(token[1..]) as int)
    else if |token| >= 1 && AllDigits(token) then
      Some(DigitsValue(token))
    else
      None
  }

  /** The value `int` reads: the digits' value, negated after a `-`. */
  lemma ParseIntValue(token: string)
    ensures |token| >= 1 && AllDigits(token) ==> ParseInt(token) == Some(DigitsValue(token))
    ensures |token| >= 2 && token[0] == '+' && AllDigits(token[1..]) ==> ParseInt(token) == Some(DigitsValue(token[1..]))
    ensures |token| >= 2 && token[0] == '-' && AllDigits(token[1..]) ==> ParseInt(token) == Some(0 - DigitsValue(token[1..]))
  {
  }

  /** Every non-negative number read back from its decimal form. */
  lemma ParseIntOfDigits(n: nat, width: nat)
    requires n < Pow10(width) && width >= 1
    ensures ParseInt(PadDigits(n, width)) == Some(n)
  {
    PadDigitsValue(n, width);
    var s := PadDigits(n, width);
    assert IsDigit(s[0]);
  }
}
