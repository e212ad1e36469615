/** Text helpers shared by the input guard and the prompt templates:
    substring search (Python's `in` on strings) and the decimal rendering
    of a natural number (what an f-string does with `{len(text)}`). */
module Strings {

  /** `part` occurs in `text` starting at index `i`. */
  predicate OccursAt(text: string, part: string, i: int)
  {
    0 <= i && i + |part| <= |text| && text[i..i + |part|] == part
  }

  /** Python's `part in text` for strings: the empty string occurs in every
      text, and nothing longer than the text occurs in it. */
  predicate Contains(text: string, part: string): (found: bool)
    ensures part == [] ==> found
    ensures found ==> |part| <= |text|
  {
    assert part == [] ==> OccursAt(text, part, 0);
    exists i :: 0 <= i <= |text| - |part| && OccursAt(text, part, i)
  }

  predicate StartsWith(text: string, prefix: string)
  {
    |prefix| <= |text| && text[..|prefix|] == prefix
  }

  predicate EndsWith(text: string, suffix: string)
  {
    |suffix| <= |text| && text[|text| - |suffix|..] == suffix
  }

  /** Text put in front keeps a suffix a suffix. */
  lemma EndsWithAfter(head: string, text: string, suffix: string)
    requires EndsWith(text, suffix)
    ensures EndsWith(head + text, suffix)
  {
    assert (head + text)[|head + text| - |suffix|..] == text[|text| - |suffix|..];
  }

  /** A string contains its own prefix. */
  lemma ContainsPrefix(x: string, y: string)
    ensures Contains(x + y, x)
  {
    assert OccursAt(x + y, x, 0);
  }

  /** Putting text in front keeps an occurrence. */
  lemma ContainsAfter(x: string, y: string, part: string)
    requires Contains(y, part)
    ensures Contains(x + y, part)
  {
    var i :| 0 <= i <= |y| - |part| && OccursAt(y, part, i);
    assert (x + y)[|x| + i..|x| + i + |part|] == y[i..i + |part|];
    assert OccursAt(x + y, part, |x| + i);
  }

  /** If some character of `part` never appears in `text`, `part` does not occur in `text`. */
  lemma MissingCharExcludes(text: string, part: string, j: nat)
    requires j < |part| && part[j] !in text
    ensures !Contains(text, part)
  {
  }

  predicate IsDigit(c: char)
  {
    '0' <= c <= '9'
  }

  predicate AllDigits(s: string)
  {
    forall i :: 0 <= i < |s| ==> IsDigit(s[i])
  }

  function DigitChar(d: nat): (c: char)
    requires d < 10
    ensures IsDigit(c) && c as int - '0' as int == d
  {
    (d + '0' as int) as char
  }

  /** Decimal rendering of `n` without leading zeros. */
  function Decimal(n: nat): (s: string)
    ensures 1 <= |s| && AllDigits(s)
    ensures |s| > 1 ==> s[0] != '0'
  {
    if n < 10 then [DigitChar(n)] else Decimal(n / 10) + [DigitChar(n % 10)]
  }

  /** Reads a string of digits back as a number; the inverse of `Decimal`. */
  function ParseDecimal(s: string): nat
    requires AllDigits(s)
  {
    if s == [] then 0
    else ParseDecimal(s[..|s| - 1]) * 10 + (s[|s| - 1] as int - '0' as int)
  }

  /** Rendering a number in decimal loses nothing: parsing gives the number back. */
  lemma {:induction false} DecimalRoundTrip(n: nat)
    ensures ParseDecimal(Decimal(n)) == n
  {
    var s := Decimal(n);
    if n < 10 {
      assert s[..|s| - 1] == [];
    } else {
      assert s[..|s| - 1] == Decimal(n / 10);
      DecimalRoundTrip(n / 10);
    }
  }

  /** Different numbers have different decimal renderings. */
  lemma DecimalInjective(m: nat, n: nat)
    requires Decimal(m) == Decimal(n)
    ensures m == n
  {
    DecimalRoundTrip(m);
    DecimalRoundTrip(n);
  }
}
