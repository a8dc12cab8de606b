/**
 * Character-level building blocks of the tokenizer: JavaScript's `charAt`,
 * `slice` and `parseInt` on the inputs the tokenizer gives them, the
 * character classes it tests, and maximal runs of a class.
 */
module Lexical {
  import opened Wrappers

  /** `charAt(i)`: the character at offset `i`; `None` is the empty string returned past the end. */
  function CharAt(s: string, i: nat): (c: Option<char>)
    ensures c.Some? <==> i < |s|
    ensures c.Some? ==> c.value == s[i]
  {
    if i < |s| then Some(s[i]) else None
  }

  /** `slice(from, to)` with non-negative bounds: both bounds are clamped to the length. */
  function Slice(s: string, from: nat, to: nat): (r: string)
    ensures from <= to <= |s| ==> r == s[from..to]
    ensures to <= from ==> r == []
    ensures |s| <= from ==> r == []
    ensures from < |s| < to ==> r == s[from..]
  {
    var f := if from < |s| then from else |s|;
    var t := if to < |s| then to else |s|;
    if f < t then s[f..t] else []
  }

  // ---------------------------------------------------------------------
  // Character classes

  /** Stand-in for `unicode.isDigit`: the ASCII decimal digits. */
  predicate IsDigit(c: Option<char>)
  {
    c.Some? && '0' <= c.value <= '9'
  }

  predicate IsHexDigit(c: Option<char>)
  {
    c.Some? && ('0' <= c.value <= '9' || 'a' <= c.value <= 'f' || 'A' <= c.value <= 'F')
  }

  /** Stand-in for `unicode.isLetter`: the ASCII letters. */
  predicate IsUnicodeLetter(c: Option<char>)
  {
    c.Some? && ('a' <= c.value <= 'z' || 'A' <= c.value <= 'Z')
  }

  /** `isLetter`: a letter or the underscore. */
  predicate IsLetter(c: Option<char>)
    ensures IsLetter(c) ==> c.Some? && !IsDigit(c)
  {
    IsUnicodeLetter(c) || c == Some('_')
  }

  /** `isIdentifierStart`. */
  predicate IsIdentifierStart(c: Option<char>)
    ensures IsIdentifierStart(c) ==> IsIdentifierChar(c) && !IsDigit(c)
  {
    IsLetter(c)
  }

  /**
   * `isIdentifierChar`: a letter or a digit. The source calls `unicode.isDigit()`
   * without an argument; the digit test is modelled on the character, as intended.
   */
  predicate IsIdentifierChar(c: Option<char>)
    ensures IsIdentifierChar(c) ==> c.Some?
  {
    IsLetter(c) || IsDigit(c)
  }

  /** The weight of a hexadecimal digit character (0 for any other character). */
  function DigitValue(c: char): (d: nat)
    ensures '0' <= c <= '9' ==> d == c as nat - '0' as nat
    ensures 'a' <= c <= 'f' ==> d == c as nat - 'a' as nat + 10
    ensures 'A' <= c <= 'F' ==> d == c as nat - 'A' as nat + 10
    ensures d < 16
  {
    if '0' <= c <= '9' then c as nat - '0' as nat
    else if 'a' <= c <= 'f' then c as nat - 'a' as nat + 10
    else if 'A' <= c <= 'F' then c as nat - 'A' as nat + 10
    else 0
  }

  /** The radixes the tokenizer hands to `parseInt`. */
  predicate IsRadix(base: nat)
  {
    base == 8 || base == 10 || base == 16
  }

  /**
   * A digit that `parseInt(_, base)` accepts: a hexadecimal digit whose weight is
   * below the base, spelt out as character ranges for the tokenizer's radixes.
   */
  predicate IsDigitIn(c: Option<char>, base: nat)
  {
    if base == 8 then c.Some? && '0' <= c.value <= '7'
    else if base == 10 then IsDigit(c)
    else if base == 16 then IsHexDigit(c)
    else IsHexDigit(c) && DigitValue(c.value) < base
  }

  /** The classes whose maximal runs the tokenizer scans. */
  datatype CharClass = DigitsOf(base: nat) | IdentifierChars

  predicate InClass(c: Option<char>, k: CharClass)
  {
    match k
    case DigitsOf(base) => IsDigitIn(c, base)
    case IdentifierChars => IsIdentifierChar(c)
  }

  /**
   * The end of the maximal run of characters of class `k` that starts at `i`:
   * every character before it belongs to the class, the one at it does not
   * (or the input has ended there).
   */
  function RunEnd(s: string, i: nat, k: CharClass): (j: nat)
    ensures i <= j
    ensures j == i || j <= |s|
    ensures forall m :: i <= m < j ==> InClass(CharAt(s, m), k)
    ensures !InClass(CharAt(s, j), k)
    decreases |s| - i
  {
    if InClass(CharAt(s, i), k) then RunEnd(s, i + 1, k) else i
  }

  /** A run over a suffix made entirely of class members reaches the end of the input. */
  lemma RunToEnd(s: string, i: nat, k: CharClass)
    requires i <= |s|
    requires forall m :: i <= m < |s| ==> InClass(Some(s[m]), k)
    ensures RunEnd(s, i, k) == |s|
  {
  }

  /** A run inside the slice `s[a..b]` ends where the run in `s` ends, cut off at `b`. */
  lemma {:induction false} RunInSlice(s: string, a: nat, b: nat, i: nat, k: CharClass)
    requires a + i <= b <= |s|
    ensures var e := RunEnd(s, a + i, k);
      RunEnd(s[a..b], i, k) + a == (if e < b then e else b)
    decreases b - (a + i)
  {
    var t := s[a..b];
    if a + i < b {
      assert CharAt(t, i) == CharAt(s, a + i);
      if InClass(CharAt(s, a + i), k) {
        RunInSlice(s, a, b, i + 1, k);
      }
    } else {
      assert CharAt(t, i) == None;
    }
  }

  // ---------------------------------------------------------------------
  // parseInt

  /** `b` to the power `n`. */
  function Pow(b: nat, n: nat): nat
  {
    if n == 0 then 1 else b * Pow(b, n - 1)
  }

  /** Appending a digit below the base to a number below `p` gives a number below `base * p`. */
  lemma ShiftedDigitBound(init: nat, w: nat, base: nat, p: nat)
    requires init < p && w < base
    ensures init * base + w < base * p
  {
    var k := p - 1 - init;
    assert base * p == init * base + base + k * base by {
      assert p == init + 1 + k;
    }
  }

  /** Every character of `d` is a digit whose weight is below `base`. */
  predicate DigitsBelow(d: string, base: nat)
  {
    forall i :: 0 <= i < |d| ==> DigitValue(d[i]) < base
  }

  /** The digits of a prefix are digits of the whole. */
  lemma PrefixDigitsBelow(d: string, base: nat)
    requires d != [] && DigitsBelow(d, base)
    ensures DigitsBelow(d[..|d| - 1], base) && DigitValue(d[|d| - 1]) < base
  {
    assert forall i :: 0 <= i < |d| - 1 ==> d[..|d| - 1][i] == d[i];
  }

  /**
   * The number written by the digit string `d`, most significant digit first.
   * When every digit is below the base, `n` digits write a number below `base^n`.
   */
  function DigitsValue(d: string, base: nat): (v: nat)
    ensures DigitsBelow(d, base) ==> v < Pow(base, |d|)
  {
    if d == [] then 0
    else
      var init, w := DigitsValue(d[..|d| - 1], base), DigitValue(d[|d| - 1]);
      if DigitsBelow(d, base) then
        PrefixDigitsBelow(d, base);
        ShiftedDigitBound(init, w, base, Pow(base, |d| - 1));
        init * base + w
      else
        init * base + w
  }

  /**
   * `parseInt(s, base)` on a string without leading blanks or sign: the value of
   * the longest prefix of digits valid in `base`; `None` (NaN) when there is none.
   */
  function ParseInt(s: string, base: nat): (n: Option<nat>)
    requires IsRadix(base)
    ensures n.None? <==> !IsDigitIn(CharAt(s, 0), base)
  {
    var p := RunEnd(s, 0, DigitsOf(base));
    if p == 0 then None else Some(DigitsValue(s[..p], base))
  }

  /** When the string starts with a digit of `base`, `parseInt` reads exactly the run of such digits. */
  lemma ParseIntReadsRun(s: string, base: nat)
    requires IsRadix(base) && IsDigitIn(CharAt(s, 0), base)
    ensures var p := RunEnd(s, 0, DigitsOf(base));
      0 < p <= |s| && ParseInt(s, base) == Some(DigitsValue(s[..p], base))
  {
  }

  /** A prefix of a slice is a slice. */
  lemma SlicePrefix(s: string, a: nat, c: nat, b: nat)
    requires a <= c <= b <= |s|
    ensures s[a..b][..c - a] == s[a..c]
  {
  }

  /**
   * `parseInt` over the slice `s[a..b]`, which starts with a digit of `base`, reads
   * the run of such digits at `a`, cut off at `b`.
   */
  lemma ParseIntOfSlice(s: string, a: nat, b: nat, base: nat)
    requires IsRadix(base) && a < b <= |s| && IsDigitIn(Some(s[a]), base)
    ensures var e := RunEnd(s, a, DigitsOf(base));
      var c := if e < b then e else b;
      a < c && ParseInt(s[a..b], base) == Some(DigitsValue(s[a..c], base))
  {
    var e := RunEnd(s, a, DigitsOf(base));
    var c := if e < b then e else b;
    RunInSlice(s, a, b, 0, DigitsOf(base));
    assert CharAt(s[a..b], 0) == Some(s[a]);
    ParseIntReadsRun(s[a..b], base);
    SlicePrefix(s, a, c, b);
  }

  /** When every character is a digit of `base`, `parseInt` reads the whole string. */
  lemma ParseIntAllDigits(s: string, base: nat)
    requires IsRadix(base) && s != []
    requires forall i :: 0 <= i < |s| ==> IsDigitIn(Some(s[i]), base)
    ensures ParseInt(s, base) == Some(DigitsValue(s, base))
  {
    assert s[..|s|] == s;
  }

  /** A leading zero does not change the value of a digit string. */
  lemma {:induction false} LeadingZero(d: string, base: nat)
    ensures DigitsValue("0" + d, base) == DigitsValue(d, base)
  {
    if d != [] {
      var init := d[..|d| - 1];
      assert ("0" + d)[..|"0" + d| - 1] == "0" + init;
      LeadingZero(init, base);
    } else {
      assert ("0" + d)[..0] == [];
    }
  }

  // ---------------------------------------------------------------------
  // Numerals: the canonical digit strings that `parseInt` reads back

  function DigitChar(d: nat): (c: char)
    requires d < 16
    ensures DigitValue(c) == d
    ensures IsHexDigit(Some(c))
  {
    "0123456789abcdef"[d]
  }

  /** The numeral of `n` in `base`, lower-case digits, no leading zero. */
  function Numeral(n: nat, base: nat): (d: string)
    requires IsRadix(base)
    ensures d != []
    ensures forall i :: 0 <= i < |d| ==> IsDigitIn(Some(d[i]), base)
    ensures d[0] == '0' ==> n == 0 && d == "0"
    decreases n
  {
    if n < base then [DigitChar(n)] else Numeral(n / base, base) + [DigitChar(n % base)]
  }

  /** Reading a numeral back gives the number it was written from. */
  lemma {:induction false} NumeralValue(n: nat, base: nat)
    requires IsRadix(base)
    ensures DigitsValue(Numeral(n, base), base) == n
    decreases n
  {
    var d := Numeral(n, base);
    if n < base {
      assert d[..0] == [];
    } else {
      var init := Numeral(n / base, base);
      assert d[..|d| - 1] == init;
      NumeralValue(n / base, base);
    }
  }
}
