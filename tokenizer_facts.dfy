/**
 * What one `readToken` call does, stated over the specification `Scan`:
 * which literal kinds and radixes it chooses, that its digit and word runs
 * are maximal, where it leaves the cursor, that it reads integer numerals
 * back to the numbers they were written from, and how the end of input
 * behaves.
 */
module TokenizerFacts {
  import opened Wrappers
  import opened Tokens
  import opened Lexical
  import opened GoTokenizer

  // ---------------------------------------------------------------------
  // End of input

  /** At or past the end, `readToken` yields `eof` without moving, so every later call yields `eof` again. */
  lemma EofForever(s: string, pos: nat)
    requires pos >= |s|
    ensures Scan(s, pos) == Scanned(Eof, NoValue, pos)
    ensures StepEnd(Scan(s, pos), pos) == pos
  {
  }

  /**
   * One step from a cursor inside the input never leaves it, and a token read
   * before the end consumes at least one character.
   */
  lemma ScanInBounds(s: string, pos: nat)
    requires pos <= |s|
    ensures StepEnd(Scan(s, pos), pos) <= |s|
    ensures pos < |s| && Scan(s, pos).Scanned? ==> pos < Scan(s, pos).end
    ensures pos < |s| ==> Scan(s, pos) == ScanAsWritten(s, pos)
  {
    if pos < |s| && !IsIdentifierStart(CharAt(s, pos)) && StartsNumber(s, pos) {
      NumberInBounds(s, pos);
    }
  }

  /** The number branch consumes at least one character and stays inside the input. */
  lemma NumberInBounds(s: string, pos: nat)
    requires StartsNumber(s, pos)
    ensures pos < StepEnd(ScanNumber(s, pos), pos) <= |s|
  {
    if Slice(s, pos, pos + 2) != "0x" {
      var d := RunEnd(s, pos, DigitsOf(10));
      var c := CharAt(s, d);
      if c == Some('.') || IsExponentMarker(c) {
        FloatInBounds(s, pos, d);
      }
    }
  }

  /** The float branch entered at `d` ends, or fails, after `d` and inside the input. */
  lemma FloatInBounds(s: string, pos: nat, d: nat)
    requires pos <= d < |s| && (s[d] == '.' || IsExponentMarker(CharAt(s, d)))
    ensures d < StepEnd(ScanFloat(s, pos, d), pos) <= |s|
  {
    var f := if s[d] == '.' then RunEnd(s, d + 1, DigitsOf(10)) else d;
    assert d <= f <= |s|;
    if IsExponentMarker(CharAt(s, f)) {
      assert IsSign(CharAt(s, f + 1)) ==> f + 1 < |s|;
    }
  }

  /**
   * As written, the end-of-input test is `pos > |s|`: at the end of the input
   * no production matches, so `readToken` returns `undefined`; and since no step
   * from inside the input moves past its end, `eof` is never produced.
   */
  lemma EofNeverProducedAsWritten(s: string, pos: nat)
    requires pos <= |s|
    ensures ScanAsWritten(s, |s|) == Unrecognized
    ensures !(ScanAsWritten(s, pos).Scanned? && ScanAsWritten(s, pos).kind == Eof)
    ensures StepEnd(ScanAsWritten(s, pos), pos) <= |s|
  {
    ScanInBounds(s, pos);
  }

  // ---------------------------------------------------------------------
  // Numbers

  /** A position that starts a number is scanned by the number branch. */
  lemma NumberDispatch(s: string, pos: nat)
    requires StartsNumber(s, pos)
    ensures pos < |s| && Scan(s, pos) == ScanNumber(s, pos)
  {
    assert !IsIdentifierStart(CharAt(s, pos));
  }

  /**
   * After "0x" the token is an `int_lit` whose value is the maximal hex-digit run
   * read in base 16, with the cursor just after the run; with no hex digit it is
   * an error at the offset after "0x". It is never a float.
   */
  lemma HexLiteral(s: string, pos: nat)
    requires Slice(s, pos, pos + 2) == "0x"
    ensures var h, e := pos + 2, RunEnd(s, pos + 2, DigitsOf(16));
      (e == h ==> Scan(s, pos) == Failed(MalformedHexLiteral, h)) &&
      (e > h ==> e <= |s| && Scan(s, pos) == Scanned(IntLit, IntValue(DigitsValue(s[h..e], 16)), e)) &&
      !(Scan(s, pos).Scanned? && Scan(s, pos).kind == FloatLit)
  {
    var h, e := pos + 2, RunEnd(s, pos + 2, DigitsOf(16));
    assert s[pos] == '0';
    assert Scan(s, pos) == ScanHex(s, pos);
    if e > h {
      assert forall i :: 0 <= i < e - h ==> IsDigitIn(CharAt(s, h + i), 16) && s[h..e][i] == s[h + i];
      ParseIntAllDigits(s[h..e], 16);
    }
  }

  /** For a run of digits, the radix is 8 exactly when the run starts with `0` and is longer than one digit. */
  lemma RadixChoice(decimals: string)
    requires forall i :: 0 <= i < |decimals| ==> IsDigit(Some(decimals[i]))
    ensures OctalOrDecimal(decimals) == 8 <==> |decimals| > 1 && decimals[0] == '0'
    ensures OctalOrDecimal(decimals) != 8 ==> OctalOrDecimal(decimals) == 10
  {
    if |decimals| > 1 {
      assert IsDigit(Some(decimals[1]));
    }
  }

  /**
   * A digit run not preceded by "0x" and not followed by `.`, `e` or `E` is an
   * `int_lit` ending just after the run. In base 10 its value is the whole run;
   * in base 8 (a leading `0` and more than one digit) it is the value of the
   * longest octal-digit prefix of the run, as `parseInt` reads it.
   */
  lemma IntLiteral(s: string, pos: nat)
    requires IsDigit(CharAt(s, pos)) && Slice(s, pos, pos + 2) != "0x"
    requires var c := CharAt(s, RunEnd(s, pos, DigitsOf(10))); c != Some('.') && !IsExponentMarker(c)
    ensures var d := RunEnd(s, pos, DigitsOf(10));
      var octal := s[pos] == '0' && d - pos > 1;
      var o := RunEnd(s, pos, DigitsOf(8));
      pos < d <= |s| && o <= d &&
      Scan(s, pos) == Scanned(IntLit, IntValue(
        if octal then DigitsValue(s[pos..o], 8) else DigitsValue(s[pos..d], 10)), d)
  {
    var d := RunEnd(s, pos, DigitsOf(10));
    NumberDispatch(s, pos);
    IntValueOfRun(s, pos, d);
  }

  /** Octal digits are decimal digits, so an octal run ends no later than the decimal run. */
  lemma {:induction false} OctalRunWithinDecimalRun(s: string, i: nat)
    ensures RunEnd(s, i, DigitsOf(8)) <= RunEnd(s, i, DigitsOf(10))
    decreases |s| - i
  {
    if IsDigitIn(CharAt(s, i), 8) {
      OctalRunWithinDecimalRun(s, i + 1);
    }
  }

  /** The value of the integer branch for the digit run `s[pos..d]`. */
  lemma IntValueOfRun(s: string, pos: nat, d: nat)
    requires pos < d <= |s| && IsDigit(CharAt(s, pos)) && d == RunEnd(s, pos, DigitsOf(10))
    ensures var octal := s[pos] == '0' && d - pos > 1;
      var o := RunEnd(s, pos, DigitsOf(8));
      o <= d &&
      ScanInt(s, pos, d) == Scanned(IntLit, IntValue(
        if octal then DigitsValue(s[pos..o], 8) else DigitsValue(s[pos..d], 10)), d)
  {
    OctalRunWithinDecimalRun(s, pos);
    var decimals := s[pos..d];
    assert forall i :: 0 <= i < |decimals| ==> IsDigit(CharAt(s, pos + i)) && decimals[i] == s[pos + i];
    RadixChoice(decimals);
    if OctalOrDecimal(decimals) == 10 {
      DecimalRunValue(decimals);
    } else {
      OctalRunValue(s, pos, d);
    }
  }

  /** In base 10 `parseInt` reads the whole digit run. */
  lemma DecimalRunValue(decimals: string)
    requires decimals != [] && forall i :: 0 <= i < |decimals| ==> IsDigit(Some(decimals[i]))
    ensures ParseInt(decimals, 10) == Some(DigitsValue(decimals, 10))
  {
    ParseIntAllDigits(decimals, 10);
  }

  /** In base 8 `parseInt` reads the octal run that starts the digit run `s[pos..d]`. */
  lemma OctalRunValue(s: string, pos: nat, d: nat)
    requires pos < d <= |s| && s[pos] == '0' && RunEnd(s, pos, DigitsOf(8)) <= d
    ensures ParseInt(s[pos..d], 8) == Some(DigitsValue(s[pos..RunEnd(s, pos, DigitsOf(8))], 8))
  {
    ParseIntOfSlice(s, pos, d, 8);
  }

  /**
   * A digit run followed by `.`, `e` or `E` (or a leading `.`) is never an
   * `int_lit`: it is a `float_lit` whose text is everything consumed, or an
   * error for an exponent without digits. A `.` is consumed with the digit run
   * after it, and the exponent is read from there: the token ends, or fails,
   * where `skipExponent` does from that offset.
   */
  lemma FloatLiteral(s: string, pos: nat)
    requires StartsNumber(s, pos) && Slice(s, pos, pos + 2) != "0x"
    requires var c := CharAt(s, RunEnd(s, pos, DigitsOf(10))); c == Some('.') || IsExponentMarker(c)
    ensures Scan(s, pos).Scanned? || Scan(s, pos).Failed?
    ensures Scan(s, pos).Scanned? ==>
      var e := Scan(s, pos).end;
      pos < e <= |s| && Scan(s, pos).kind == FloatLit && Scan(s, pos).value == FloatValue(s[pos..e])
    ensures Scan(s, pos).Failed? ==> Scan(s, pos).error == MissingExponentDigits
    ensures var d := RunEnd(s, pos, DigitsOf(10));
      var f := if CharAt(s, d) == Some('.') then RunEnd(s, d + 1, DigitsOf(10)) else d;
      (Scan(s, pos).Scanned? ==> ExponentEnd(s, f) == Success(Scan(s, pos).end)) &&
      (Scan(s, pos).Failed? ==> ExponentEnd(s, f) == Failure(Scan(s, pos).at))
  {
    var d := RunEnd(s, pos, DigitsOf(10));
    NumberDispatch(s, pos);
    assert Scan(s, pos) == ScanFloat(s, pos, d);
    ScanInBounds(s, pos);
  }

  /**
   * As written, the text handed to `parseFloat` for a `float_lit` is empty,
   * while the literal consumed at least one character.
   */
  lemma FloatTextEmptyAsWritten(s: string, pos: nat)
    requires Scan(s, pos).Scanned? && Scan(s, pos).kind == FloatLit
    ensures FloatTextAsWritten(s, pos) == [] != s[pos..Scan(s, pos).end]
  {
    ScanInBounds(s, pos);
  }

  // ---------------------------------------------------------------------
  // Words

  /**
   * A word token holds the maximal run of identifier characters at the cursor,
   * which is left just after it; its kind is `keyword` exactly when the word is
   * one of `KEYWORDS`, and `identifier` otherwise.
   */
  lemma WordToken(s: string, pos: nat)
    requires IsIdentifierStart(CharAt(s, pos))
    ensures var e := RunEnd(s, pos, IdentifierChars);
      pos < e <= |s| &&
      Scan(s, pos) == Scanned(if s[pos..e] in KEYWORDS then Keyword else Identifier, Text(s[pos..e]), e) &&
      (forall i :: 0 <= i < e - pos ==> IsIdentifierChar(Some(s[pos..e][i]))) &&
      !IsIdentifierChar(CharAt(s, e))
  {
    var e := RunEnd(s, pos, IdentifierChars);
    assert forall i :: 0 <= i < e - pos ==> IsIdentifierChar(CharAt(s, pos + i)) && s[pos..e][i] == s[pos + i];
  }

  /** As written, `readWord` throws on the first character of every word `readToken` dispatches to it. */
  lemma WordsThrowAsWritten(s: string, pos: nat)
    requires IsIdentifierStart(CharAt(s, pos))
    ensures ReadWordAsWritten(s, pos) == None
  {
  }

  /** A whole input made of identifier characters, starting with a letter, scans as one word token. */
  lemma WordRoundTrip(w: string)
    requires w != [] && IsIdentifierStart(Some(w[0]))
    requires forall i :: 0 <= i < |w| ==> IsIdentifierChar(Some(w[i]))
    ensures Scan(w, 0) == Scanned(if w in KEYWORDS then Keyword else Identifier, Text(w), |w|)
  {
    RunToEnd(w, 0, IdentifierChars);
    assert w[0..|w|] == w;
  }

  // ---------------------------------------------------------------------
  // Numerals read back

  /** The decimal numeral of `n` (no leading zero; "0" for zero) scans as the `int_lit` `n`. */
  lemma DecimalRoundTrip(n: nat)
    ensures var s := Numeral(n, 10);
      Scan(s, 0) == Scanned(IntLit, IntValue(n), |s|)
  {
    var s := Numeral(n, 10);
    assert IsDigit(CharAt(s, 0));
    if |s| >= 2 {
      assert IsDigit(Some(s[1]));
    }
    RunToEnd(s, 0, DigitsOf(10));
    assert s[0..|s|] == s;
    IntLiteral(s, 0);
    NumeralValue(n, 10);
  }

  /** `0` followed by the octal numeral of `n` scans as the `int_lit` `n`. */
  lemma OctalRoundTrip(n: nat)
    ensures var s := "0" + Numeral(n, 8);
      Scan(s, 0) == Scanned(IntLit, IntValue(n), |s|)
  {
    var d := Numeral(n, 8);
    var s := "0" + d;
    ZeroLedOctalRuns(d);
    assert s[0..|s|] == s;
    IntLiteral(s, 0);
    LeadingZero(d, 8);
    NumeralValue(n, 8);
  }

  /** Before a non-empty string of octal digits, a `0` starts decimal and octal runs that both span the input. */
  lemma ZeroLedOctalRuns(d: string)
    requires d != [] && forall i :: 0 <= i < |d| ==> IsDigitIn(Some(d[i]), 8)
    ensures var s := "0" + d;
      IsDigit(Some(s[1])) && RunEnd(s, 0, DigitsOf(10)) == |s| && RunEnd(s, 0, DigitsOf(8)) == |s|
  {
    var s := "0" + d;
    assert forall i :: 0 < i < |s| ==> s[i] == d[i - 1];
    RunToEnd(s, 0, DigitsOf(10));
    RunToEnd(s, 0, DigitsOf(8));
  }

  /** "0x" followed by the hexadecimal numeral of `n` scans as the `int_lit` `n`. */
  lemma HexRoundTrip(n: nat)
    ensures var s := "0x" + Numeral(n, 16);
      Scan(s, 0) == Scanned(IntLit, IntValue(n), |s|)
  {
    var d := Numeral(n, 16);
    var s := "0x" + d;
    assert forall i :: 2 <= i < |s| ==> s[i] == d[i - 2];
    RunToEnd(s, 2, DigitsOf(16));
    assert s[2..|s|] == d;
    HexLiteral(s, 0);
    NumeralValue(n, 16);
  }

  // ---------------------------------------------------------------------
  // Worked examples

  /** "0x1A" is the hexadecimal `int_lit` 26. */
  lemma HexExample()
    ensures Scan("0x1A", 0) == Scanned(IntLit, IntValue(26), 4)
  {
    HexLiteral("0x1A", 0);
  }

  /** "017" is the octal `int_lit` 15. */
  lemma OctalExample()
    ensures Scan("017", 0) == Scanned(IntLit, IntValue(15), 3)
  {
    assert Numeral(15, 8) == "17" by {
      assert Numeral(1, 8) == "1";
    }
    assert "0" + "17" == "017";
    OctalRoundTrip(15);
  }

  /** A lone "0" is the decimal `int_lit` 0. */
  lemma ZeroExample()
    ensures Scan("0", 0) == Scanned(IntLit, IntValue(0), 1)
  {
    DecimalRoundTrip(0);
  }

  /** "08" is one `int_lit` of two digits whose value is 0: `parseInt` reads only the octal prefix "0". */
  lemma OctalPrefixExample()
    ensures Scan("08", 0) == Scanned(IntLit, IntValue(0), 2)
  {
    var s := "08";
    assert Slice(s, 0, 2) == "08";
    assert RunEnd(s, 0, DigitsOf(10)) == 2 by {
      RunToEnd(s, 0, DigitsOf(10));
    }
    assert RunEnd(s, 1, DigitsOf(8)) == 1;
    assert RunEnd(s, 0, DigitsOf(8)) == 1;
    assert s[0..1] == "0";
    IntLiteral(s, 0);
  }

  /** "3.14" is a `float_lit` whose text is the whole literal. */
  lemma FractionExample()
    ensures Scan("3.14", 0) == Scanned(FloatLit, FloatValue("3.14"), 4)
  {
    var s := "3.14";
    assert Slice(s, 0, 2) == "3.";
    assert RunEnd(s, 1, DigitsOf(10)) == 1;
    assert RunEnd(s, 0, DigitsOf(10)) == 1;
    assert RunEnd(s, 2, DigitsOf(10)) == 4 by {
      RunToEnd(s, 2, DigitsOf(10));
    }
    assert ExponentEnd(s, 4) == Success(4);
    assert s[0..4] == s;
    assert Scan(s, 0) == ScanFloat(s, 0, 1);
  }

  /** "1e10" is a `float_lit` whose text is the whole literal. */
  lemma ExponentExample()
    ensures Scan("1e10", 0) == Scanned(FloatLit, FloatValue("1e10"), 4)
  {
    var s := "1e10";
    assert RunEnd(s, 0, DigitsOf(10)) == 1 by {
      assert RunEnd(s, 1, DigitsOf(10)) == 1;
    }
    RunToEnd(s, 2, DigitsOf(10));
    assert s[0..4] == s;
    NumberDispatch(s, 0);
  }

  /** "1e" is an error: the exponent has no digits, reported at the end of the input. */
  lemma MissingExponentExample()
    ensures Scan("1e", 0) == Failed(MissingExponentDigits, 2)
  {
    var t := "1e";
    assert Slice(t, 0, 2) == "1e";
    assert RunEnd(t, 1, DigitsOf(10)) == 1;
    assert RunEnd(t, 0, DigitsOf(10)) == 1;
    assert Scan(t, 0) == ScanFloat(t, 0, 1);
  }

  /** "foo" is an identifier. */
  lemma IdentifierExample()
    ensures Scan("foo", 0) == Scanned(Identifier, Text("foo"), 3)
  {
    WordRoundTrip("foo");
  }

  /** "for" is a keyword. */
  lemma KeywordExample()
    ensures Scan("for", 0) == Scanned(Keyword, Text("for"), 3)
  {
    WordRoundTrip("for");
  }

  /** A tokenizer over "0x1A" yields the `int_lit` 26, then `eof` at the end of the input, then `eof` again. */
  method TokenizerExample()
  {
    var t := new Tokenizer("0x1A");
    var first := t.ReadToken();
    HexExample();
    assert first == Produced(Token(IntLit, IntValue(26), Span(0, 4)));
    var second := t.ReadToken();
    assert second == Produced(Token(Eof, NoValue, Span(4, 4)));
    var third := t.ReadToken();
    assert third == second;
  }
}
