/**
 * The Go tokenizer: a cursor over an in-memory source string that reads one
 * token per `ReadToken` call. Only the productions the tokenizer actually
 * implements are modelled: words (identifiers and keywords), hexadecimal,
 * octal and decimal integers, floating-point literals, and end of input.
 *
 * The pure functions `Scan`, `ScanWord`, `ScanNumber` and `ExponentEnd`
 * describe one token read in terms of positions in the input; the class
 * `Tokenizer` is the stateful scanner, and each of its methods is proved to
 * move its cursor and to return what those functions say.
 */
module GoTokenizer {
  import opened Wrappers
  import opened Tokens
  import opened Lexical

  /** The reserved words of Go. */
  const KEYWORDS: seq<string> := [
    "break", "case", "chan", "const", "continue", "default", "defer", "else",
    "fallthrough", "for", "func", "go", "goto", "if", "import", "interface",
    "map", "package", "range", "return", "select", "struct", "switch", "type",
    "var"]

  /** `isKeyword`, the membership predicate built from `KEYWORDS`. */
  predicate IsKeyword(w: string)
    ensures IsKeyword(w) ==> w != [] && forall i :: 0 <= i < |w| ==> 'a' <= w[i] <= 'z'
  {
    KeywordsAreLowerCase();
    w in KEYWORDS
  }

  /** A non-empty word of lower-case letters. */
  predicate IsLowerCaseWord(w: string)
  {
    w != [] && forall i :: 0 <= i < |w| ==> 'a' <= w[i] <= 'z'
  }

  /** Every reserved word is written in lower-case letters. */
  lemma KeywordsAreLowerCase()
    ensures forall k :: k in KEYWORDS ==> IsLowerCaseWord(k)
  {
    forall j | 0 <= j < |KEYWORDS|
      ensures IsLowerCaseWord(KEYWORDS[j])
    {
    }
  }

  datatype ErrorKind =
    | MalformedHexLiteral     // "0x" not followed by a hexadecimal digit
    | MissingExponentDigits   // an exponent marker not followed by a digit

  /** What `raise` throws: the failure and the line and column of the cursor. */
  datatype LexError = LexError(kind: ErrorKind, line: nat, col: int)

  /**
   * What one `readToken` call yields: a token, `undefined` when no production
   * matches the current character, or a thrown error.
   */
  datatype Lexed = Produced(token: Token) | Undefined | Raised(error: LexError)

  /** One scan step in terms of positions: the token and where it ends, no token, or the failure and where it was raised. */
  datatype Step = Scanned(kind: Kind, value: Value, end: nat) | Unrecognized | Failed(error: ErrorKind, at: nat)

  /** Where the cursor stands after a step that started at `pos`. */
  function StepEnd(st: Step, pos: nat): nat
  {
    match st
    case Scanned(_, _, end) => end
    case Unrecognized => pos
    case Failed(_, at) => at
  }

  predicate IsExponentMarker(c: Option<char>)
  {
    c == Some('e') || c == Some('E')
  }

  predicate IsSign(c: Option<char>)
  {
    c == Some('-') || c == Some('+')
  }

  /**
   * `skipExponent` from offset `i`: no movement without an `e`/`E`; otherwise the
   * marker, at most one sign and a non-empty maximal digit run. Fails at the
   * offset after the optional sign when no digit is there.
   */
  function ExponentEnd(s: string, i: nat): (r: Result<nat, nat>)
    ensures !IsExponentMarker(CharAt(s, i)) ==> r == Success(i)
    ensures IsExponentMarker(CharAt(s, i)) ==>
      var j := if IsSign(CharAt(s, i + 1)) then i + 2 else i + 1;
      (r.Failure? <==> !IsDigit(CharAt(s, j))) &&
      (r.Failure? ==> r.error == j) &&
      (r.Success? ==> j < r.value <= |s| && !IsDigit(CharAt(s, r.value)) &&
                      forall m :: j <= m < r.value ==> IsDigit(CharAt(s, m)))
  {
    if !IsExponentMarker(CharAt(s, i)) then Success(i)
    else
      var j := if IsSign(CharAt(s, i + 1)) then i + 2 else i + 1;
      var k := RunEnd(s, j, DigitsOf(10));
      if k == j then Failure(j) else Success(k)
  }

  /** `readWordToken` at `pos`: the maximal identifier-character run, classified by `isKeyword`. */
  function ScanWord(s: string, pos: nat): (r: Step)
    requires IsIdentifierStart(CharAt(s, pos))
    ensures r.Scanned? && pos < r.end <= |s|
    ensures r.kind == Keyword || r.kind == Identifier
  {
    var e := RunEnd(s, pos, IdentifierChars);
    var w := s[pos..e];
    Scanned(if IsKeyword(w) then Keyword else Identifier, Text(w), e)
  }

  /** The dispatch test of `readToken` for numbers: a digit, or `.` followed by a digit. */
  predicate StartsNumber(s: string, pos: nat)
  {
    IsDigit(CharAt(s, pos)) || (CharAt(s, pos) == Some('.') && IsDigit(CharAt(s, pos + 1)))
  }

  /** The radix of an integer digit run: octal when it starts with `0` and has a second digit. */
  function OctalOrDecimal(decimals: string): (base: nat)
    ensures base == 8 || base == 10
    ensures base == 8 <==> |decimals| > 1 && decimals[0] == '0' && IsDigit(Some(decimals[1]))
  {
    if |decimals| > 1 && decimals[0] == '0' && IsDigit(Some(decimals[1])) then 8 else 10
  }

  /** The hexadecimal branch of `readNumberToken`: "0x" and a non-empty maximal hex-digit run. */
  function ScanHex(s: string, pos: nat): (r: Step)
    ensures r.Scanned? || r.Failed?
    ensures r.Failed? ==> r.error == MalformedHexLiteral && r.at == pos + 2
    ensures r.Scanned? ==> r.kind == IntLit && pos + 2 < r.end
  {
    var h := pos + 2;
    var e := RunEnd(s, h, DigitsOf(16));
    if e == h then Failed(MalformedHexLiteral, h)
    else Scanned(IntLit, IntValue(ParseInt(s[h..e], 16).value), e)
  }

  /**
   * The floating-point branch of `readNumberToken`, entered with the cursor at
   * `d`, just after the digit run begun at `pos`, on a `.`, `e` or `E`.
   */
  function ScanFloat(s: string, pos: nat, d: nat): (r: Step)
    requires pos <= d < |s|
    ensures r.Scanned? || r.Failed?
    ensures r.Failed? ==> r.error == MissingExponentDigits
    ensures r.Scanned? ==> r.kind == FloatLit && d <= r.end <= |s| && r.value == FloatValue(s[pos..r.end])
  {
    var f := if s[d] == '.' then RunEnd(s, d + 1, DigitsOf(10)) else d;
    match ExponentEnd(s, f)
    case Failure(at) => Failed(MissingExponentDigits, at)
    case Success(x) => Scanned(FloatLit, FloatValue(s[pos..x]), x)
  }

  /** The integer branch of `readNumberToken`: the digit run `s[pos..d]` read in base 8 or 10. */
  function ScanInt(s: string, pos: nat, d: nat): (r: Step)
    requires pos < d <= |s| && IsDigit(CharAt(s, pos))
    ensures r.Scanned? && r.kind == IntLit && r.end == d
  {
    var decimals := s[pos..d];
    Scanned(IntLit, IntValue(ParseInt(decimals, OctalOrDecimal(decimals)).value), d)
  }

  /** `readNumberToken` at `pos`. */
  function ScanNumber(s: string, pos: nat): (r: Step)
    requires StartsNumber(s, pos)
    ensures r.Scanned? || r.Failed?
    ensures r.Scanned? ==> r.kind == IntLit || r.kind == FloatLit
  {
    if Slice(s, pos, pos + 2) == "0x" then ScanHex(s, pos)
    else
      var d := RunEnd(s, pos, DigitsOf(10));
      if CharAt(s, d) == Some('.') || IsExponentMarker(CharAt(s, d)) then ScanFloat(s, pos, d)
      else ScanInt(s, pos, d)
  }

  /** The character dispatch of `readToken`, after its end-of-input test. */
  function Dispatch(s: string, pos: nat): (r: Step)
    ensures r.Unrecognized? <==> !IsIdentifierStart(CharAt(s, pos)) && !StartsNumber(s, pos)
    ensures r.Scanned? ==> r.kind != Eof
  {
    if IsIdentifierStart(CharAt(s, pos)) then ScanWord(s, pos)
    else if StartsNumber(s, pos) then ScanNumber(s, pos)
    else Unrecognized
  }

  /** `readToken` at `pos`, with the end-of-input test `pos >= |s|` (see `ScanAsWritten`). */
  function Scan(s: string, pos: nat): (r: Step)
    ensures r.Scanned? && r.kind == Eof <==> pos >= |s|
    ensures r.Unrecognized? <==> pos < |s| && !IsIdentifierStart(CharAt(s, pos)) && !StartsNumber(s, pos)
  {
    if pos >= |s| then Scanned(Eof, NoValue, pos) else Dispatch(s, pos)
  }

  /** `readToken` exactly as written: its end-of-input test is `pos > |s|`. */
  function ScanAsWritten(s: string, pos: nat): (r: Step)
    ensures r.Scanned? && r.kind == Eof <==> pos > |s|
  {
    if pos > |s| then Scanned(Eof, NoValue, pos) else Dispatch(s, pos)
  }

  /**
   * The text `readNumberToken` passes to `parseFloat`, as written:
   * `slice(_tok.start, this._cur)`, where `_cur` is always "" and so converts
   * to the end index 0.
   */
  function FloatTextAsWritten(s: string, start: nat): (text: string)
    ensures text == []
  {
    Slice(s, start, 0)
  }

  /**
   * `readWord` with its loop body as written: on an identifier character it
   * appends the character and then calls `char.next()`, a method strings do not
   * have, so the call throws a TypeError (`None`); otherwise it returns the
   * empty word. The loop test is the corrected `IsIdentifierChar`; the source's
   * `isIdentifierChar` calls `unicode.isDigit()` without an argument. The two
   * tests agree on letters, and `readToken` calls `readWord` only on a letter.
   */
  function ReadWordAsWritten(s: string, pos: nat): (r: Option<string>)
    ensures r.Some? ==> r.value == Slice(s, pos, RunEnd(s, pos, IdentifierChars))
  {
    if IsIdentifierChar(CharAt(s, pos)) then None else Some("")
  }

  /**
   * The scanner. `input` is the source text, `curPos` the cursor, `curLine`
   * and `lineStart` the line bookkeeping used for error locations, and
   * `tokStart` the start offset of the token being read.
   */
  class Tokenizer {
    const input: string
    var curPos: nat
    var curLine: nat
    var lineStart: nat
    var tokStart: nat

    constructor (input: string)
      ensures this.input == input
      ensures curPos == 0 && curLine == 1 && lineStart == 0 && tokStart == 0
    {
      this.input := input;
      curPos := 0;
      curLine := 1;
      lineStart := 0;
      tokStart := 0;
    }

    /** `cur`: the character under the cursor. */
    function Cur(): (c: Option<char>)
      reads this
      ensures c.Some? <==> curPos < |input|
      ensures c.Some? ==> c.value == input[curPos]
    {
      CharAt(input, curPos)
    }

    /** `peek`: the character after the cursor. */
    function Peek(): (c: Option<char>)
      reads this
      ensures c.Some? <==> curPos + 1 < |input|
      ensures c.Some? ==> c.value == input[curPos + 1]
    {
      CharAt(input, curPos + 1)
    }

    /** `skip`: advance by one, whatever is under the cursor. */
    method Skip()
      modifies this`curPos
      ensures curPos == old(curPos) + 1
    {
      curPos := curPos + 1;
    }

    /** `next`: advance by one and return the new current character. */
    method Next() returns (c: Option<char>)
      modifies this`curPos
      ensures curPos == old(curPos) + 1
      ensures c == CharAt(input, curPos)
    {
      curPos := curPos + 1;
      c := Cur();
    }

    /** The result of a step begun at `start`, with errors located at line `curLine`. */
    function Lift(st: Step, start: nat): Lexed
      reads this
    {
      match st
      case Scanned(kind, value, end) => Produced(Token(kind, value, Span(start, end)))
      case Unrecognized => Undefined
      case Failed(kind, at) => Raised(ErrorAt(kind, at))
    }

    /** The error `raise` builds with the cursor at `at`: the current line and the column `at - lineStart`. */
    function ErrorAt(kind: ErrorKind, at: nat): LexError
      reads this
    {
      LexError(kind, curLine, at - lineStart)
    }

    /** `raise`: the error, located at the cursor's line and column. */
    method Raise(kind: ErrorKind) returns (e: LexError)
      ensures e == ErrorAt(kind, curPos)
      ensures e.line == curLine && e.col == curPos - lineStart
    {
      e := ErrorAt(kind, curPos);
    }

    /** `skipDecimals`: move past the maximal digit run at the cursor. */
    method SkipDecimals()
      modifies this`curPos
      ensures curPos == RunEnd(input, old(curPos), DigitsOf(10))
    {
      var c := Cur();
      while IsDigit(c)
        invariant old(curPos) <= curPos
        invariant c == Cur()
        invariant RunEnd(input, curPos, DigitsOf(10)) == RunEnd(input, old(curPos), DigitsOf(10))
        decreases |input| - curPos
      {
        c := Next();
      }
    }

    /** `readDecimals`: the maximal digit run at the cursor, which is left just after it. */
    method ReadDecimals() returns (decimals: string)
      modifies this`curPos
      ensures curPos == RunEnd(input, old(curPos), DigitsOf(10))
      ensures decimals == Slice(input, old(curPos), curPos)
    {
      var startPos := curPos;
      SkipDecimals();
      decimals := Slice(input, startPos, curPos);
    }

    /** `skipExponent`. */
    method SkipExponent() returns (r: Outcome<LexError>)
      modifies this`curPos
      ensures ExponentEnd(input, old(curPos)) == Success(curPos) ==> r == Pass
      ensures ExponentEnd(input, old(curPos)) == Failure(curPos) ==>
                r == Fail(ErrorAt(MissingExponentDigits, curPos))
      ensures curPos == match ExponentEnd(input, old(curPos))
                        case Success(e) => e
                        case Failure(at) => at
    {
      var c := Cur();
      if c != Some('e') && c != Some('E') {
        return Pass;
      }
      c := Next();
      if c == Some('-') || c == Some('+') {
        c := Next();
      }
      var startPos := curPos;
      SkipDecimals();
      if startPos == curPos {
        var e := Raise(MissingExponentDigits);
        r := Fail(e);
        return;
      }
      r := Pass;
    }

    /** `finishToken`: a fresh token from `tokStart` to the cursor; the cursor does not move. */
    method FinishToken(kind: Kind, value: Value) returns (r: Lexed)
      ensures r == Produced(Token(kind, value, Span(tokStart, curPos)))
    {
      // `skipSpace`, called here by the source, has an empty body.
      r := Produced(Token(kind, value, Span(tokStart, curPos)));
    }

    /** The hexadecimal branch of `readNumberToken`, entered on "0x". */
    method ReadHexInt() returns (r: Lexed)
      requires Slice(input, curPos, curPos + 2) == "0x"
      modifies this`curPos
      ensures r == Lift(ScanHex(input, old(curPos)), tokStart)
      ensures curPos == StepEnd(ScanHex(input, old(curPos)), old(curPos))
    {
      curPos := curPos + 1;
      Skip();
      // The source matches /[0-9a-fA-F]+/ sticky at the cursor.
      var e := RunEnd(input, curPos, DigitsOf(16));
      if e == curPos {
        // The source builds this error message with `this._cur()`, a call on a
        // string that throws a TypeError instead; either way the scan ends here.
        var error := Raise(MalformedHexLiteral);
        r := Raised(error);
        return;
      }
      var decimals := input[curPos..e];
      curPos := curPos + |decimals|;
      r := FinishToken(IntLit, IntValue(ParseInt(decimals, 16).value));
    }

    /**
     * The floating-point branch of `readNumberToken` (the `'.'`, `'e'` and `'E'`
     * cases of its switch), entered after the digit run of the token begun at `tokStart`.
     */
    method ReadFloatRest() returns (r: Lexed)
      requires tokStart <= curPos < |input|
      requires input[curPos] == '.' || input[curPos] == 'e' || input[curPos] == 'E'
      modifies this`curPos
      ensures r == Lift(ScanFloat(input, tokStart, old(curPos)), tokStart)
      ensures curPos == StepEnd(ScanFloat(input, tokStart, old(curPos)), old(curPos))
    {
      if Cur() == Some('.') {
        Skip();
        SkipDecimals();
        // falls through to the exponent cases
      }
      var exponent := SkipExponent();
      if exponent.Fail? {
        return Raised(exponent.error);
      }
      // The source slices up to `this._cur`, which is always "" (see FloatTextAsWritten).
      var text := Slice(input, tokStart, curPos);
      r := FinishToken(FloatLit, FloatValue(text));
    }

    /** `readNumberToken`. */
    method ReadNumberToken() returns (r: Lexed)
      requires StartsNumber(input, curPos)
      requires tokStart == curPos  // `readToken` has just recorded the token start
      modifies this`curPos
      ensures r == Lift(ScanNumber(input, old(curPos)), tokStart)
      ensures curPos == StepEnd(ScanNumber(input, old(curPos)), old(curPos))
    {
      if Slice(input, curPos, curPos + 2) == "0x" {
        r := ReadHexInt();
        return;
      }
      var decimals := ReadDecimals();
      var c := Cur();
      if c == Some('.') || c == Some('e') || c == Some('E') {
        r := ReadFloatRest();
        return;
      }
      // octal or decimal integer
      r := FinishToken(IntLit, IntValue(ParseInt(decimals, OctalOrDecimal(decimals)).value));
    }

    /**
     * `readWord`: the maximal run of identifier characters at the cursor.
     * The source calls `char.next()` on the character string; the model
     * advances the cursor, as intended (see ReadWordAsWritten).
     */
    method ReadWord() returns (word: string)
      modifies this`curPos
      ensures curPos == RunEnd(input, old(curPos), IdentifierChars)
      ensures word == Slice(input, old(curPos), curPos)
    {
      word := "";
      var c := CharAt(input, curPos);
      while IsIdentifierChar(c)
        invariant old(curPos) <= curPos
        invariant curPos == old(curPos) || curPos <= |input|
        invariant c == Cur()
        invariant word == Slice(input, old(curPos), curPos)
        invariant RunEnd(input, curPos, IdentifierChars) == RunEnd(input, old(curPos), IdentifierChars)
        decreases |input| - curPos
      {
        word := word + [c.value];
        c := Next();
      }
    }

    /** `readWordToken`: a keyword when the word is in `KEYWORDS`, otherwise an identifier. */
    method ReadWordToken() returns (r: Lexed)
      requires IsIdentifierStart(Cur())
      modifies this`curPos
      ensures r == Lift(ScanWord(input, old(curPos)), tokStart)
      ensures curPos == RunEnd(input, old(curPos), IdentifierChars)
    {
      var word := ReadWord();
      var kind := if IsKeyword(word) then Keyword else Identifier;
      r := FinishToken(kind, Text(word));
    }

    /** `readToken`. */
    method ReadToken() returns (r: Lexed)
      modifies this`curPos, this`tokStart
      ensures tokStart == old(curPos)
      ensures r == Lift(Scan(input, old(curPos)), old(curPos))
      ensures curPos == StepEnd(Scan(input, old(curPos)), old(curPos))
    {
      tokStart := curPos;
      // The source tests `_curPos > _inputLength` (see ScanAsWritten).
      if curPos >= |input| {
        r := FinishToken(Eof, NoValue);
        return;
      }
      var c := CharAt(input, curPos);
      if IsIdentifierStart(c) {
        r := ReadWordToken();
        return;
      }
      if IsDigit(c) || (c == Some('.') && IsDigit(Peek())) {
        r := ReadNumberToken();
        return;
      }
      // The character switch of the source is empty: the call returns `undefined`.
      r := Undefined;
    }
  }
}
