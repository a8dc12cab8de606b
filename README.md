# A verified model of the jsgoparser tokenizer and parser cursor

This project models the lexical front end of jsgoparser, a Go-source parser written in JavaScript, in Dafny. It has two layers:

- **The tokenizer** (`gotokenizer.js`). It is a cursor over an in-memory source string. Each `readToken` call reads one token: a word (identifier or keyword), a hexadecimal, octal or decimal integer literal, a floating-point literal, or end of input.
- **The parser cursor** (`goparser.js`). It buffers one current token, moves it with `next` and `accept`, and builds `Identifier`, `QualifiedIdentifier` and basic-literal nodes.

Files:

- `wrappers.dfy`: `Option`, `Result` and `Outcome`. These stand for JavaScript's `null`/`undefined` and for thrown errors.
- `tokens.dfy`: the token kinds, values, spans and tokens shared by both layers. Tokens are immutable values.
- `lexical.dfy`: the JavaScript built-ins the tokenizer relies on (`charAt`, `slice`, `parseInt`). It also holds the character classes, the maximal run of a class (`RunEnd`), and numerals with their read-back lemma.
- `gotokenizer.dfy`: two parts.
  - The specification functions `Scan`, `ScanWord`, `ScanNumber` (split into `ScanHex`, `ScanFloat` and `ScanInt`) and `ExponentEnd`. They describe one `readToken` call in terms of offsets.
  - The class `Tokenizer`, with the fields `curPos`, `curLine`, `lineStart` and `tokStart`. Its loops are in `SkipDecimals` and `ReadWord`. Every method is proved to return what the specification functions say and to leave the cursor where they say.
- `tokenizer_facts.dfy`: lemmas about `Scan`. They cover radix and kind selection, maximal runs, cursor positions, end of input, the read-back of numerals, and worked examples.
- `goparser.dfy`: the class `Parser` over an abstract token stream, and `MergeLoc`.

The tokenizer's cursor is an unbounded offset. `skip` and `next` never check for the end of the input, and `charAt` past the end yields the empty string, modelled as `None`. Errors that the source raises are returned as values carrying the line and column of the cursor (`LexError`). When no production matches, the source's empty `switch` returns `undefined`; the model returns `Undefined`.

The parser reads from a `seq<Token>` that stands for its tokenizer. Past the end of that sequence it reads `eof` tokens. This keeps the parser's properties independent of the tokenizer.

Where the model follows the intent of the code rather than its text:

- In `readToken`, the end-of-input test is corrected from `>` to `>=`.
- The `float_lit` value carries the literal's text. The source hands `parseFloat` a slice that is always empty.
- `readWord` advances the cursor where the source calls `char.next()`.
- `isIdentifierChar` applies the digit test to the character. The source calls `unicode.isDigit()` with no argument.

Each of these is marked by a comment in the Dafny. The first three are explained under "## Findings", where the code as written is modelled too.

## Model

| member | source | states |
|---|---|---|
| Lexical.CharAt | gotokenizer.js:117-119 | `charAt`: a character exactly when the offset is inside the input, and then the character at that offset |
| Lexical.Slice | gotokenizer.js:71 | `slice` with clamped bounds: the substring between in-range bounds, the rest of the input when only the end is past it, and empty when the end is not after the start or the start is past the input |
| Lexical.RunEnd | gotokenizer.js:137-142 | the end of a maximal run of one character class: every character before it belongs to the class, the one at it does not or the input ended |
| Lexical.RunToEnd | gotokenizer.js:74-75 | a suffix made only of class members is consumed to the end of the input, as the greedy sticky hex match is |
| Lexical.RunInSlice | gotokenizer.js:105 | a run inside a slice ends where the run in the whole input ends, cut at the slice's end; used to show that `parseInt` over the digit run stops at the octal prefix |
| Lexical.DigitValue | gotokenizer.js:81 | the weight of a hexadecimal digit, 0-9 for decimal digits and 10-15 for `a`-`f` and `A`-`F` |
| Lexical.IsLetter | gotokenizer.js:210-212 | `isLetter`: a letter or `_`; never a digit, and never the empty string past the end |
| Lexical.IsIdentifierStart | gotokenizer.js:202-204 | `isIdentifierStart`: every word start is also a word character, and no digit starts a word, so words and numbers are dispatched apart |
| Lexical.IsIdentifierChar | gotokenizer.js:206-208 | `isIdentifierChar` (with the digit test applied to the character): only an actual character qualifies, so a word always ends at the end of the input |
| Lexical.DigitsValue | gotokenizer.js:81 | the value `parseInt` computes from a digit string; `n` digits below the base write a number below `base^n` |
| Lexical.ParseInt | gotokenizer.js:105 | `parseInt(s, base)`: NaN (`None`) exactly when the first character is not a digit of the base |
| Lexical.ParseIntAllDigits | gotokenizer.js:81 | when every character is a digit of the base, `parseInt` reads the whole string |
| Lexical.LeadingZero | gotokenizer.js:101-105 | a leading `0` does not change the value of a digit string, so octal `0NNN` is worth `NNN` |
| Lexical.Numeral | gotokenizer.js:100-105 | the canonical numeral of a number in base 8, 10 or 16: non-empty, all digits of the base, no leading zero unless it is "0" |
| Lexical.NumeralValue | gotokenizer.js:100-105 | reading a numeral back gives the number it was written from |
| Lexical.DigitChar | gotokenizer.js:81 | the digit character for a weight below 16 has that weight and is a hex digit |
| GoTokenizer.ExponentEnd | gotokenizer.js:150-164 | no movement without `e`/`E`; otherwise the marker, at most one sign, and a non-empty maximal digit run; failure exactly when no digit follows, at the offset after the sign |
| GoTokenizer.IsKeyword | gotokenizer.js:17-21 | `isKeyword`: membership in `KEYWORDS`, every one of which is a non-empty word of lower-case letters |
| GoTokenizer.ScanWord | gotokenizer.js:166-170 | `readWordToken` at an identifier start: a token that consumes at least one character and stays inside the input, of kind keyword or identifier |
| GoTokenizer.ScanHex | gotokenizer.js:71-82 | the hexadecimal branch: an `int_lit` that ends after at least one hex digit, or the malformed-hex error right after "0x"; never anything else |
| GoTokenizer.ScanFloat | gotokenizer.js:86-97 | the `.`/`e`/`E` branch: a `float_lit` whose text is everything consumed, ending inside the input, or the missing-exponent error |
| GoTokenizer.ScanInt | gotokenizer.js:100-105 | the integer branch: an `int_lit` ending exactly after the digit run |
| GoTokenizer.ScanNumber | gotokenizer.js:68-106 | `readNumberToken`: an `int_lit`, a `float_lit` or an error, never `undefined` |
| GoTokenizer.Dispatch | gotokenizer.js:55-65 | the dispatch of `readToken`: `undefined` exactly when the character starts neither a word nor a number; never `eof` |
| GoTokenizer.Scan | gotokenizer.js:44-66 | `readToken` with the `>=` end test: `eof` exactly at or past the end of the input, `undefined` exactly on a character that starts no token |
| GoTokenizer.ScanAsWritten | gotokenizer.js:51-53 | `readToken` as written: `eof` exactly when the cursor is strictly past the end |
| GoTokenizer.FloatTextAsWritten | gotokenizer.js:96 | the text handed to `parseFloat` as written, `slice(_tok.start, this._cur)`: always empty |
| GoTokenizer.ReadWordAsWritten | gotokenizer.js:172-180 | `readWord` with its loop body as written (the loop test is the corrected one, which agrees on the letters `readToken` hands it): whenever it returns instead of throwing, its word is the (empty) identifier run at the cursor |
| GoTokenizer.OctalOrDecimal | gotokenizer.js:101-103 | the radix of an integer digit run is 8 or 10, and 8 exactly when the run starts with `0` followed by a second digit |
| GoTokenizer.Tokenizer.constructor | gotokenizer.js:29-42 | the input is stored, the cursor is at 0, the line is 1 and the line start is 0 |
| GoTokenizer.Tokenizer.Cur | gotokenizer.js:117-119 | `cur`: the character under the cursor, or none past the end; the cursor is not changed |
| GoTokenizer.Tokenizer.Peek | gotokenizer.js:121-123 | `peek`: the character after the cursor, or none past the end; the cursor is not changed |
| GoTokenizer.Tokenizer.Skip | gotokenizer.js:108-110 | `skip` advances the cursor by exactly one |
| GoTokenizer.Tokenizer.Next | gotokenizer.js:112-115 | `next` advances the cursor by exactly one and returns the character at the new position, or none past the end |
| GoTokenizer.Tokenizer.Raise | gotokenizer.js:125-135 | `raise` builds the error, used by both the hexadecimal and the exponent branch, located at the current line and at the column `curPos - lineStart` |
| GoTokenizer.Tokenizer.SkipDecimals | gotokenizer.js:137-142 | the cursor ends at the end of the maximal digit run that starts at the old cursor, so it never decreases |
| GoTokenizer.Tokenizer.ReadDecimals | gotokenizer.js:144-148 | the result is exactly the maximal digit run at the cursor, and the cursor is left on the first non-digit or at the end of input |
| GoTokenizer.Tokenizer.SkipExponent | gotokenizer.js:150-164 | the cursor moves as `ExponentEnd` says; the result is an error with the cursor's line and column exactly when `ExponentEnd` fails |
| GoTokenizer.Tokenizer.FinishToken | gotokenizer.js:182-198 | a fresh token with the given kind and value, spanning from the recorded start to the cursor; the cursor does not move |
| GoTokenizer.Tokenizer.ReadHexInt | gotokenizer.js:71-82 | the hexadecimal branch returns and moves exactly as `ScanHex` says |
| GoTokenizer.Tokenizer.ReadFloatRest | gotokenizer.js:84-98 | the `.`/`e`/`E` branch, with the `.` case falling through to the exponent, returns and moves exactly as `ScanFloat` says |
| GoTokenizer.Tokenizer.ReadNumberToken | gotokenizer.js:68-106 | the result and the new cursor are those of `ScanNumber` at the old cursor |
| GoTokenizer.Tokenizer.ReadWord | gotokenizer.js:172-180 | the word is the maximal run of identifier characters at the cursor, and the cursor ends just after it |
| GoTokenizer.Tokenizer.ReadWordToken | gotokenizer.js:166-170 | the result is the token `ScanWord` describes, keyword or identifier, and the cursor ends after the word |
| GoTokenizer.Tokenizer.ReadToken | gotokenizer.js:44-66 | the token start is recorded at the old cursor; the result and the new cursor are those of `Scan` at the old cursor |
| TokenizerFacts.EofForever | gotokenizer.js:51-53 | at or past the end, `readToken` yields `eof` and leaves the cursor where it was, so every later call yields `eof` again |
| TokenizerFacts.ScanInBounds | gotokenizer.js:44-106 | a step begun inside the input ends inside it, and a token read before the end consumes at least one character |
| TokenizerFacts.NumberInBounds | gotokenizer.js:68-106 | `readNumberToken` consumes at least one character, and ends or fails inside the input |
| TokenizerFacts.FloatInBounds | gotokenizer.js:86-97 | the `.`/`e`/`E` branch ends or fails after the character it was entered on and inside the input |
| TokenizerFacts.EofNeverProducedAsWritten | gotokenizer.js:51-66 | with the test `pos > length`, the call at the end of the input returns `undefined`, and no step from inside the input yields `eof` or moves past the end |
| TokenizerFacts.HexLiteral | gotokenizer.js:71-82 | after "0x": an `int_lit` whose value is the maximal hex run read in base 16, the cursor just after it; an error after "0x" when no hex digit follows; never a `float_lit` |
| TokenizerFacts.RadixChoice | gotokenizer.js:101-103 | for a digit run, the radix is 8 exactly when it starts with `0` and has more than one digit, else 10 |
| TokenizerFacts.IntLiteral | gotokenizer.js:84-105 | a digit run not after "0x" and not followed by `.`/`e`/`E` is an `int_lit` ending after the run; its value is the whole run in base 10, or the longest octal prefix in base 8 |
| TokenizerFacts.IntValueOfRun | gotokenizer.js:100-105 | the value of the integer branch for a digit run, in base 10 or as its octal prefix in base 8 |
| TokenizerFacts.DecimalRunValue | gotokenizer.js:105 | in base 10 `parseInt` reads the whole decimal run |
| TokenizerFacts.OctalRunValue | gotokenizer.js:100-105 | in base 8 `parseInt` over a digit run that starts with `0` reads the octal run at its start |
| TokenizerFacts.OctalRunWithinDecimalRun | gotokenizer.js:101-105 | an octal run never extends beyond the decimal run at the same offset |
| TokenizerFacts.FloatLiteral | gotokenizer.js:84-98 | a run followed by `.`, `e` or `E`, or a leading `.`, is never an `int_lit`: it is a `float_lit` whose text is everything consumed, or a missing-exponent error; a `.` is consumed with its digit run and the token ends, or fails, where the exponent scan from there does |
| TokenizerFacts.FloatTextEmptyAsWritten | gotokenizer.js:96 | as written, for every `float_lit` the text handed to `parseFloat` is empty while the consumed literal is not |
| TokenizerFacts.WordToken | gotokenizer.js:166-180 | a word token holds the maximal identifier-character run at the cursor, which is left after it; its kind is `keyword` exactly when the word is in `KEYWORDS` |
| TokenizerFacts.WordsThrowAsWritten | gotokenizer.js:172-180 | as written, `readWord` throws on the first character of every word `readToken` hands it |
| TokenizerFacts.WordRoundTrip | gotokenizer.js:17-21 | an input made of identifier characters and starting with a letter is one word token, a keyword exactly when it is in the 25-word list |
| TokenizerFacts.DecimalRoundTrip | gotokenizer.js:100-105 | the decimal numeral of any `n` scans as the `int_lit` `n` over the whole input |
| TokenizerFacts.OctalRoundTrip | gotokenizer.js:100-105 | `0` followed by the octal numeral of any `n` scans as the `int_lit` `n` |
| TokenizerFacts.HexRoundTrip | gotokenizer.js:71-82 | "0x" followed by the hexadecimal numeral of any `n` scans as the `int_lit` `n` |
| TokenizerFacts.HexExample | gotokenizer.js:71-82 | "0x1A" is the `int_lit` 26 |
| TokenizerFacts.OctalExample | gotokenizer.js:100-105 | "017" is the `int_lit` 15 |
| TokenizerFacts.ZeroExample | gotokenizer.js:101-103 | a lone "0" is the decimal `int_lit` 0 |
| TokenizerFacts.OctalPrefixExample | gotokenizer.js:105 | "08" is one two-digit `int_lit` with value 0 |
| TokenizerFacts.FractionExample | gotokenizer.js:88-97 | "3.14" is a `float_lit` spanning the whole literal |
| TokenizerFacts.ExponentExample | gotokenizer.js:150-164 | "1e10" is a `float_lit` spanning the whole literal |
| TokenizerFacts.MissingExponentExample | gotokenizer.js:155-163 | "1e" is a missing-exponent error at offset 2 |
| TokenizerFacts.IdentifierExample | gotokenizer.js:166-170 | "foo" is an identifier |
| TokenizerFacts.KeywordExample | gotokenizer.js:166-170 | "for" is a keyword |
| GoParser.Pull | goparser.js:53 | the tokens the tokenizer hands out, in order, then `eof` tokens |
| GoParser.MergeLoc | goparser.js:65-67 | `mergeLoc`: the merged span is well formed when the first span starts before the last ends, and it contains each span exactly when that span lies on its side of the other |
| GoParser.Parser.constructor | goparser.js:9-12 | exactly one token is read into the current slot |
| GoParser.Parser.ReadToken | goparser.js:53 | one call to the tokenizer yields the next token of the stream |
| GoParser.Parser.Next | goparser.js:52-54 | the current token is always replaced by the next one, and one token is consumed |
| GoParser.Parser.Accept | goparser.js:56-63 | on a matching kind, the current token is returned and replaced by the next one; otherwise nothing is returned and nothing moves |
| GoParser.Parser.ParseBasicLitNode | goparser.js:14-30 | the five literal kinds give a node with the same kind, value and location, consuming one token; any other kind gives `null` and consumes nothing |
| GoParser.Parser.ParseOperandNameNode | goparser.js:32-49 | `null` with nothing consumed unless the token is an identifier; an `Identifier` (one token); or a `QualifiedIdentifier` with package and name from the two identifiers and a merged span (three tokens); an error when no identifier follows "." |

## Left out

- Unicode classification. `unicode.isLetter` and `unicode.isDigit` belong to a foreign library. The model uses the ASCII letters and the digits `0`-`9`, so identifiers with non-ASCII letters or digits are not covered.
- The sticky `XRegExp` match in the hexadecimal branch. It is replaced by the maximal hex-digit run at the cursor (`RunEnd`).
- Floating-point values. `parseFloat` is not modelled: a `float_lit` carries its source text.
- `parseInt` precision. JavaScript numbers are doubles, so integers beyond 2^53 lose precision; the model's values are exact.
- The text of `raise` messages. Errors are values carrying their kind, line and column. In the hex branch the source throws a TypeError while building its message (`this._cur()` is called on a string); the model reports that case as `MalformedHexLiteral`.
- Location tracking. The tokenizer tests `this.trackLocations` but sets `_trackLocations`, so the line/column `startLoc` and `endLoc` are never written. The model's span holds the `start` and `end` offsets the tokenizer does record. The parser copies a token's `loc`, which the source's tokenizer never sets; in the model it is that span.
- The `eof` token's kind. The source passes the object `TOK_EOF` itself as the token type. The model gives the token the kind `Eof`.
- The single mutable token record `_tok`. In the source every token returned by `readToken` is the same object, so a token kept by `accept` is overwritten by the next read. The model's tokens are immutable values, so that aliasing is not modelled.
- Tokenizer errors seen from the parser. The parser's stream never fails, so propagating a tokenizer error through the parser is not modelled.
- The module wrappers (`define`/`require`) and the `options` bundle. `options.trackLocations || true` is always true and has no effect.
- `skipSpace`. Its body is empty in the source, so `finishToken` calling it changes nothing.
- Productions absent from the source: punctuation and operators, strings, runes, escapes, comments, whitespace, imaginary literals and semicolon insertion. The character `switch` in `readToken` is empty, so any other character yields `Undefined`.
- Uppercase "0X". Only lowercase "0x" is recognised, as in the source. "0X1A" is the `int_lit` 0 followed by a word.

## Findings

| source | as written | input that shows it | evidently intended | confidence | as-written member | corrected member |
|---|---|---|---|---|---|---|
| gotokenizer.js:51 | end of input is tested with `_curPos > _inputLength` | "1": after the `int_lit` the cursor is at offset 1 = length, no production matches and `readToken` returns `undefined`; no scan ever moves past the end, so `eof` is never returned | `_curPos >= _inputLength`, so that `eof` is returned at the end and on every later call | high; not executed; assumes the unicode library classifies the empty string as neither letter nor digit | TokenizerFacts.EofNeverProducedAsWritten | TokenizerFacts.EofForever |
| gotokenizer.js:96 | the float text is `slice(_tok.start, this._cur)`, and `_cur` is always "" | "3.14": the slice is `slice(0, "")`, the end converts to 0 and the text is "", so `parseFloat` gives NaN | `slice(_tok.start, _curPos)`, the literal's own text | high; not executed | TokenizerFacts.FloatTextEmptyAsWritten | TokenizerFacts.FloatLiteral |
| gotokenizer.js:177 | the loop of `readWord` calls `char.next()` on the one-character string | "foo": the first iteration appends "f" and then calls `"f".next()`, which is not a function, so a TypeError is thrown and no word token is ever produced | `this.next()`, advancing the cursor to the next character | high; not executed | TokenizerFacts.WordsThrowAsWritten | TokenizerFacts.WordToken |
