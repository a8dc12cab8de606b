/**
 * The parser's token cursor: one buffered current token over the tokens the
 * tokenizer hands out, `next` and `accept` to move it, and the two node
 * builders for basic literals and (qualified) operand names.
 *
 * The tokenizer is represented by the sequence of tokens it would produce:
 * `stream`, read from the front, with an `eof` token once it is used up.
 */
module GoParser {
  import opened Wrappers
  import opened Tokens

  /** The syntax nodes built here: `Identifier`, `QualifiedIdentifier` and a basic literal. */
  datatype Node =
    | BasicLitNode(kind: Kind, value: Value, loc: Span)
    | IdentifierNode(name: Value, loc: Span)
    | QualifiedIdentifierNode(package: Value, name: Value, loc: Span)

  /** A "." that is not followed by an identifier (the source then dereferences `null`). */
  datatype ParseError = ExpectedIdentifier(found: Token)

  /** The kinds `parseBasicLitNode` turns into a node. */
  predicate IsBasicLitKind(k: Kind)
  {
    k == IntLit || k == FloatLit || k == ImaginaryLit || k == RuneLit || k == StringLit
  }

  /** The `i`-th token read from the tokenizer (counting from 0): an `eof` token once the stream is used up. */
  function Pull(stream: seq<Token>, i: nat): (t: Token)
    ensures i < |stream| ==> t == stream[i]
    ensures i >= |stream| ==> t.kind == Eof && t.value == NoValue
  {
    if i < |stream| then stream[i]
    else
      var end := if stream == [] then 0 else stream[|stream| - 1].loc.end;
      Token(Eof, NoValue, Span(end, end))
  }

  /**
   * `mergeLoc`: the span from the start of `first` to the end of `last`. It is
   * well formed when `first` starts before `last` ends, and it contains each of
   * the two spans exactly when that span lies on its side of the other.
   */
  function MergeLoc(first: Span, last: Span): (m: Span)
    ensures first.start <= last.end ==> m.start <= m.end
    ensures m.start <= first.start && first.end <= m.end <==> first.end <= last.end
    ensures m.start <= last.start && last.end <= m.end <==> first.start <= last.start
  {
    Span(first.start, last.end)
  }

  /**
   * The parser. `stream` stands for its tokenizer, `pulled` counts the tokens
   * read from it so far, and `curToken` is the last of them.
   */
  class Parser {
    const stream: seq<Token>
    var pulled: nat
    var curToken: Token

    ghost predicate Valid()
      reads this
    {
      1 <= pulled && curToken == Pull(stream, pulled - 1)
    }

    /** The constructor reads exactly one token into the current slot. */
    constructor (stream: seq<Token>)
      ensures Valid() && this.stream == stream
      ensures pulled == 1 && curToken == Pull(stream, 0)
    {
      this.stream := stream;
      pulled := 1;
      curToken := Pull(stream, 0);
    }

    /** `tokenizer.readToken()`: the next token of the stream. */
    method ReadToken() returns (t: Token)
      modifies this`pulled
      ensures pulled == old(pulled) + 1
      ensures t == Pull(stream, old(pulled))
    {
      t := Pull(stream, pulled);
      pulled := pulled + 1;
    }

    /** `next`: the current token is always replaced by the next one. */
    method Next()
      requires Valid()
      modifies this
      ensures Valid()
      ensures pulled == old(pulled) + 1
      ensures curToken == Pull(stream, old(pulled))
    {
      curToken := ReadToken();
    }

    /**
     * `accept(kind)`: on a match, the current token is returned and replaced by
     * the next one; otherwise nothing is returned and nothing moves.
     */
    method Accept(kind: Kind) returns (t: Option<Token>)
      requires Valid()
      modifies this
      ensures Valid()
      ensures old(curToken).kind == kind ==>
                t == Some(old(curToken)) && pulled == old(pulled) + 1
      ensures old(curToken).kind != kind ==>
                t == None && pulled == old(pulled) && curToken == old(curToken)
    {
      if curToken.kind == kind {
        var acceptedToken := curToken;
        curToken := ReadToken();
        return Some(acceptedToken);
      }
      return None;
    }

    /**
     * `parseBasicLitNode`: a literal token becomes a node with the same kind,
     * value and location, and exactly one token is consumed; any other token
     * gives `null` and consumes nothing.
     */
    method ParseBasicLitNode() returns (n: Option<Node>)
      requires Valid()
      modifies this
      ensures Valid()
      ensures IsBasicLitKind(old(curToken).kind) ==>
                n == Some(BasicLitNode(old(curToken).kind, old(curToken).value, old(curToken).loc)) &&
                pulled == old(pulled) + 1
      ensures !IsBasicLitKind(old(curToken).kind) ==>
                n == None && pulled == old(pulled) && curToken == old(curToken)
    {
      if IsBasicLitKind(curToken.kind) {
        var basicLitNode := BasicLitNode(curToken.kind, curToken.value, curToken.loc);
        Next();
        return Some(basicLitNode);
      }
      return None;
    }

    /**
     * `parseOperandNameNode`: `null` without consuming anything unless the
     * current token is an identifier; an `Identifier` node when no "." follows
     * it (one token consumed); a `QualifiedIdentifier` for identifier "."
     * identifier (three tokens consumed), its package from the first token,
     * its name from the second, and its span merged from both. A "." not
     * followed by an identifier is an error, raised after two tokens.
     */
    method ParseOperandNameNode() returns (r: Result<Option<Node>, ParseError>)
      requires Valid()
      modifies this
      ensures Valid()
      ensures var first, second, third := old(curToken), Pull(stream, old(pulled)), Pull(stream, old(pulled) + 1);
        if first.kind != Identifier then
          r == Success(None) && pulled == old(pulled)
        else if second.kind != Period then
          r == Success(Some(IdentifierNode(first.value, first.loc))) && pulled == old(pulled) + 1
        else if third.kind != Identifier then
          r == Failure(ExpectedIdentifier(third)) && pulled == old(pulled) + 2
        else
          r == Success(Some(QualifiedIdentifierNode(first.value, third.value, MergeLoc(first.loc, third.loc)))) &&
          pulled == old(pulled) + 3
    {
      var identifierToken := Accept(Identifier);
      if identifierToken.None? {
        return Success(None);
      }
      var period := Accept(Period);
      if period.None? {
        return Success(Some(IdentifierNode(identifierToken.value.value, identifierToken.value.loc)));
      }
      var identifierToken2 := Accept(Identifier);
      if identifierToken2.None? {
        return Failure(ExpectedIdentifier(curToken));
      }
      var loc := MergeLoc(identifierToken.value.loc, identifierToken2.value.loc);
      return Success(Some(QualifiedIdentifierNode(identifierToken.value.value, identifierToken2.value.value, loc)));
    }
  }

  /** "fmt.Println" as tokens: a qualified identifier whose span covers both names. */
  method QualifiedIdentifierExample()
  {
    var fmt := Token(Identifier, Text("fmt"), Span(0, 3));
    var dot := Token(Period, NoValue, Span(3, 4));
    var println := Token(Identifier, Text("Println"), Span(4, 11));
    var p := new Parser([fmt, dot, println]);
    var r := p.ParseOperandNameNode();
    assert r == Success(Some(QualifiedIdentifierNode(Text("fmt"), Text("Println"), Span(0, 11))));
    assert p.curToken.kind == Eof;
    var lit := p.ParseBasicLitNode();
    assert lit == None;
  }
}
