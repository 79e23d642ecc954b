/**
 * The ArcScript lexer: a byte-level state machine over the source text.
 *
 * The functions on `Cursor` state what each step of the lexer computes; the
 * class `Lexer` holds the mutable position, line and column and its methods
 * are proved to take exactly those steps.
 */
module Lexing {
  import opened Wrappers
  import opened Text

  datatype TokenKind =
    // identifiers and literals
    | Identifier | Int | Float | String
    // keywords
    | KwVar | KwFunc | KwObject | KwOn | KwIf | KwElif | KwElse | KwWhile | KwFor | KwDo
    | KwThen | KwEnd | KwReturn | KwBreak | KwContinue | KwTrue | KwFalse | KwNil
    | KwAnd | KwOr | KwNot
    // operators
    | Plus | Minus | Star | Slash | Percent | Equal | EqualEqual | BangEqual
    | Less | LessEqual | Greater | GreaterEqual
    | PlusEqual | MinusEqual | StarEqual | SlashEqual
    // delimiters
    | LParen | RParen | LBrace | RBrace | LBracket | RBracket
    | Comma | Dot | Colon | Semicolon
    // end of input (also produced for a byte the lexer does not recognise)
    | Eof

  datatype Token = Token(kind: TokenKind, lexeme: Bytes, line: nat, column: nat)

  /** The lexer's mutable state: byte offset, 1-based line and column. */
  datatype Cursor = Cursor(pos: nat, line: nat, column: nat)

  const NEWLINE: byte := '\n' as byte
  const QUOTE: byte := '"' as byte
  const BACKSLASH: byte := '\\' as byte
  const SLASH: byte := '/' as byte
  const STAR: byte := '*' as byte
  const DOT: byte := '.' as byte
  const EQUALS: byte := '=' as byte
  const UNDERSCORE: byte := '_' as byte

  /** The reserved words, each with the kind it is reclassified to. */
  const Keywords: seq<(string, TokenKind)> := [
    ("var", KwVar), ("func", KwFunc), ("object", KwObject),
    ("on", KwOn), ("if", KwIf), ("elif", KwElif),
    ("else", KwElse), ("while", KwWhile), ("for", KwFor),
    ("do", KwDo), ("then", KwThen), ("end", KwEnd),
    ("return", KwReturn), ("break", KwBreak), ("continue", KwContinue),
    ("true", KwTrue), ("false", KwFalse), ("nil", KwNil),
    ("and", KwAnd), ("or", KwOr), ("not", KwNot)
  ]

  predicate IsSpace(b: byte) {
    b == ' ' as byte || b == '\r' as byte || b == '\t' as byte || b == NEWLINE
  }

  predicate IsAlpha(b: byte) {
    ('a' as byte <= b <= 'z' as byte) || ('A' as byte <= b <= 'Z' as byte)
  }

  predicate IsIdentStart(b: byte) {
    IsAlpha(b) || b == UNDERSCORE
  }

  predicate IsIdentContinue(b: byte) {
    IsAlpha(b) || IsDigit(b) || b == UNDERSCORE
  }

  /** The kind of an identifier-shaped lexeme: its keyword, or `Identifier`. */
  function KeywordKind(s: Bytes): TokenKind {
    KeywordIn(Keywords, s)
  }

  /** The bytes `s` spell the ASCII word `w`. */
  predicate Spells(s: Bytes, w: string) {
    |s| == |w| && forall i | 0 <= i < |s| :: s[i] as int == w[i] as int
  }

  function KeywordIn(table: seq<(string, TokenKind)>, s: Bytes): TokenKind {
    if table == [] then Identifier
    else if Spells(s, table[0].0) then table[0].1
    else KeywordIn(table[1..], s)
  }

  /** Single-byte delimiters and `%`, which never combine with a following byte. */
  function SingleByteKind(b: byte): Option<TokenKind> {
    if b == '(' as byte then Some(LParen)
    else if b == ')' as byte then Some(RParen)
    else if b == '{' as byte then Some(LBrace)
    else if b == '}' as byte then Some(RBrace)
    else if b == '[' as byte then Some(LBracket)
    else if b == ']' as byte then Some(RBracket)
    else if b == ',' as byte then Some(Comma)
    else if b == '.' as byte then Some(Dot)
    else if b == ':' as byte then Some(Colon)
    else if b == ';' as byte then Some(Semicolon)
    else if b == '%' as byte then Some(Percent)
    else None
  }

  /** Operators that take a following `=`: the one-byte and the two-byte kind. */
  function OperatorKinds(b: byte): Option<(TokenKind, TokenKind)> {
    if b == '+' as byte then Some((Plus, PlusEqual))
    else if b == '-' as byte then Some((Minus, MinusEqual))
    else if b == '*' as byte then Some((Star, StarEqual))
    else if b == '/' as byte then Some((Slash, SlashEqual))
    else if b == '=' as byte then Some((Equal, EqualEqual))
    else if b == '!' as byte then Some((KwNot, BangEqual))
    else if b == '<' as byte then Some((Less, LessEqual))
    else if b == '>' as byte then Some((Greater, GreaterEqual))
    else None
  }

  /** The byte a string escape `\b` stands for. */
  function Unescape(b: byte): byte {
    if b == 'n' as byte then NEWLINE
    else if b == 't' as byte then '\t' as byte
    else if b == 'r' as byte then '\r' as byte
    else b
  }

  function PeekAt(src: Bytes, p: nat): Option<byte> {
    if p < |src| then Some(src[p]) else None
  }

  /** One `advance`: consume a byte, updating line and column; nothing at the end. */
  function Step(src: Bytes, c: Cursor): (r: Cursor)
    ensures r.pos == if c.pos < |src| then c.pos + 1 else c.pos
  {
    if c.pos < |src| then
      if src[c.pos] == NEWLINE then Cursor(c.pos + 1, c.line + 1, 1)
      else Cursor(c.pos + 1, c.line, c.column + 1)
    else c
  }

  /** The line-comment loop: stop before a newline or at the end of input. */
  function SkipLineComment(src: Bytes, c: Cursor): (r: Cursor)
    requires c.pos <= |src|
    ensures c.pos <= r.pos <= |src|
    ensures c.pos < |src| && src[c.pos] != NEWLINE ==> c.pos < r.pos
    decreases |src| - c.pos
  {
    if c.pos < |src| && src[c.pos] != NEWLINE then SkipLineComment(src, Step(src, c)) else c
  }

  /** The block-comment loop, entered after `/*`: stop after `*/` or at the end of input. */
  function SkipBlockComment(src: Bytes, c: Cursor): (r: Cursor)
    requires c.pos <= |src|
    ensures c.pos <= r.pos <= |src|
    decreases |src| - c.pos
  {
    if c.pos == |src| then c
    else if src[c.pos] == STAR && PeekAt(src, c.pos + 1) == Some(SLASH) then Step(src, Step(src, c))
    else SkipBlockComment(src, Step(src, c))
  }

  /** Does a comment start at `p`? */
  predicate CommentAt(src: Bytes, p: nat, second: byte) {
    p + 1 < |src| && src[p] == SLASH && src[p + 1] == second
  }

  /** `skip_whitespace_and_comments`. */
  function SkipTrivia(src: Bytes, c: Cursor): (r: Cursor)
    requires c.pos <= |src|
    ensures c.pos <= r.pos <= |src|
    decreases |src| - c.pos
  {
    if c.pos == |src| then c
    else if IsSpace(src[c.pos]) then SkipTrivia(src, Step(src, c))
    else if CommentAt(src, c.pos, SLASH) then SkipTrivia(src, SkipLineComment(src, c))
    else if CommentAt(src, c.pos, STAR) then SkipTrivia(src, SkipBlockComment(src, Step(src, Step(src, c))))
    else c
  }

  /** The identifier loop: consume identifier bytes. */
  function IdentRun(src: Bytes, c: Cursor): (r: Cursor)
    requires c.pos <= |src|
    ensures c.pos <= r.pos <= |src|
    decreases |src| - c.pos
  {
    if c.pos < |src| && IsIdentContinue(src[c.pos]) then IdentRun(src, Step(src, c)) else c
  }

  /** The number loop: consume digits and at most one `.`; reports whether a `.` was seen. */
  function NumberRun(src: Bytes, c: Cursor, isFloat: bool): (r: (Cursor, bool))
    requires c.pos <= |src|
    ensures c.pos <= r.0.pos <= |src|
    ensures isFloat ==> r.1
    decreases |src| - c.pos
  {
    if c.pos < |src| && IsDigit(src[c.pos]) then NumberRun(src, Step(src, c), isFloat)
    else if c.pos < |src| && src[c.pos] == DOT && !isFloat then NumberRun(src, Step(src, c), true)
    else (c, isFloat)
  }

  /** The string loop, entered after the opening quote: the decoded bytes and the cursor after. */
  function StringBody(src: Bytes, c: Cursor): (r: (Bytes, Cursor))
    requires c.pos <= |src|
    ensures c.pos <= r.1.pos <= |src|
    decreases |src| - c.pos
  {
    if c.pos == |src| then ([], c)
    else
      var ch := src[c.pos];
      var c1 := Step(src, c);
      if ch == QUOTE then ([], c1)
      else if ch == BACKSLASH then
        if c1.pos == |src| then ([], c1)
        else
          var rest := StringBody(src, Step(src, c1));
          ([Unescape(src[c1.pos])] + rest.0, rest.1)
      else
        var rest := StringBody(src, c1);
        ([ch] + rest.0, rest.1)
  }

  /** `next_token`: skip trivia, then lex one token starting at the next byte. */
  function ScanToken(src: Bytes, c0: Cursor): (r: (Token, Cursor))
    requires c0.pos <= |src|
    ensures c0.pos <= r.1.pos <= |src|
    ensures SkipTrivia(src, c0).pos < |src| ==> SkipTrivia(src, c0).pos < r.1.pos
  {
    var c := SkipTrivia(src, c0);
    if c.pos == |src| then (Token(Eof, [], c.line, c.column), c)
    else
      var ch := src[c.pos];
      var c1 := Step(src, c);
      if IsIdentStart(ch) then
        var e := IdentRun(src, c1);
        var s := [ch] + src[c1.pos..e.pos];
        (Token(KeywordKind(s), s, c.line, c.column), e)
      else if IsDigit(ch) then
        var (e, isFloat) := NumberRun(src, c1, false);
        (Token(if isFloat then Float else Int, [ch] + src[c1.pos..e.pos], c.line, c.column), e)
      else if ch == QUOTE then
        var (s, e) := StringBody(src, c1);
        (Token(String, s, c.line, c.column), e)
      else if SingleByteKind(ch).Some? then
        (Token(SingleByteKind(ch).value, [ch], c.line, c.column), c1)
      else if OperatorKinds(ch).Some? then
        var (one, two) := OperatorKinds(ch).value;
        if PeekAt(src, c1.pos) == Some(EQUALS) then (Token(two, [ch, EQUALS], c.line, c.column), Step(src, c1))
        else (Token(one, [ch], c.line, c.column), c1)
      else
        (Token(Eof, [], c.line, c.column), c1)
  }

  /** Does the next token come from the end of input (nothing but trivia is left)? */
  predicate AtEnd(src: Bytes, c: Cursor)
    requires c.pos <= |src|
  {
    SkipTrivia(src, c).pos == |src|
  }

  /**
   * The tokens the parser pulls from the lexer, in order, up to and including
   * the first end-of-input token. After that token the lexer returns it again
   * on every call, since it consumes nothing.
   */
  function TokensFrom(src: Bytes, c: Cursor): (ts: seq<Token>)
    requires c.pos <= |src|
    ensures ts != [] && ts[|ts| - 1].kind == Eof
    decreases |src| - c.pos
  {
    var (t, c1) := ScanToken(src, c);
    if AtEnd(src, c) then [t] else [t] + TokensFrom(src, c1)
  }

  const Start: Cursor := Cursor(0, 1, 1)

  function Tokenize(src: Bytes): (ts: seq<Token>)
    ensures ts != [] && ts[|ts| - 1].kind == Eof
  {
    TokensFrom(src, Start)
  }

  class Lexer {
    const source: Bytes
    var line: nat
    var column: nat
    var pos: nat

    ghost predicate Valid()
      reads this
    {
      pos <= |source|
    }

    function State(): Cursor
      reads this
    {
      Cursor(pos, line, column)
    }

    constructor (source: Bytes)
      ensures Valid() && this.source == source && State() == Start
    {
      this.source := source;
      line := 1;
      column := 1;
      pos := 0;
    }

    method Peek() returns (c: Option<byte>)
      requires Valid()
      ensures c == PeekAt(source, pos)
    {
      c := if pos < |source| then Some(source[pos]) else None;
    }

    method Advance() returns (ch: Option<byte>)
      requires Valid()
      modifies this`pos, this`line, this`column
      ensures Valid()
      ensures ch == PeekAt(source, old(pos)) && State() == Step(source, old(State()))
    {
      ch := if pos < |source| then Some(source[pos]) else None;
      if ch.Some? {
        pos := pos + 1;
        if ch.value == NEWLINE {
          line := line + 1;
          column := 1;
        } else {
          column := column + 1;
        }
      }
    }

    method MatchNext(expected: byte) returns (matched: bool)
      requires Valid()
      modifies this`pos, this`line, this`column
      ensures Valid()
      ensures matched == (PeekAt(source, old(pos)) == Some(expected))
      ensures State() == if matched then Step(source, old(State())) else old(State())
    {
      var c := Peek();
      if c == Some(expected) {
        var _ := Advance();
        matched := true;
      } else {
        matched := false;
      }
    }

    method NextToken() returns (t: Token)
      requires Valid()
      modifies this`pos, this`line, this`column
      ensures Valid()
      ensures (t, State()) == ScanToken(source, old(State()))
    {
      SkipWhitespaceAndComments();
      var startLine, startColumn := line, column;
      var next := Advance();
      if next.None? {
        return Token(Eof, [], startLine, startColumn);
      }
      var ch := next.value;
      if IsIdentStart(ch) {
        t := LexIdentifierOrKeyword(ch, startLine, startColumn);
      } else if IsDigit(ch) {
        t := LexNumber(ch, startLine, startColumn);
      } else if ch == QUOTE {
        t := LexString(startLine, startColumn);
      } else if SingleByteKind(ch).Some? {
        t := Token(SingleByteKind(ch).value, [ch], startLine, startColumn);
      } else if OperatorKinds(ch).Some? {
        var (one, two) := OperatorKinds(ch).value;
        var matched := MatchNext(EQUALS);
        t := if matched then Token(two, [ch, EQUALS], startLine, startColumn)
             else Token(one, [ch], startLine, startColumn);
      } else {
        t := Token(Eof, [], startLine, startColumn);
      }
    }

    method SkipWhitespaceAndComments()
      requires Valid()
      modifies this`pos, this`line, this`column
      ensures Valid()
      ensures State() == SkipTrivia(source, old(State()))
    {
      while true
        invariant Valid()
        invariant SkipTrivia(source, State()) == SkipTrivia(source, old(State()))
        decreases |source| - pos
      {
        var c := Peek();
        if c.Some? && IsSpace(c.value) {
          var _ := Advance();
        } else if c == Some(SLASH) && PeekAt(source, pos + 1) == Some(SLASH) {
          // line comment
          ghost var start := State();
          while true
            invariant Valid() && start.pos <= pos
            invariant SkipLineComment(source, State()) == SkipLineComment(source, start)
            decreases |source| - pos
          {
            var ch := Peek();
            if ch.None? || ch.value == NEWLINE {
              break;
            }
            var _ := Advance();
          }
        } else if c == Some(SLASH) && PeekAt(source, pos + 1) == Some(STAR) {
          // block comment
          var _ := Advance();
          var _ := Advance();
          ghost var start := State();
          while true
            invariant Valid() && start.pos <= pos
            invariant SkipBlockComment(source, State()) == SkipBlockComment(source, start)
            decreases |source| - pos
          {
            var ch := Peek();
            if ch.None? {
              break;
            }
            if ch.value == STAR && PeekAt(source, pos + 1) == Some(SLASH) {
              var _ := Advance();
              var _ := Advance();
              break;
            }
            var _ := Advance();
          }
        } else {
          break;
        }
      }
    }

    method LexIdentifierOrKeyword(first: byte, startLine: nat, startColumn: nat) returns (t: Token)
      requires Valid()
      modifies this`pos, this`line, this`column
      ensures Valid()
      ensures var e := IdentRun(source, old(State()));
              var s := [first] + source[old(pos)..e.pos];
              t == Token(KeywordKind(s), s, startLine, startColumn) && State() == e
    {
      ghost var start := State();
      var buf := [first];
      while true
        invariant Valid() && start.pos <= pos
        invariant IdentRun(source, State()) == IdentRun(source, start)
        invariant buf == [first] + source[start.pos..pos]
        decreases |source| - pos
      {
        var c := Peek();
        if c.None? || !IsIdentContinue(c.value) {
          break;
        }
        assert source[start.pos..pos + 1] == source[start.pos..pos] + [c.value];
        var _ := Advance();
        buf := buf + [c.value];
      }
      t := Token(KeywordKind(buf), buf, startLine, startColumn);
    }

    method LexNumber(first: byte, startLine: nat, startColumn: nat) returns (t: Token)
      requires Valid()
      modifies this`pos, this`line, this`column
      ensures Valid()
      ensures var (e, isFloat) := NumberRun(source, old(State()), false);
              t == Token(if isFloat then Float else Int, [first] + source[old(pos)..e.pos], startLine, startColumn)
              && State() == e
    {
      ghost var start := State();
      var buf := [first];
      var isFloat := false;
      while true
        invariant Valid() && start.pos <= pos
        invariant NumberRun(source, State(), isFloat) == NumberRun(source, start, false)
        invariant buf == [first] + source[start.pos..pos]
        decreases |source| - pos
      {
        var c := Peek();
        if c.Some? && IsDigit(c.value) {
          assert source[start.pos..pos + 1] == source[start.pos..pos] + [c.value];
          var _ := Advance();
          buf := buf + [c.value];
        } else if c == Some(DOT) && !isFloat {
          isFloat := true;
          assert source[start.pos..pos + 1] == source[start.pos..pos] + [c.value];
          var _ := Advance();
          buf := buf + [c.value];
        } else {
          break;
        }
      }
      t := Token(if isFloat then Float else Int, buf, startLine, startColumn);
    }

    method LexString(startLine: nat, startColumn: nat) returns (t: Token)
      requires Valid()
      modifies this`pos, this`line, this`column
      ensures Valid()
      ensures var (s, e) := StringBody(source, old(State()));
              t == Token(String, s, startLine, startColumn) && State() == e
    {
      ghost var start := State();
      var buf: Bytes := [];
      while true
        invariant Valid()
        invariant buf + StringBody(source, State()).0 == StringBody(source, start).0
        invariant StringBody(source, State()).1 == StringBody(source, start).1
        decreases |source| - pos
      {
        var c := Peek();
        if c.None? {
          break;
        }
        var _ := Advance();
        if c.value == QUOTE {
          break;
        }
        if c.value == BACKSLASH {
          var esc := Advance();
          if esc.None? {
            break;
          }
          buf := buf + [Unescape(esc.value)];
        } else {
          buf := buf + [c.value];
        }
      }
      t := Token(String, buf, startLine, startColumn);
    }
  }

  /**
   * Pre-lexing for the parser: call `next_token` until it returns the
   * end-of-input token, collecting every token.
   */
  method LexAll(source: Bytes) returns (tokens: seq<Token>)
    ensures tokens == Tokenize(source)
  {
    var lexer := new Lexer(source);
    tokens := [];
    while true
      invariant lexer.Valid() && lexer.source == source
      invariant tokens + TokensFrom(source, lexer.State()) == Tokenize(source)
      decreases |source| - lexer.pos
    {
      ghost var before, prev := lexer.State(), tokens;
      var atEnd := AtEnd(source, lexer.State());
      var t := lexer.NextToken();
      assert TokensFrom(source, before) == if atEnd then [t] else [t] + TokensFrom(source, lexer.State());
      tokens := tokens + [t];
      if atEnd {
        assert tokens == prev + TokensFrom(source, before);
        break;
      }
      assert tokens + TokensFrom(source, lexer.State()) == prev + ([t] + TokensFrom(source, lexer.State()));
    }
  }
}
