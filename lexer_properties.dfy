/**
 * What the lexer guarantees: position bookkeeping, progress, maximal munch,
 * the shape of identifier, number and string tokens, and how comments end.
 */
module LexerProperties {
  import opened Wrappers
  import opened Text
  import opened Lexing

  /* ---------- line and column bookkeeping ---------- */

  /** The number of newline bytes before offset `p`. */
  function NewlinesBefore(src: Bytes, p: nat): nat
    requires p <= |src|
  {
    if p == 0 then 0 else NewlinesBefore(src, p - 1) + (if src[p - 1] == NEWLINE then 1 else 0)
  }

  /** The offset at which the line holding offset `p` starts. */
  function LineStart(src: Bytes, p: nat): (r: nat)
    requires p <= |src|
    ensures r <= p
  {
    if p == 0 then 0 else if src[p - 1] == NEWLINE then p else LineStart(src, p - 1)
  }

  /** The cursor that describes offset `p`: 1-based line, 1-based byte column. */
  function CursorAt(src: Bytes, p: nat): Cursor
    requires p <= |src|
  {
    Cursor(p, 1 + NewlinesBefore(src, p), 1 + p - LineStart(src, p))
  }

  ghost predicate Tracks(src: Bytes, c: Cursor) {
    c.pos <= |src| && c == CursorAt(src, c.pos)
  }

  /**
   * Consuming a byte keeps line and column in step with the offset: a newline
   * starts line + 1 at column 1, any other byte moves one column right.
   */
  lemma StepTracks(src: Bytes, c: Cursor)
    requires Tracks(src, c)
    ensures Tracks(src, Step(src, c))
    ensures c.pos < |src| && src[c.pos] == NEWLINE ==> Step(src, c).line == c.line + 1 && Step(src, c).column == 1
    ensures c.pos < |src| && src[c.pos] != NEWLINE ==> Step(src, c).line == c.line && Step(src, c).column == c.column + 1
  {
  }

  lemma {:induction false} SkipLineCommentTracks(src: Bytes, c: Cursor)
    requires Tracks(src, c)
    ensures Tracks(src, SkipLineComment(src, c))
    decreases |src| - c.pos
  {
    if c.pos < |src| && src[c.pos] != NEWLINE {
      StepTracks(src, c);
      SkipLineCommentTracks(src, Step(src, c));
    }
  }

  lemma {:induction false} SkipBlockCommentTracks(src: Bytes, c: Cursor)
    requires Tracks(src, c)
    ensures Tracks(src, SkipBlockComment(src, c))
    decreases |src| - c.pos
  {
    if c.pos < |src| {
      StepTracks(src, c);
      StepTracks(src, Step(src, c));
      if !(src[c.pos] == STAR && PeekAt(src, c.pos + 1) == Some(SLASH)) {
        SkipBlockCommentTracks(src, Step(src, c));
      }
    }
  }

  lemma {:induction false} SkipTriviaTracks(src: Bytes, c: Cursor)
    requires Tracks(src, c)
    ensures Tracks(src, SkipTrivia(src, c))
    decreases |src| - c.pos
  {
    if c.pos < |src| {
      StepTracks(src, c);
      if IsSpace(src[c.pos]) {
        SkipTriviaTracks(src, Step(src, c));
      } else if CommentAt(src, c.pos, SLASH) {
        SkipLineCommentTracks(src, c);
        SkipTriviaTracks(src, SkipLineComment(src, c));
      } else if CommentAt(src, c.pos, STAR) {
        StepTracks(src, Step(src, c));
        SkipBlockCommentTracks(src, Step(src, Step(src, c)));
        SkipTriviaTracks(src, SkipBlockComment(src, Step(src, Step(src, c))));
      }
    }
  }

  lemma {:induction false} IdentRunTracks(src: Bytes, c: Cursor)
    requires Tracks(src, c)
    ensures Tracks(src, IdentRun(src, c))
    decreases |src| - c.pos
  {
    if c.pos < |src| && IsIdentContinue(src[c.pos]) {
      StepTracks(src, c);
      IdentRunTracks(src, Step(src, c));
    }
  }

  lemma {:induction false} NumberRunTracks(src: Bytes, c: Cursor, isFloat: bool)
    requires Tracks(src, c)
    ensures Tracks(src, NumberRun(src, c, isFloat).0)
    decreases |src| - c.pos
  {
    if c.pos < |src| {
      StepTracks(src, c);
      if IsDigit(src[c.pos]) {
        NumberRunTracks(src, Step(src, c), isFloat);
      } else if src[c.pos] == DOT && !isFloat {
        NumberRunTracks(src, Step(src, c), true);
      }
    }
  }

  lemma {:induction false} StringBodyTracks(src: Bytes, c: Cursor)
    requires Tracks(src, c)
    ensures Tracks(src, StringBody(src, c).1)
    decreases |src| - c.pos
  {
    if c.pos < |src| {
      StepTracks(src, c);
      var c1 := Step(src, c);
      if src[c.pos] == BACKSLASH && c1.pos < |src| {
        StepTracks(src, c1);
        StringBodyTracks(src, Step(src, c1));
      } else if src[c.pos] != QUOTE && src[c.pos] != BACKSLASH {
        StringBodyTracks(src, c1);
      }
    }
  }

  /**
   * A token's line and column are those of its first byte, found after
   * whitespace and comments are skipped, and the lexer's own line and column
   * afterwards still describe its offset.
   */
  lemma TokenPosition(src: Bytes, c: Cursor)
    requires Tracks(src, c)
    ensures var (t, c1) := ScanToken(src, c);
            var start := SkipTrivia(src, c).pos;
            t.line == 1 + NewlinesBefore(src, start) && t.column == 1 + start - LineStart(src, start)
            && Tracks(src, c1)
  {
    SkipTriviaTracks(src, c);
    var s := SkipTrivia(src, c);
    if s.pos < |src| {
      StepTracks(src, s);
      var ch := src[s.pos];
      var s1 := Step(src, s);
      if IsIdentStart(ch) {
        IdentRunTracks(src, s1);
      } else if IsDigit(ch) {
        NumberRunTracks(src, s1, false);
      } else if ch == QUOTE {
        StringBodyTracks(src, s1);
      } else {
        StepTracks(src, s1);
      }
    }
  }

  /** The lexer starts at line 1, column 1 of offset 0, and every token it returns is placed there. */
  lemma StartTracks(src: Bytes)
    ensures Tracks(src, Start)
  {
  }

  /* ---------- end of input and progress ---------- */

  /**
   * Once only trivia is left, the lexer returns `Eof` with an empty lexeme,
   * and asking again returns the very same token without moving.
   */
  lemma AtEndIsStable(src: Bytes, c: Cursor)
    requires c.pos <= |src| && AtEnd(src, c)
    ensures var (t, c1) := ScanToken(src, c);
            t.kind == Eof && t.lexeme == [] && c1.pos == |src|
            && ScanToken(src, c1) == (t, c1)
  {
  }

  /** At the very end nothing moves; anywhere else each token consumes at least one byte. */
  lemma ScanTokenProgress(src: Bytes, c: Cursor)
    requires c.pos <= |src|
    ensures c.pos == |src| ==> ScanToken(src, c) == (Token(Eof, [], c.line, c.column), c)
    ensures c.pos < |src| ==> ScanToken(src, c).1.pos > c.pos
  {
  }

  /* ---------- whitespace and comments ---------- */

  /** A line comment stops at the next newline, which it leaves in place, or at the end of input. */
  lemma {:induction false} LineCommentEnds(src: Bytes, c: Cursor)
    requires c.pos <= |src|
    ensures var r := SkipLineComment(src, c);
            (r.pos == |src| || src[r.pos] == NEWLINE)
            && forall i | c.pos <= i < r.pos :: src[i] != NEWLINE
    decreases |src| - c.pos
  {
    if c.pos < |src| && src[c.pos] != NEWLINE {
      LineCommentEnds(src, Step(src, c));
    }
  }

  predicate ClosesAt(src: Bytes, j: nat) {
    j + 1 < |src| && src[j] == STAR && src[j + 1] == SLASH
  }

  /** A block comment ends just after the first `*` `/` pair, or runs to the end of input. */
  lemma {:induction false} BlockCommentEnds(src: Bytes, c: Cursor)
    requires c.pos <= |src|
    ensures var r := SkipBlockComment(src, c);
            || (c.pos + 2 <= r.pos && ClosesAt(src, r.pos - 2)
                && forall j | c.pos <= j < r.pos - 2 :: !ClosesAt(src, j))
            || (r.pos == |src| && forall j | c.pos <= j < |src| :: !ClosesAt(src, j))
    decreases |src| - c.pos
  {
    if c.pos < |src| && !(src[c.pos] == STAR && PeekAt(src, c.pos + 1) == Some(SLASH)) {
      BlockCommentEnds(src, Step(src, c));
    }
  }

  /** Skipping trivia stops at the end or at a byte that starts neither whitespace nor a comment. */
  lemma {:induction false} SkipTriviaStops(src: Bytes, c: Cursor)
    requires c.pos <= |src|
    ensures var r := SkipTrivia(src, c);
            r.pos == |src| || (!IsSpace(src[r.pos]) && !CommentAt(src, r.pos, SLASH) && !CommentAt(src, r.pos, STAR))
    decreases |src| - c.pos
  {
    if c.pos < |src| {
      if IsSpace(src[c.pos]) {
        SkipTriviaStops(src, Step(src, c));
      } else if CommentAt(src, c.pos, SLASH) {
        SkipTriviaStops(src, SkipLineComment(src, c));
      } else if CommentAt(src, c.pos, STAR) {
        SkipTriviaStops(src, SkipBlockComment(src, Step(src, Step(src, c))));
      }
    }
  }

  /* ---------- operators ---------- */

  /**
   * Maximal munch: `+ - * / = ! < >` directly followed by `=` give the
   * two-byte token, otherwise the one-byte token; a bare `!` is `KwNot`.
   */
  lemma OperatorMunch(src: Bytes, c: Cursor)
    requires c.pos <= |src|
    requires var s := SkipTrivia(src, c).pos; s < |src| && OperatorKinds(src[s]).Some?
    ensures var s := SkipTrivia(src, c).pos;
            var (one, two) := OperatorKinds(src[s]).value;
            var (t, c1) := ScanToken(src, c);
            if s + 1 < |src| && src[s + 1] == EQUALS then
              t.kind == two && t.lexeme == [src[s], EQUALS] && c1.pos == s + 2
            else
              t.kind == one && t.lexeme == [src[s]] && c1.pos == s + 1
    ensures var s := SkipTrivia(src, c).pos;
            src[s] == '!' as byte && !(s + 1 < |src| && src[s + 1] == EQUALS) ==> ScanToken(src, c).0.kind == KwNot
  {
    var s := SkipTrivia(src, c);
    OperatorBytesStartNothingElse(src[s.pos]);
  }

  /** An operator byte starts no identifier, number, string or single-byte token. */
  lemma OperatorBytesStartNothingElse(b: byte)
    requires OperatorKinds(b).Some?
    ensures !IsIdentStart(b) && !IsDigit(b) && b != QUOTE && SingleByteKind(b).None?
  {
  }

  /** A byte that starts no token yields a synthetic `Eof` token and is consumed. */
  lemma UnrecognisedByte(src: Bytes, c: Cursor)
    requires c.pos <= |src|
    requires var s := SkipTrivia(src, c).pos;
             s < |src| && !IsIdentStart(src[s]) && !IsDigit(src[s]) && src[s] != QUOTE
             && SingleByteKind(src[s]).None? && OperatorKinds(src[s]).None?
    ensures var (t, c1) := ScanToken(src, c);
            t.kind == Eof && t.lexeme == [] && c1.pos == SkipTrivia(src, c).pos + 1
  {
  }

  /* ---------- identifiers and keywords ---------- */

  lemma {:induction false} IdentRunMaximal(src: Bytes, c: Cursor)
    requires c.pos <= |src|
    ensures var r := IdentRun(src, c);
            (forall i | c.pos <= i < r.pos :: IsIdentContinue(src[i]))
            && (r.pos == |src| || !IsIdentContinue(src[r.pos]))
    decreases |src| - c.pos
  {
    if c.pos < |src| && IsIdentContinue(src[c.pos]) {
      IdentRunMaximal(src, Step(src, c));
    }
  }

  lemma {:induction false} KeywordInTable(table: seq<(string, TokenKind)>, s: Bytes)
    requires forall k | 0 <= k < |table| :: table[k].1 != Identifier
    ensures KeywordIn(table, s) == Identifier <==> forall k | 0 <= k < |table| :: !Spells(s, table[k].0)
    ensures KeywordIn(table, s) != Identifier ==>
              exists k | 0 <= k < |table| :: Spells(s, table[k].0) && table[k].1 == KeywordIn(table, s)
  {
    if table != [] && !Spells(s, table[0].0) {
      KeywordInTable(table[1..], s);
      if KeywordIn(table[1..], s) != Identifier {
        var k :| 0 <= k < |table[1..]| && Spells(s, table[1..][k].0) && table[1..][k].1 == KeywordIn(table[1..], s);
        assert table[k + 1] == table[1..][k];
      }
    }
  }

  /**
   * An identifier token is a maximal run of ASCII letters, digits and `_`
   * starting with a letter or `_`; its kind is a keyword exactly when the
   * lexeme is one of the reserved words, and then it is that word's kind.
   */
  lemma IdentifierToken(src: Bytes, c: Cursor)
    requires c.pos <= |src|
    requires var s := SkipTrivia(src, c).pos; s < |src| && IsIdentStart(src[s])
    ensures var s := SkipTrivia(src, c).pos;
            var (t, c1) := ScanToken(src, c);
            && s < c1.pos && t.lexeme == src[s..c1.pos]
            && (forall i | s <= i < c1.pos :: IsIdentContinue(src[i]))
            && (c1.pos == |src| || !IsIdentContinue(src[c1.pos]))
            && (t.kind == Identifier <==> forall k | 0 <= k < |Keywords| :: !Spells(t.lexeme, Keywords[k].0))
            && (t.kind != Identifier ==> exists k | 0 <= k < |Keywords| :: Spells(t.lexeme, Keywords[k].0) && Keywords[k].1 == t.kind)
  {
    IdentifierRun(src, c);
    KeywordKindSpelled(ScanToken(src, c).0.lexeme);
  }

  /** The identifier branch of `ScanToken`: the maximal run, classified by `KeywordKind`. */
  lemma IdentifierRun(src: Bytes, c: Cursor)
    requires c.pos <= |src|
    requires var s := SkipTrivia(src, c).pos; s < |src| && IsIdentStart(src[s])
    ensures var s := SkipTrivia(src, c).pos;
            var (t, c1) := ScanToken(src, c);
            && s < c1.pos && t.lexeme == src[s..c1.pos] && t.kind == KeywordKind(t.lexeme)
            && (forall i | s <= i < c1.pos :: IsIdentContinue(src[i]))
            && (c1.pos == |src| || !IsIdentContinue(src[c1.pos]))
  {
    var s := SkipTrivia(src, c);
    var s1 := Step(src, s);
    IdentRunMaximal(src, s1);
    var (t, c1) := ScanToken(src, c);
    assert t.lexeme == src[s.pos..c1.pos] by {
      assert [src[s.pos]] + src[s1.pos..c1.pos] == src[s.pos..c1.pos];
    }
  }

  /** `KeywordKind` names a keyword exactly when the lexeme spells one of the reserved words. */
  lemma KeywordKindSpelled(s: Bytes)
    ensures KeywordKind(s) == Identifier <==> forall k | 0 <= k < |Keywords| :: !Spells(s, Keywords[k].0)
    ensures KeywordKind(s) != Identifier ==>
              exists k | 0 <= k < |Keywords| :: Spells(s, Keywords[k].0) && Keywords[k].1 == KeywordKind(s)
  {
    KeywordsAreReserved();
    KeywordInTable(Keywords, s);
  }

  lemma KeywordsAreReserved()
    ensures forall k | 0 <= k < |Keywords| :: Keywords[k].1 != Identifier
  {
  }

  /* ---------- numbers ---------- */

  /** Digits with at most one `.`; `dots` says whether a `.` may still come. */
  predicate NumberText(s: Bytes) {
    && (forall i | 0 <= i < |s| :: IsDigit(s[i]) || s[i] == DOT)
    && (forall i, j | 0 <= i < j < |s| :: !(s[i] == DOT && s[j] == DOT))
  }

  predicate HasDot(s: Bytes) {
    exists i | 0 <= i < |s| :: s[i] == DOT
  }

  lemma {:induction false} NumberRunShape(src: Bytes, c: Cursor, isFloat: bool)
    requires c.pos <= |src|
    ensures var (r, f) := NumberRun(src, c, isFloat);
            var run := src[c.pos..r.pos];
            && NumberText(run) && (isFloat ==> !HasDot(run))
            && (f <==> isFloat || HasDot(run))
            && (r.pos == |src| || (!IsDigit(src[r.pos]) && (src[r.pos] != DOT || f)))
    decreases |src| - c.pos
  {
    if c.pos < |src| && (IsDigit(src[c.pos]) || (src[c.pos] == DOT && !isFloat)) {
      var f' := isFloat || src[c.pos] == DOT;
      NumberRunShape(src, Step(src, c), f');
      var (r, f) := NumberRun(src, c, isFloat);
      var run := src[c.pos..r.pos];
      assert run == [src[c.pos]] + src[c.pos + 1..r.pos];
      assert forall i | 1 <= i < |run| :: run[i] == src[c.pos + 1..r.pos][i - 1];
    }
  }

  /**
   * A number token is a digit followed by digits and at most one `.`; it is
   * a `Float` exactly when it holds a `.`, and a second `.` ends it.
   */
  lemma NumberToken(src: Bytes, c: Cursor)
    requires c.pos <= |src|
    requires var s := SkipTrivia(src, c).pos; s < |src| && IsDigit(src[s])
    ensures var s := SkipTrivia(src, c).pos;
            var (t, c1) := ScanToken(src, c);
            && t.lexeme == src[s..c1.pos] && IsDigit(t.lexeme[0]) && NumberText(t.lexeme)
            && (t.kind == Float <==> HasDot(t.lexeme)) && (t.kind == Int <==> !HasDot(t.lexeme))
            && (c1.pos == |src| || (!IsDigit(src[c1.pos]) && (src[c1.pos] != DOT || t.kind == Float)))
  {
    var s := SkipTrivia(src, c);
    var s1 := Step(src, s);
    NumberRunShape(src, s1, false);
    var (t, c1) := ScanToken(src, c);
    var run := src[s1.pos..c1.pos];
    assert t.lexeme == [src[s.pos]] + run == src[s.pos..c1.pos];
    assert forall i | 1 <= i < |t.lexeme| :: t.lexeme[i] == run[i - 1];
    assert HasDot(t.lexeme) <==> HasDot(run) by {
      if HasDot(run) {
        var i :| 0 <= i < |run| && run[i] == DOT;
        assert t.lexeme[i + 1] == DOT;
      }
    }
  }

  /* ---------- strings ---------- */

  /** The source text of a string body: the escapes a writer would use for `s`. */
  function Escape(s: Bytes): Bytes {
    if s == [] then [] else EscapeByte(s[0]) + Escape(s[1..])
  }

  /** How one byte is written inside a string literal. */
  function EscapeByte(b: byte): (r: Bytes)
    ensures |r| == 1 ==> r[0] == b && b != QUOTE && b != BACKSLASH
    ensures |r| == 2 ==> r[0] == BACKSLASH && Unescape(r[1]) == b
    ensures |r| == 1 || |r| == 2
  {
    if b == NEWLINE then [BACKSLASH, 'n' as byte]
    else if b == '\t' as byte then [BACKSLASH, 't' as byte]
    else if b == '\r' as byte then [BACKSLASH, 'r' as byte]
    else if b == BACKSLASH || b == QUOTE then [BACKSLASH, b]
    else [b]
  }

  /**
   * Escapes decode back: a string literal written as `"` + Escape(v) + `"`
   * lexes to exactly the bytes `v`, ending just after the closing quote.
   */
  lemma {:induction false} StringRoundTrip(src: Bytes, c: Cursor, v: Bytes)
    requires c.pos + |Escape(v)| < |src|
    requires src[c.pos..c.pos + |Escape(v)|] == Escape(v) && src[c.pos + |Escape(v)|] == QUOTE
    ensures StringBody(src, c).0 == v && StringBody(src, c).1.pos == c.pos + |Escape(v)| + 1
    decreases v
  {
    if v == [] {
      assert src[c.pos] == QUOTE;
    } else {
      var c' := StringHead(src, c, v);
      StringRoundTrip(src, c', v[1..]);
    }
  }

  /**
   * One written byte at the front of a string body: after it the body goes on
   * at `r`, with the rest of the escapes, and decodes to that byte in front.
   */
  lemma StringHead(src: Bytes, c: Cursor, v: Bytes) returns (r: Cursor)
    requires v != [] && c.pos + |Escape(v)| < |src|
    requires src[c.pos..c.pos + |Escape(v)|] == Escape(v)
    ensures r.pos == c.pos + |EscapeByte(v[0])| && r.pos + |Escape(v[1..])| == c.pos + |Escape(v)|
    ensures src[r.pos..r.pos + |Escape(v[1..])|] == Escape(v[1..])
    ensures StringBody(src, c) == ([v[0]] + StringBody(src, r).0, StringBody(src, r).1)
  {
    var head := EscapeByte(v[0]);
    var e := Escape(v);
    var k := |head|;
    assert e == head + Escape(v[1..]);
    SliceAfter(src, c.pos, e, k);
    assert src[c.pos] == head[0];
    if k == 2 {
      assert src[c.pos + 1] == head[1];
      r := Step(src, Step(src, c));
    } else {
      r := Step(src, c);
    }
  }

  /** Dropping the first `k` bytes of a slice that spells `e`. */
  lemma SliceAfter(src: Bytes, p: nat, e: Bytes, k: nat)
    requires p + |e| <= |src| && k <= |e| && src[p..p + |e|] == e
    ensures src[p + k..p + |e|] == e[k..]
  {
    assert src[p + k..p + |e|] == src[p..p + |e|][k..];
  }

  /** A byte that a string literal writes as itself. */
  predicate PlainByte(b: byte) {
    b != QUOTE && b != BACKSLASH && b != NEWLINE && b != '\t' as byte && b != '\r' as byte
  }

  /** Text made of plain bytes is written as itself. */
  lemma {:induction false} EscapePlain(s: Bytes)
    requires forall i | 0 <= i < |s| :: PlainByte(s[i])
    ensures Escape(s) == s
    decreases s
  {
    if s != [] {
      EscapePlain(s[1..]);
    }
  }

  /**
   * The literal `"a\nb"` (a backslash and an `n` between two runs of plain
   * bytes) is one string token whose bytes are `a`, a newline, then `b`, and
   * the lexer stops after the closing quote.
   */
  lemma EscapedNewline(a: Bytes, b: Bytes)
    requires forall i | 0 <= i < |a| :: PlainByte(a[i])
    requires forall i | 0 <= i < |b| :: PlainByte(b[i])
    ensures var src := [QUOTE] + a + [BACKSLASH, 'n' as byte] + b + [QUOTE];
      var (t, end) := ScanToken(src, Start);
      t == Token(String, a + [NEWLINE] + b, 1, 1) && end.pos == |src|
  {
    var src := [QUOTE] + a + [BACKSLASH, 'n' as byte] + b + [QUOTE];
    var v := a + [NEWLINE] + b;
    EscapeNewline(a, b);
    var c := Step(src, Start);
    assert src[c.pos..c.pos + |Escape(v)|] == Escape(v);
    StringRoundTrip(src, c, v);
    assert SkipTrivia(src, Start) == Start;
    assert ScanToken(src, Start) == (Token(String, StringBody(src, c).0, 1, 1), StringBody(src, c).1);
  }

  /** How `a`, a newline, then `b` is written when `a` and `b` are plain. */
  lemma {:induction false} EscapeNewline(a: Bytes, b: Bytes)
    requires forall i | 0 <= i < |a| :: PlainByte(a[i])
    requires forall i | 0 <= i < |b| :: PlainByte(b[i])
    ensures Escape(a + [NEWLINE] + b) == a + [BACKSLASH, 'n' as byte] + b
    decreases a
  {
    var s := a + [NEWLINE] + b;
    if a == [] {
      assert s == [NEWLINE] + b && s[1..] == b;
      EscapePlain(b);
    } else {
      assert s[0] == a[0] && s[1..] == a[1..] + [NEWLINE] + b;
      EscapeNewline(a[1..], b);
      assert [a[0]] + (a[1..] + [BACKSLASH, 'n' as byte] + b) == a + [BACKSLASH, 'n' as byte] + b;
    }
  }

  /** A string ends just after an unescaped closing quote, or runs to the end of input. */
  lemma {:induction false} StringBodyEnds(src: Bytes, c: Cursor)
    requires c.pos <= |src|
    ensures var r := StringBody(src, c).1;
            r.pos == |src| || (c.pos < r.pos && src[r.pos - 1] == QUOTE)
    decreases |src| - c.pos
  {
    if c.pos < |src| {
      var c1 := Step(src, c);
      if src[c.pos] == BACKSLASH && c1.pos < |src| {
        StringBodyEnds(src, Step(src, c1));
      } else if src[c.pos] != QUOTE && src[c.pos] != BACKSLASH {
        StringBodyEnds(src, c1);
      }
    }
  }

  /* ---------- the token stream ---------- */

  /**
   * Every token of the stream but the last was lexed from a position where
   * input remained; the last one is the end-of-input `Eof`.
   */
  lemma {:induction false} TokensEndWithEof(src: Bytes, c: Cursor)
    requires c.pos <= |src|
    ensures var ts := TokensFrom(src, c);
            ts[|ts| - 1] == Token(Eof, [], SkipTrivia(src, LastStart(src, c)).line, SkipTrivia(src, LastStart(src, c)).column)
    decreases |src| - c.pos
  {
    if !AtEnd(src, c) {
      TokensEndWithEof(src, ScanToken(src, c).1);
    }
  }

  /** The cursor from which the last token of the stream is lexed. */
  function LastStart(src: Bytes, c: Cursor): (r: Cursor)
    requires c.pos <= |src|
    ensures r.pos <= |src| && AtEnd(src, r)
    decreases |src| - c.pos
  {
    if AtEnd(src, c) then c else LastStart(src, ScanToken(src, c).1)
  }
}
