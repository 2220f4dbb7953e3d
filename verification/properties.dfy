/**
 * What the productions of the grammar guarantee: where each leaves the cursor
 * stack, which tokens it produces and which errors it reports, from the
 * anchored lexical steps up to the whole parse.
 */
module Properties {
  import opened Wrappers
  import opened Patterns
  import opened Tokens
  import opened Grammar

  // ---------------------------------------------------------------------------
  // The tokens the parser builds
  // ---------------------------------------------------------------------------

  /** A blank-run or line-break token holding the text it was read from. */
  predicate IsLayout(t: Token) {
    (t.WhitespaceToken? && InLanguage(WhitespacePattern, t.value)) ||
    (t.NewLineToken? && InLanguage(NewLinePattern, t.value))
  }

  predicate AllLayout(ts: seq<Token>) {
    forall i :: 0 <= i < |ts| ==> IsLayout(ts[i])
  }

  /** A complete string literal's token: its body, without quotes or line breaks. */
  predicate IsStringValue(t: Token) {
    t.StringToken? && InLanguage(StringPattern, t.value)
  }

  predicate AllStringValues(ts: seq<Token>) {
    forall i :: 0 <= i < |ts| ==> IsStringValue(ts[i])
  }

  /** A primitive call's token: `print` or `type` with one or more string arguments. */
  predicate IsPrimitiveCall(t: Token) {
    t.PrimitiveCallToken? && (t.kind == "print" || t.kind == "type") &&
    |t.values| > 0 && AllStringValues(t.values)
  }

  /** A comment's token: '!' and the rest of its line. */
  predicate IsComment(t: Token) {
    t.CommentToken? && InLanguage(CommentPattern, t.value)
  }

  /** A token a statement yields; a program's token holds such tokens, to any depth. */
  predicate IsStatementToken(t: Token)
    decreases t
  {
    match t
    case ProgramToken(name, statements) =>
      InLanguage(LiteralPattern, name) &&
      forall i :: 0 <= i < |statements| ==> IsStatementToken(statements[i])
    case _ => IsLayout(t) || IsComment(t) || IsPrimitiveCall(t)
  }

  predicate AllStatementTokens(ts: seq<Token>) {
    forall i :: 0 <= i < |ts| ==> IsStatementToken(ts[i])
  }

  /** One or more tokens, all but the last of them layout. */
  predicate LayoutBeforeLast(ts: seq<Token>) {
    |ts| > 0 && AllLayout(ts[..|ts| - 1])
  }

  /**
   * A complete string literal starts at `at`: a quote, then `body`, which holds
   * no quote or line break, then the closing quote.
   */
  predicate QuotedAt(text: seq<char>, at: int, body: string) {
    0 <= at && at + |body| + 2 <= |text| && text[at] == '\'' &&
    text[at + 1..at + 1 + |body|] == body && text[at + 1 + |body|] == '\'' &&
    InLanguage(StringPattern, body)
  }

  /**
   * The string tokens `ts` were read, in order, from complete literals starting
   * at the positions `ps`: each token holds the body of its literal, and each
   * literal ends before the next one starts, the last one by `to`.
   */
  predicate ReadInOrder(text: seq<char>, ts: seq<Token>, ps: seq<int>, to: int) {
    |ps| == |ts| &&
    (forall i :: 0 <= i < |ts| ==> ts[i].StringToken? && QuotedAt(text, ps[i], ts[i].value)) &&
    (forall i :: 0 <= i < |ts| ==> ps[i] + |ts[i].value| + 2 <= if i + 1 < |ts| then ps[i + 1] else to)
  }

  // ---------------------------------------------------------------------------
  // Lexical steps
  // ---------------------------------------------------------------------------

  /**
   * `Regex` is anchored at the cursor: a match covers `[c, end)`, is a word of the
   * pattern and the longest prefix that is one, and stays pushed as a frame at
   * its end; without a match no prefix is a word and the stack is as it was.
   */
  lemma {:induction false} RegexAnchored(text: seq<char>, frames: Stack, re: Pattern)
    requires IsStack(frames, |text|)
    ensures var r := Regex(text, frames, re);
      (r.value.Ok? ==>
        r.value.value.start == frames.top && r.frames == Push(frames, r.value.value.end) &&
        MatchRange(text, r.value.value) == text[frames.top..r.value.value.end] &&
        InLanguage(re, text[frames.top..r.value.value.end]) &&
        forall k :: r.value.value.end < k <= |text| ==> !InLanguage(re, text[frames.top..k])) &&
      (r.value.Err? ==>
        r.frames == frames && r.value.msg == "expected regex match" &&
        forall k :: frames.top <= k <= |text| ==> !InLanguage(re, text[frames.top..k]))
  {
    MatchLengthIsLongestMatch(re, text, frames.top);
  }

  /**
   * `Literal` reads the whole identifier at the cursor, leaving two frames at its
   * end; when none starts there it fails and leaves the stack as it was.
   */
  lemma {:induction false} LiteralAnchored(text: seq<char>, frames: Stack)
    requires IsStack(frames, |text|)
    ensures var r := Literal(text, frames); var c := frames.top;
      (r.value.Ok? ==>
        r.frames == Push(Push(frames, c), c + |r.value.value|) &&
        r.value.value == text[c..r.frames.top] && InLanguage(LiteralPattern, r.value.value) &&
        (r.frames.top == |text| || !IsIdentifierPart(text[r.frames.top]))) &&
      (r.value.Err? ==>
        r.frames == frames && r.value.msg == "expected literal" &&
        (c == |text| || !IsIdentifierStart(text[c])))
  {
    var c := frames.top;
    if c < |text| && IsIdentifierStart(text[c]) {
      LiteralFound(text, frames);
    } else {
      assert Literal(text, frames) == Scan(Err("expected literal"), frames);
    }
  }

  lemma {:induction false} LiteralFound(text: seq<char>, frames: Stack)
    requires IsStack(frames, |text|) && frames.top < |text| && IsIdentifierStart(text[frames.top])
    ensures var r := Literal(text, frames); var c := frames.top;
      var e := c + 1 + RunLength(text, c + 1, IdentifierPart);
      r == Scan(Ok(text[c..e]), Push(Push(frames, c), e)) &&
      InLanguage(LiteralPattern, text[c..e]) &&
      (e == |text| || !IsIdentifierPart(text[e]))
  {
    var c := frames.top;
    var e := c + 1 + RunLength(text, c + 1, IdentifierPart);
    LiteralLongest(text, c);
    RunLengthIsRun(text, c + 1, IdentifierPart);
    assert e == |text| || !InClass(text[e], IdentifierPart);
    var saved := Save(frames);
    SaveIsStack(frames, |text|);
    var scan := Regex(text, saved, LiteralPattern);
    assert scan.value == Ok(Span(c, e));
    assert scan.frames == Push(saved, e);
    assert MatchRange(text, Span(c, e)) == text[c..e];
  }

  /**
   * `AcceptNewLineToken` reads the whole run of line breaks at the cursor as one
   * token; when there is none it fails and leaves the stack as it was.
   */
  lemma {:induction false} NewLineAnchored(text: seq<char>, frames: Stack)
    requires IsStack(frames, |text|)
    ensures var r := NewLine(text, frames); var c := frames.top;
      (r.err.None? ==>
        r.frames == Push(Push(frames, c), r.frames.top) && c < r.frames.top &&
        r.tokens == [NewLineToken(text[c..r.frames.top])] && IsLayout(r.tokens[0]) &&
        (r.frames.top == |text| || !IsLineBreak(text[r.frames.top]))) &&
      (r.err.Some? ==>
        r == Outcome(frames, [], Some("expected newline(s)")) &&
        (c == |text| || !IsLineBreak(text[c])))
  {
    RegexAnchored(text, Save(frames), NewLinePattern);
    RunLengthIsRun(text, frames.top, LineBreak);
  }

  // ---------------------------------------------------------------------------
  // String literals and expressions
  // ---------------------------------------------------------------------------

  /** Without a left quote at the cursor `AcceptStringToken` fails and leaves the stack as it was. */
  lemma {:induction false} StringLiteralNoQuote(text: seq<char>, frames: Stack)
    requires IsStack(frames, |text|)
    requires frames.top == |text| || text[frames.top] != '\''
    ensures StringLiteral(text, frames) == Outcome(frames, [], Some("expected left quote"))
  {
    NoQuoteAt(text, frames.top);
    assert Matches(text, Save(frames), "'") == None;
  }

  /**
   * A quoted body without quotes or line breaks yields exactly one string token
   * holding the body, and the cursor ends after the closing quote.
   */
  lemma {:induction false} StringLiteralQuoted(text: seq<char>, frames: Stack, body: string)
    requires IsStack(frames, |text|)
    requires var c := frames.top;
      c + |body| + 2 <= |text| && text[c] == '\'' && text[c + 1..c + 1 + |body|] == body &&
      text[c + 1 + |body|] == '\'' && InLanguage(StringPattern, body)
    ensures var c := frames.top;
      StringLiteral(text, frames) == Outcome(Push(Push(frames, c + 1), c + |body| + 2), [StringToken(body)], None)
  {
    var c := frames.top;
    var e := c + 1 + |body|;
    StringBody(text, c + 1, body);
    var left := Push(frames, c + 1);
    MatchesAtOne(text, c, "'");
    assert Matches(text, Save(frames), "'") == Some(left);
    assert Regex(text, left, StringPattern) == Scan(Ok(Span(c + 1, e)), Push(left, e));
    MatchesAtOne(text, e, "'");
    assert Matches(text, Push(left, e), "'") == Some(Push(left, e + 1));
  }

  /**
   * A string whose closing quote is missing fails with "expected right quote",
   * yet keeps its token, and the stack it leaves is one frame deeper, resting
   * one past the opening quote: the failure does not restore the cursor.
   */
  lemma {:induction false} StringLiteralUnclosed(text: seq<char>, frames: Stack, body: string)
    requires IsStack(frames, |text|)
    requires var c := frames.top;
      c + |body| + 1 <= |text| && text[c] == '\'' && text[c + 1..c + 1 + |body|] == body &&
      InLanguage(StringPattern, body) && (c + 1 + |body| == |text| || IsLineBreak(text[c + 1 + |body|]))
    ensures var c := frames.top;
      StringLiteral(text, frames) == Outcome(Push(frames, c + 1), [StringToken(body)], Some("expected right quote"))
  {
    var c := frames.top;
    var e := c + 1 + |body|;
    StringBody(text, c + 1, body);
    var left := Push(frames, c + 1);
    MatchesAtOne(text, c, "'");
    assert Matches(text, Save(frames), "'") == Some(left);
    var scan := Regex(text, left, StringPattern);
    assert scan.value == Ok(Span(c + 1, e));
    assert scan.frames == Push(left, e);
    assert MatchRange(text, scan.value.value) == body;
    NoQuoteAt(text, e);
    assert Matches(text, Push(left, e), "'") == None;
  }

  /** No quote occurs at the end of the text or at a character other than a quote. */
  lemma NoQuoteAt(text: seq<char>, at: int)
    requires 0 <= at <= |text|
    requires at == |text| || text[at] != '\''
    ensures !MatchesAt(text, at, "'")
  {
    if at < |text| {
      EqualFoldNonLetter(text[at], '\'');
    }
    MatchesAtOne(text, at, "'");
  }

  /** The string pattern at `at` matches exactly `body` when a quote, a line break or the end follows it. */
  lemma {:induction false} StringBody(text: seq<char>, at: nat, body: string)
    requires at + |body| <= |text| && text[at..at + |body|] == body && InLanguage(StringPattern, body)
    requires at + |body| == |text| || !IsStringChar(text[at + |body|])
    ensures RunLength(text, at, StringChar) == |body|
  {
    forall i | at <= i < at + |body|
      ensures InClass(text[i], StringChar)
    {
      assert text[i] == body[i - at];
    }
    RunLengthExactly(text, at, |body|, StringChar);
  }

  /**
   * `AcceptExpressionToken` keeps a string literal only when it is complete: on
   * success one string token and progress; on failure no token, "expected
   * expression" and the cursor back where it was.
   */
  lemma {:induction false} ExpressionShape(text: seq<char>, frames: Stack)
    requires IsStack(frames, |text|)
    ensures var r := Expression(text, frames);
      (r.err.None? ==> |r.tokens| == 1 && IsStringValue(r.tokens[0]) && frames.top < r.frames.top) &&
      (r.err.Some? ==> r.tokens == [] && r.err == Some("expected expression") && r.frames.top == frames.top)
  {
    var saved := Save(frames);
    var c := frames.top;
    if c < |text| && text[c] == '\'' {
      var body := QuoteBody(text, c);
      if c + 1 + |body| < |text| && text[c + 1 + |body|] == '\'' {
        StringLiteralQuoted(text, saved, body);
      } else {
        StringLiteralUnclosed(text, saved, body);
      }
    } else {
      StringLiteralNoQuote(text, saved);
    }
  }

  /**
   * After a quote, the longest run of string characters is the literal's body:
   * a closing quote, a line break or the end of the text follows it.
   */
  lemma {:induction false} QuoteBody(text: seq<char>, c: nat) returns (body: string)
    requires c < |text| && text[c] == '\''
    ensures c + |body| + 1 <= |text| && text[c + 1..c + 1 + |body|] == body && InLanguage(StringPattern, body)
    ensures c + 1 + |body| == |text| || IsLineBreak(text[c + 1 + |body|]) || text[c + 1 + |body|] == '\''
  {
    var e := c + 1 + RunLength(text, c + 1, StringChar);
    body := text[c + 1..e];
    StringLongest(text, c + 1);
    RunLengthIsRun(text, c + 1, StringChar);
    assert e == |text| || !InClass(text[e], StringChar);
  }

  /**
   * A complete literal at the cursor is read as one expression: one string
   * token holding its body, and the cursor after the closing quote.
   */
  lemma {:induction false} ExpressionQuoted(text: seq<char>, frames: Stack, body: string)
    requires IsStack(frames, |text|) && QuotedAt(text, frames.top, body)
    ensures var c := frames.top;
      Expression(text, frames) ==
      Outcome(Push(Push(Push(frames, c), c + 1), c + |body| + 2), [StringToken(body)], None)
  {
    SaveIsStack(frames, |text|);
    StringLiteralQuoted(text, Save(frames), body);
  }

  /**
   * Conversely, a successful expression read a complete literal at the cursor:
   * its one token holds the literal's body and the cursor ends after it.
   */
  lemma {:induction false} ExpressionRead(text: seq<char>, frames: Stack)
    requires IsStack(frames, |text|)
    ensures var r := Expression(text, frames);
      r.err.None? ==>
        |r.tokens| == 1 && r.tokens[0].StringToken? && QuotedAt(text, frames.top, r.tokens[0].value) &&
        r.frames.top == frames.top + |r.tokens[0].value| + 2
  {
    var c := frames.top;
    if c < |text| && text[c] == '\'' {
      var body := QuoteBody(text, c);
      if c + 1 + |body| < |text| && text[c + 1 + |body|] == '\'' {
        ExpressionQuoted(text, frames, body);
      } else {
        ExpressionFails(text, frames, body);
      }
    } else {
      SaveIsStack(frames, |text|);
      StringLiteralNoQuote(text, Save(frames));
    }
  }

  /** An unclosed literal at the cursor is no expression. */
  lemma ExpressionFails(text: seq<char>, frames: Stack, body: string)
    requires IsStack(frames, |text|)
    requires var c := frames.top;
      c + |body| + 1 <= |text| && text[c] == '\'' && text[c + 1..c + 1 + |body|] == body &&
      InLanguage(StringPattern, body) && (c + 1 + |body| == |text| || IsLineBreak(text[c + 1 + |body|]))
    ensures Expression(text, frames).err.Some?
  {
    SaveIsStack(frames, |text|);
    StringLiteralUnclosed(text, Save(frames), body);
  }

  // ---------------------------------------------------------------------------
  // Blank runs and continuations
  // ---------------------------------------------------------------------------

  /**
   * `AcceptWhitespaceToken` yields layout tokens only, each holding the text it
   * covers; it fails only with "expected whitespace", and then with no tokens.
   */
  lemma {:induction false} WhitespaceLayout(text: seq<char>, frames: Stack)
    requires IsStack(frames, |text|)
    ensures var r := Whitespace(text, frames);
      AllLayout(r.tokens) && (r.err.Some? ==> r.tokens == [] && r.err == Some("expected whitespace"))
    decreases |text| - frames.top, 4
  {
    var saved := Save(frames);
    SaveIsStack(frames, |text|);
    var scan := Regex(text, saved, WhitespacePattern);
    RegexAnchored(text, saved, WhitespacePattern);
    ContinuationLayout(text, scan.frames);
  }

  /**
   * `AcceptContinuationToken` yields layout tokens only (no token marks the
   * continuation itself); it fails with "expected newline" or "expected
   * continuation literal '1'".
   */
  lemma {:induction false} ContinuationLayout(text: seq<char>, frames: Stack)
    requires IsStack(frames, |text|)
    ensures var r := Continuation(text, frames);
      AllLayout(r.tokens) &&
      (r.err.Some? ==> r.err == Some("expected newline") || r.err == Some("expected continuation literal '1'"))
    decreases |text| - frames.top, 2
  {
    var saved := Save(frames);
    SaveIsStack(frames, |text|);
    var newLines := NewLine(text, saved);
    NewLineAnchored(text, saved);
    if JoinsAny(newLines) {
      GrowsAdvances(saved, newLines.frames, |text|);
      ContinuationRestLayout(text, saved, newLines.frames, Joined([], newLines));
    }
  }

  lemma {:induction false} ContinuationRestLayout(text: seq<char>, saved: Stack, frames: Stack, tokens: seq<Token>)
    requires IsStack(saved, |text|) && Advances(saved, frames, |text|) && saved.top < frames.top
    requires AllLayout(tokens)
    ensures var r := ContinuationRest(text, saved, frames, tokens);
      AllLayout(r.tokens) && (r.err.Some? ==> r.err == Some("expected continuation literal '1'"))
    decreases |text| - saved.top, 0
  {
    var blanks := Whitespace(text, frames);
    WhitespaceLayout(text, frames);
    var mark := Matches(text, blanks.frames, "1");
    if mark.Some? {
      WhitespaceLayout(text, mark.value);
    }
  }

  /** `cls` holds for the `n` characters of `text` from `from` on. */
  predicate AllIn(text: seq<char>, from: nat, n: nat, cls: CharClass)
    requires from + n <= |text|
  {
    forall i :: from <= i < from + n ==> InClass(text[i], cls)
  }

  /** A run of exactly `n` line breaks is read as one token, leaving two frames at its end. */
  lemma {:induction false} NewLineRun(text: seq<char>, frames: Stack, n: nat)
    requires IsStack(frames, |text|)
    requires var c := frames.top;
      0 < n && c + n <= |text| && AllIn(text, c, n, LineBreak) &&
      (c + n == |text| || !IsLineBreak(text[c + n]))
    ensures var c := frames.top;
      NewLine(text, frames) == Outcome(Push(Push(frames, c), c + n), [NewLineToken(text[c..c + n])], None)
  {
    var c := frames.top;
    RunLengthExactly(text, c, n, LineBreak);
    var scan := Regex(text, Save(frames), NewLinePattern);
    assert scan.value == Ok(Span(c, c + n));
    assert scan.frames == Push(Push(frames, c), c + n);
  }

  /** Where no line break follows, `AcceptContinuationToken` fails and leaves the stack as it was. */
  lemma {:induction false} ContinuationNoBreak(text: seq<char>, frames: Stack)
    requires IsStack(frames, |text|)
    requires frames.top == |text| || !IsLineBreak(text[frames.top])
    ensures Continuation(text, frames) == Outcome(frames, [], Some("expected newline"))
  {
    NewLineAnchored(text, Save(frames));
  }

  /**
   * A run of exactly `n` blanks followed by neither a blank nor a line break is
   * read as one whitespace token, the continuation after it failing; two frames
   * stay at its end.
   */
  lemma {:induction false} WhitespaceRun(text: seq<char>, frames: Stack, n: nat)
    requires IsStack(frames, |text|)
    requires var c := frames.top;
      0 < n && c + n <= |text| && AllIn(text, c, n, Blank) &&
      (c + n == |text| || (!IsBlank(text[c + n]) && !IsLineBreak(text[c + n])))
    ensures var c := frames.top;
      Whitespace(text, frames) == Outcome(Push(Push(frames, c), c + n), [WhitespaceToken(text[c..c + n])], None)
  {
    var c := frames.top;
    RunLengthExactly(text, c, n, Blank);
    var scan := Regex(text, Save(frames), WhitespacePattern);
    assert scan.value == Ok(Span(c, c + n));
    assert scan.frames == Push(Push(frames, c), c + n);
    ContinuationNoBreak(text, scan.frames);
  }

  /**
   * A continuation whose line breaks and blanks are not followed by the mark
   * '1' fails, yet does not restore the cursor: the stack it leaves is four
   * frames deeper, resting after the line breaks.
   */
  lemma {:induction false} ContinuationLeak(text: seq<char>, frames: Stack, n: nat, m: nat)
    requires IsStack(frames, |text|)
    requires var c := frames.top;
      0 < n && 0 < m && c + n + m <= |text| && AllIn(text, c, n, LineBreak) && AllIn(text, c + n, m, Blank) &&
      (c + n + m == |text| ||
       (!IsBlank(text[c + n + m]) && !IsLineBreak(text[c + n + m]) && text[c + n + m] != '1'))
    ensures var c := frames.top;
      Continuation(text, frames).frames == Push(Push(Push(Push(frames, c), c), c + n), c + n)
  {
    SaveIsStack(frames, |text|);
    ContinuationBodyLeak(text, Save(frames), n, m);
    FinishFailed(frames, ContinuationBody(text, Save(frames)), |text|);
  }

  /** A production that fails pops the top frame its body left, and only that one. */
  lemma FinishFailed(frames: Stack, body: Outcome, length: int)
    requires IsStack(frames, length) && Advances(Save(frames), body.frames, length) && body.err.Some?
    ensures body.frames.Push?
    ensures Finish(frames, body, length) == Outcome(body.frames.below, body.tokens, body.err)
  {
  }

  /**
   * What the same failing continuation reports: the tokens of its line breaks
   * and blanks, and the missing mark.
   */
  lemma {:induction false} ContinuationLeakTokens(text: seq<char>, frames: Stack, n: nat, m: nat)
    requires IsStack(frames, |text|)
    requires var c := frames.top;
      0 < n && 0 < m && c + n + m <= |text| && AllIn(text, c, n, LineBreak) && AllIn(text, c + n, m, Blank) &&
      (c + n + m == |text| ||
       (!IsBlank(text[c + n + m]) && !IsLineBreak(text[c + n + m]) && text[c + n + m] != '1'))
    ensures var c := frames.top; var r := Continuation(text, frames);
      r.tokens == [NewLineToken(text[c..c + n]), WhitespaceToken(text[c + n..c + n + m])] &&
      r.err == Some("expected continuation literal '1'")
  {
    SaveIsStack(frames, |text|);
    ContinuationBodyLeak(text, Save(frames), n, m);
  }

  /** `ContinuationLeak` before the deferred pop: the body leaves one more frame, after the blanks. */
  lemma {:induction false} ContinuationBodyLeak(text: seq<char>, saved: Stack, n: nat, m: nat)
    requires IsStack(saved, |text|)
    requires var c := saved.top;
      0 < n && 0 < m && c + n + m <= |text| && AllIn(text, c, n, LineBreak) && AllIn(text, c + n, m, Blank) &&
      (c + n + m == |text| ||
       (!IsBlank(text[c + n + m]) && !IsLineBreak(text[c + n + m]) && text[c + n + m] != '1'))
    ensures var c := saved.top;
      ContinuationBody(text, saved) ==
      Outcome(Push(Push(Push(Push(saved, c), c + n), c + n), c + n + m),
              [NewLineToken(text[c..c + n]), WhitespaceToken(text[c + n..c + n + m])],
              Some("expected continuation literal '1'"))
  {
    var c := saved.top;
    NewLineRun(text, saved, n);
    var newLines := Push(Push(saved, c), c + n);
    var first := NewLine(text, saved);
    assert first.frames == newLines;
    GrowsAdvances(saved, newLines, |text|);
    var tokens := [NewLineToken(text[c..c + n])];
    assert Joined([], first) == tokens;
    ContinuationUnmarked(text, saved, newLines, tokens, m);
    assert ContinuationBody(text, saved) == ContinuationRest(text, saved, newLines, tokens);
  }

  /** The part of `ContinuationLeak` after the line breaks: blanks, and no mark. */
  lemma {:induction false} ContinuationUnmarked(text: seq<char>, saved: Stack, frames: Stack, tokens: seq<Token>, m: nat)
    requires IsStack(saved, |text|) && Advances(saved, frames, |text|) && saved.top < frames.top
    requires var f := frames.top;
      0 < m && f + m <= |text| && AllIn(text, f, m, Blank) &&
      (f + m == |text| || (!IsBlank(text[f + m]) && !IsLineBreak(text[f + m]) && text[f + m] != '1'))
    ensures var f := frames.top;
      ContinuationRest(text, saved, frames, tokens) ==
      Outcome(Push(Push(frames, f), f + m), tokens + [WhitespaceToken(text[f..f + m])], Some("expected continuation literal '1'"))
  {
    var f := frames.top;
    WhitespaceRun(text, frames, m);
    if f + m < |text| {
      EqualFoldNonLetter(text[f + m], '1');
    }
    MatchesAtOne(text, f + m, "1");
    assert Matches(text, Push(Push(frames, f), f + m), "1") == None;
  }

  // ---------------------------------------------------------------------------
  // Comments and primitive calls
  // ---------------------------------------------------------------------------

  /**
   * `AcceptCommentToken`: on success, the layout tokens of the leading blanks
   * and then the comment, read from where the blanks end up to the end of its
   * line; on failure "expected comment", keeping only layout tokens.
   */
  lemma {:induction false} CommentShape(text: seq<char>, frames: Stack)
    requires IsStack(frames, |text|)
    ensures var r := Comment(text, frames); var p := Whitespace(text, Save(frames)).frames.top;
      (r.err.None? ==>
         LayoutBeforeLast(r.tokens) && IsComment(r.tokens[|r.tokens| - 1]) &&
         p + |r.tokens[|r.tokens| - 1].value| == r.frames.top && text[p..r.frames.top] == r.tokens[|r.tokens| - 1].value &&
         (r.frames.top == |text| || IsLineBreak(text[r.frames.top]))) &&
      (r.err.Some? ==> AllLayout(r.tokens) && r.err == Some("expected comment"))
  {
    var saved := Save(frames);
    SaveIsStack(frames, |text|);
    var blanks := Whitespace(text, saved);
    WhitespaceLayout(text, saved);
    var tokens := Joined([], blanks);
    var scan := Regex(text, blanks.frames, CommentPattern);
    RegexAnchored(text, blanks.frames, CommentPattern);
    if scan.value.Ok? {
      var t := CommentToken(MatchRange(text, scan.value.value));
      assert (tokens + [t])[..|tokens|] == tokens;
      CommentToLineEnd(text, blanks.frames.top, scan.value.value.end);
    }
  }

  /** The longest comment at `p` ends at the end of the text or at a line break. */
  lemma CommentToLineEnd(text: seq<char>, p: int, end: int)
    requires 0 <= p <= end <= |text| && InLanguage(CommentPattern, text[p..end])
    requires forall k :: end < k <= |text| ==> !InLanguage(CommentPattern, text[p..k])
    ensures end == |text| || IsLineBreak(text[end])
  {
    if end < |text| && !IsLineBreak(text[end]) {
      var longer := text[p..end + 1];
      assert longer == text[p..end] + [text[end]];
      assert InLanguage(CommentPattern, longer);
    }
  }

  /**
   * The argument loop of a primitive call never fails, and appends to `values`
   * the tokens of the complete literals it reads: the first at the cursor, each
   * next one after the one before, and all of them before the cursor it leaves.
   */
  lemma {:induction false} ArgumentsShape(text: seq<char>, frames: Stack, values: seq<Token>) returns (ps: seq<int>)
    requires IsStack(frames, |text|)
    ensures var r := Arguments(text, frames, values);
      r.err.None? && |values| <= |r.tokens| && r.tokens[..|values|] == values &&
      ReadInOrder(text, r.tokens[|values|..], ps, r.frames.top) && (|ps| > 0 ==> ps[0] == frames.top)
    decreases |text| - frames.top
  {
    var r := Arguments(text, frames, values);
    var expression := Expression(text, frames);
    ExpressionRead(text, frames);
    if JoinsAny(expression) {
      var joined := values + expression.tokens;
      var beforeComma := Whitespace(text, expression.frames);
      var comma := Matches(text, beforeComma.frames, ",");
      if comma.Some? {
        var afterComma := Whitespace(text, comma.value);
        assert r == Arguments(text, afterComma.frames, joined);
        var more := ArgumentsShape(text, afterComma.frames, joined);
        ps := [frames.top] + more;
        ReadAfterJoined(text, values, expression.tokens[0], frames.top, r.tokens, more, afterComma.frames.top, r.frames.top);
      } else {
        ps := [frames.top];
        assert r.tokens[|values|..] == expression.tokens;
      }
    } else {
      ps := [];
      assert r.tokens[|values|..] == [];
    }
  }

  /**
   * The tokens `all` keep `values` and the token `t` of a literal read at `p`,
   * and then hold tokens read in order from `from` on.
   */
  lemma ReadAfterJoined(text: seq<char>, values: seq<Token>, t: Token, p: int, all: seq<Token>, ps: seq<int>, from: int, to: int)
    requires t.StringToken? && QuotedAt(text, p, t.value) && p + |t.value| + 2 <= from <= to
    requires |values| + 1 <= |all| && all[..|values| + 1] == values + [t]
    requires ReadInOrder(text, all[|values| + 1..], ps, to) && (|ps| > 0 ==> ps[0] == from)
    ensures all[..|values|] == values
    ensures ReadInOrder(text, all[|values|..], [p] + ps, to)
  {
    assert all[..|values|] == (values + [t])[..|values|];
    assert all[|values|..] == [t] + all[|values| + 1..];
    ReadInOrderCons(text, t, p, all[|values| + 1..], ps, from, to);
  }

  /** One more literal read in front of literals read in order. */
  lemma ReadInOrderCons(text: seq<char>, t: Token, p: int, ts: seq<Token>, ps: seq<int>, from: int, to: int)
    requires t.StringToken? && QuotedAt(text, p, t.value) && p + |t.value| + 2 <= from <= to
    requires ReadInOrder(text, ts, ps, to) && (|ps| > 0 ==> ps[0] == from)
    ensures ReadInOrder(text, [t] + ts, [p] + ps, to)
  {
    var all := [t] + ts;
    forall i | 0 < i < |all|
      ensures all[i] == ts[i - 1] && ([p] + ps)[i] == ps[i - 1]
    {
    }
  }

  /** The argument loop never fails, and keeps `values` in front of the string tokens it appends. */
  lemma {:induction false} ArgumentsKeep(text: seq<char>, frames: Stack, values: seq<Token>)
    requires IsStack(frames, |text|)
    ensures var r := Arguments(text, frames, values);
      r.err.None? && |values| <= |r.tokens| && r.tokens[..|values|] == values &&
      AllStringValues(r.tokens[|values|..])
    decreases |text| - frames.top
  {
    var expression := Expression(text, frames);
    ExpressionShape(text, frames);
    if JoinsAny(expression) {
      var joined := values + expression.tokens;
      var beforeComma := Whitespace(text, expression.frames);
      var comma := Matches(text, beforeComma.frames, ",");
      if comma.Some? {
        var afterComma := Whitespace(text, comma.value);
        var rest := Arguments(text, afterComma.frames, joined);
        assert Arguments(text, frames, values) == rest;
        ArgumentsKeep(text, afterComma.frames, joined);
        AppendedStrings(values, expression.tokens, rest.tokens);
      } else {
        assert Arguments(text, frames, values).tokens == joined;
        AppendedStrings(values, expression.tokens, joined);
      }
    } else {
      assert Arguments(text, frames, values).tokens == values;
      assert values[|values|..] == [];
    }
  }

  /** Appending string tokens in two steps appends string tokens. */
  lemma AppendedStrings(values: seq<Token>, more: seq<Token>, all: seq<Token>)
    requires AllStringValues(more)
    requires |values + more| <= |all| && all[..|values + more|] == values + more
    requires AllStringValues(all[|values + more|..])
    ensures |values| <= |all| && all[..|values|] == values && AllStringValues(all[|values|..])
  {
    assert all[..|values|] == (values + more)[..|values|];
    forall i | |values| <= i < |all|
      ensures IsStringValue(all[i])
    {
      if i < |values + more| {
        assert all[i] == (values + more)[i] == more[i - |values|];
      } else {
        assert all[i] == all[|values + more|..][i - |values + more|];
      }
    }
  }

  /** The argument loop appends a token exactly when an expression starts where it starts. */
  lemma {:induction false} ArgumentsAppendIff(text: seq<char>, frames: Stack, values: seq<Token>)
    requires IsStack(frames, |text|)
    ensures |values| < |Arguments(text, frames, values).tokens| <==> JoinsAny(Expression(text, frames))
  {
    var expression := Expression(text, frames);
    if JoinsAny(expression) {
      var joined := values + expression.tokens;
      var beforeComma := Whitespace(text, expression.frames);
      var comma := Matches(text, beforeComma.frames, ",");
      if comma.Some? {
        var afterComma := Whitespace(text, comma.value);
        ArgumentsKeep(text, afterComma.frames, joined);
      }
    }
  }

  /**
   * A primitive call after its keyword: on success exactly one call token is
   * appended, of the given kind, holding the bodies of the one or more
   * complete literals read after the keyword, in order; on failure the tokens
   * are kept and the error says which part was missing.
   */
  lemma {:induction false} PrimitiveCallRestShape(text: seq<char>, frames: Stack, kind: string, tokens: seq<Token>)
    returns (ps: seq<int>)
    requires IsStack(frames, |text|) && (kind == "print" || kind == "type")
    ensures var r := PrimitiveCallRest(text, frames, kind, tokens);
      (r.err.None? ==>
         |r.tokens| == |tokens| + 1 && r.tokens[..|tokens|] == tokens &&
         IsPrimitiveCall(r.tokens[|tokens|]) && r.tokens[|tokens|].kind == kind &&
         ReadInOrder(text, r.tokens[|tokens|].values, ps, r.frames.top) && frames.top < ps[0]) &&
      (r.err.Some? ==>
         r.tokens == tokens &&
         r.err.value in {"expected whitespace", "expected '*'", "expected ','", "expected 1 or more expressions"})
  {
    ps := [];
    var gap := Whitespace(text, frames);
    if gap.err.None? {
      var star := Matches(text, gap.frames, "*");
      if star.Some? {
        var beforeComma := Whitespace(text, star.value);
        var comma := Matches(text, beforeComma.frames, ",");
        if comma.Some? {
          var afterComma := Whitespace(text, comma.value);
          ps := ArgumentsShape(text, afterComma.frames, []);
          var arguments := Arguments(text, afterComma.frames, []);
          assert arguments.tokens[0..] == arguments.tokens;
          StringTokensRead(text, arguments.tokens, ps, arguments.frames.top);
          assert (tokens + [PrimitiveCallToken(kind, arguments.tokens)])[..|tokens|] == tokens;
        }
      }
    }
  }

  /** Tokens read in order from complete literals are string values. */
  lemma StringTokensRead(text: seq<char>, ts: seq<Token>, ps: seq<int>, to: int)
    requires ReadInOrder(text, ts, ps, to)
    ensures AllStringValues(ts)
  {
  }

  /**
   * `AcceptPrimitiveCallToken`: on success, the layout tokens of the leading
   * blanks and then one call token whose kind is the keyword, `print` or
   * `type`, found at `p`, where the blanks end, and whose arguments are the
   * bodies of the literals after it, in order; on failure only layout tokens and
   * the error of the missing part.
   */
  lemma {:induction false} PrimitiveCallShape(text: seq<char>, frames: Stack) returns (p: int, ps: seq<int>)
    requires IsStack(frames, |text|)
    ensures var r := PrimitiveCall(text, frames);
      (r.err.None? ==>
         LayoutBeforeLast(r.tokens) && IsPrimitiveCall(r.tokens[|r.tokens| - 1]) &&
         p == Whitespace(text, Save(frames)).frames.top && MatchesAt(text, p, r.tokens[|r.tokens| - 1].kind) &&
         ReadInOrder(text, r.tokens[|r.tokens| - 1].values, ps, r.frames.top) &&
         p + |r.tokens[|r.tokens| - 1].kind| < ps[0]) &&
      (r.err.Some? ==>
         AllLayout(r.tokens) &&
         r.err.value in {"expected primitive call statement", "expected whitespace", "expected '*'",
                         "expected ','", "expected 1 or more expressions"})
  {
    SaveIsStack(frames, |text|);
    p, ps := PrimitiveCallBodyShape(text, Save(frames));
  }

  lemma {:induction false} PrimitiveCallBodyShape(text: seq<char>, saved: Stack) returns (p: int, ps: seq<int>)
    requires IsStack(saved, |text|)
    ensures var r := PrimitiveCallBody(text, saved);
      (r.err.None? ==>
         LayoutBeforeLast(r.tokens) && IsPrimitiveCall(r.tokens[|r.tokens| - 1]) &&
         p == Whitespace(text, saved).frames.top && MatchesAt(text, p, r.tokens[|r.tokens| - 1].kind) &&
         ReadInOrder(text, r.tokens[|r.tokens| - 1].values, ps, r.frames.top) &&
         p + |r.tokens[|r.tokens| - 1].kind| < ps[0]) &&
      (r.err.Some? ==>
         AllLayout(r.tokens) &&
         r.err.value in {"expected primitive call statement", "expected whitespace", "expected '*'",
                         "expected ','", "expected 1 or more expressions"})
  {
    var blanks := Whitespace(text, saved);
    WhitespaceLayout(text, saved);
    var tokens := Joined([], blanks);
    p, ps := blanks.frames.top, [];
    var printed := Matches(text, blanks.frames, "print");
    if printed.Some? {
      ps := KeywordCallRead(text, printed.value, "print", tokens);
    } else {
      var typed := Matches(text, blanks.frames, "type");
      if typed.Some? {
        ps := KeywordCallRead(text, typed.value, "type", tokens);
      }
    }
  }

  /** The rest of a primitive call after layout tokens and its keyword, `kind`, which ends at the cursor. */
  lemma {:induction false} KeywordCallRead(text: seq<char>, frames: Stack, kind: string, tokens: seq<Token>)
    returns (ps: seq<int>)
    requires IsStack(frames, |text|) && (kind == "print" || kind == "type") && AllLayout(tokens)
    ensures var r := PrimitiveCallRest(text, frames, kind, tokens);
      (r.err.None? ==>
         LayoutBeforeLast(r.tokens) && IsPrimitiveCall(r.tokens[|r.tokens| - 1]) &&
         r.tokens[|r.tokens| - 1].kind == kind &&
         ReadInOrder(text, r.tokens[|r.tokens| - 1].values, ps, r.frames.top) && frames.top < ps[0]) &&
      (r.err.Some? ==>
         AllLayout(r.tokens) &&
         r.err.value in {"expected whitespace", "expected '*'", "expected ','", "expected 1 or more expressions"})
  {
    ps := PrimitiveCallRestShape(text, frames, kind, tokens);
    LayoutThenLast(tokens, PrimitiveCallRest(text, frames, kind, tokens).tokens);
  }

  /** Layout tokens and one more token after them, or the layout tokens alone. */
  lemma LayoutThenLast(tokens: seq<Token>, all: seq<Token>)
    requires AllLayout(tokens)
    requires all == tokens || (|all| == |tokens| + 1 && all[..|tokens|] == tokens)
    ensures all == tokens ==> AllLayout(all)
    ensures all != tokens ==> LayoutBeforeLast(all) && all[|all| - 1] == all[|tokens|]
  {
  }

  // ---------------------------------------------------------------------------
  // Statements and programs
  // ---------------------------------------------------------------------------

  /**
   * The statement loop never fails: it keeps the tokens gathered so far and
   * appends statement tokens only.
   */
  lemma {:induction false} StatementsShape(text: seq<char>, frames: Stack, tokens: seq<Token>)
    requires IsStack(frames, |text|) && AllStatementTokens(tokens)
    ensures var r := Statements(text, frames, tokens);
      r.err.None? && AllStatementTokens(r.tokens) &&
      |tokens| <= |r.tokens| && r.tokens[..|tokens|] == tokens
    decreases |text| - frames.top, 3
  {
    var step := Statement(text, frames, 0);
    StatementShape(text, frames, 0);
    if |step.tokens| > 0 {
      var joined := tokens + step.tokens;
      assert AllStatementTokens(joined);
      StatementsShape(text, step.frames, joined);
      var rest := Statements(text, step.frames, joined);
      assert rest.tokens[..|tokens|] == joined[..|tokens|] == tokens;
    }
  }

  /** Whatever alternative a pass of the statement loop takes, its tokens are statement tokens. */
  lemma {:induction false} StatementShape(text: seq<char>, frames: Stack, first: nat)
    requires IsStack(frames, |text|) && first < Alternatives
    ensures AllStatementTokens(Statement(text, frames, first).tokens)
    decreases |text| - frames.top, 2, Alternatives - first
  {
    var tried := Alternative(text, frames, first);
    AlternativeShape(text, frames, first);
    if !JoinsAny(tried) && first < Alternatives - 1 {
      StatementShape(text, tried.frames, first + 1);
    }
  }

  /** Each alternative of a statement, when it succeeds, yields statement tokens only. */
  lemma {:induction false} AlternativeShape(text: seq<char>, frames: Stack, alternative: nat)
    requires IsStack(frames, |text|) && alternative < Alternatives
    ensures var r := Alternative(text, frames, alternative);
      r.err.None? ==> AllStatementTokens(r.tokens)
    decreases |text| - frames.top, 2, 0
  {
    if alternative == 0 {
      WhitespaceLayout(text, frames);
    } else if alternative == 1 {
      NewLineAnchored(text, frames);
    } else if alternative == 2 {
      CommentShape(text, frames);
      var r := Comment(text, frames);
      if r.err.None? {
        LastAfterLayout(r.tokens);
      }
    } else if alternative == 3 {
      var _, _ := PrimitiveCallShape(text, frames);
      var r := PrimitiveCall(text, frames);
      if r.err.None? {
        LastAfterLayout(r.tokens);
      }
    } else {
      ProgramShape(text, frames);
    }
  }

  /** Layout tokens followed by a statement token are statement tokens. */
  lemma LastAfterLayout(ts: seq<Token>)
    requires LayoutBeforeLast(ts) && IsStatementToken(ts[|ts| - 1])
    ensures AllStatementTokens(ts)
  {
    forall i | 0 <= i < |ts| - 1
      ensures IsStatementToken(ts[i])
    {
      assert ts[..|ts| - 1][i] == ts[i];
    }
  }

  /**
   * `AcceptProgramToken`: on success exactly one program token, named by an
   * identifier and holding statement tokens, after the keyword `program` at the
   * cursor. It fails at the head with no tokens, or at the end with the token
   * already built.
   */
  lemma {:induction false} ProgramShape(text: seq<char>, frames: Stack)
    requires IsStack(frames, |text|)
    ensures var r := Program(text, frames);
      (r.err.None? ==>
         |r.tokens| == 1 && r.tokens[0].ProgramToken? && IsStatementToken(r.tokens[0]) &&
         MatchesAt(text, frames.top, "program")) &&
      (r.err.Some? ==>
         (r.tokens == [] && r.err.value in {"expected 'program'", "expected whitespace", "expected literal"}) ||
         (|r.tokens| == 1 && IsStatementToken(r.tokens[0]) && r.err == Some("did not find end program statement")))
    decreases |text| - frames.top, 1
  {
    SaveIsStack(frames, |text|);
    ProgramBodyShape(text, Save(frames));
  }

  lemma {:induction false} ProgramBodyShape(text: seq<char>, saved: Stack)
    requires IsStack(saved, |text|)
    ensures var r := ProgramBody(text, saved);
      (r.err.None? ==>
         |r.tokens| == 1 && r.tokens[0].ProgramToken? && IsStatementToken(r.tokens[0]) &&
         MatchesAt(text, saved.top, "program")) &&
      (r.err.Some? ==>
         (r.tokens == [] && r.err.value in {"expected 'program'", "expected whitespace", "expected literal"}) ||
         (|r.tokens| == 1 && IsStatementToken(r.tokens[0]) && r.err == Some("did not find end program statement")))
    decreases |text| - saved.top, 0
  {
    var head := ProgramHead(text, saved);
    ProgramHeadShape(text, saved);
    if head.value.Ok? {
      ProgramEndShape(text, saved, head.frames, head.value.value);
    }
  }

  /**
   * The head of a program statement: the keyword `program` at the cursor, at
   * least one blank, and the program's name, the whole identifier that starts
   * where the blanks end; or the error of the part missing.
   */
  lemma {:induction false} ProgramHeadShape(text: seq<char>, saved: Stack)
    requires IsStack(saved, |text|)
    ensures var r := ProgramHead(text, saved);
      (r.value.Ok? ==>
         var name := r.value.value; var q := r.frames.top - |name|;
         MatchesAt(text, saved.top, "program") && saved.top + 7 < q && q <= r.frames.top &&
         text[q..r.frames.top] == name && InLanguage(LiteralPattern, name) &&
         (r.frames.top == |text| || !IsIdentifierPart(text[r.frames.top]))) &&
      (r.value.Err? ==> r.value.msg in {"expected 'program'", "expected whitespace", "expected literal"})
  {
    var keyword := Matches(text, saved, "program");
    if keyword.Some? {
      var gap := Whitespace(text, keyword.value);
      if gap.err.None? {
        LiteralAnchored(text, gap.frames);
      }
    }
  }

  /**
   * The program once its name is read: one program token holding exactly the
   * statements the statement loop read, whether or not `endprogram` or
   * `end program` follows them; success means one of the two starts where the
   * loop stopped, and the cursor is right after it.
   */
  lemma {:induction false} ProgramEndShape(text: seq<char>, saved: Stack, frames: Stack, name: string)
    requires Advances(saved, frames, |text|) && saved.top < frames.top
    requires InLanguage(LiteralPattern, name)
    ensures var r := ProgramEnd(text, saved, frames, name); var body := Statements(text, frames, []);
      |r.tokens| == 1 && r.tokens[0].ProgramToken? && r.tokens[0].name == name && IsStatementToken(r.tokens[0]) &&
      r.tokens[0].statements == body.tokens &&
      (r.err.None? ==>
         (r.frames.top - 10 == body.frames.top && MatchesAt(text, body.frames.top, "endprogram")) ||
         (r.frames.top - 11 == body.frames.top && MatchesAt(text, body.frames.top, "end program"))) &&
      (r.err.Some? ==> r.err == Some("did not find end program statement") && r.frames == body.frames)
    decreases |text| - frames.top, 4
  {
    var statements := Statements(text, frames, []);
    StatementsShape(text, frames, []);
    var t := ProgramToken(name, Joined([], statements));
    assert IsStatementToken(t);
    var c := statements.frames.top;
    var ending := Matches(text, statements.frames, "endprogram");
    var spaced := Matches(text, statements.frames, "end program");
    if ending.Some? {
      assert ProgramEnd(text, saved, frames, name) == Outcome(ending.value, [t], None);
      assert ending.value.top - 10 == c;
    } else if spaced.Some? {
      assert ProgramEnd(text, saved, frames, name) == Outcome(spaced.value, [t], None);
      assert spaced.value.top - 11 == c;
    } else {
      assert ProgramEnd(text, saved, frames, name) == Outcome(statements.frames, [t], Some("did not find end program statement"));
    }
  }

  /**
   * `Parse`: statement tokens only; it fails exactly when it found no
   * statement, and then with "no statements found".
   */
  lemma ParseShape(text: seq<char>, frames: Stack)
    requires IsStack(frames, |text|)
    ensures var r := Parse(text, frames);
      AllStatementTokens(r.tokens) &&
      (r.err.Some? <==> r.tokens == []) &&
      (r.err.Some? ==> r.err == Some("no statements found"))
  {
    StatementsShape(text, frames, []);
  }

  // ---------------------------------------------------------------------------
  // Text where no statement starts
  // ---------------------------------------------------------------------------

  /** At `at` the text ends or holds neither a blank nor a line break. */
  predicate NoLayoutAt(text: seq<char>, at: nat)
    requires at <= |text|
  {
    at == |text| || (!IsBlank(text[at]) && !IsLineBreak(text[at]))
  }

  /**
   * No alternative of a statement can start at `at`: the text ends there, or
   * holds a character that is no blank, line break or '!', and no 'p' or 't' in
   * either case.
   */
  predicate NoStatementAt(text: seq<char>, at: nat)
    requires at <= |text|
  {
    at == |text| ||
    (NoLayoutAt(text, at) && text[at] != '!' && ToLower(text[at]) != 'p' && ToLower(text[at]) != 't')
  }

  /** Without a blank or a line break at the cursor `AcceptWhitespaceToken` fails and leaves the stack as it was. */
  lemma {:induction false} WhitespaceNone(text: seq<char>, frames: Stack)
    requires IsStack(frames, |text|) && NoLayoutAt(text, frames.top)
    ensures Whitespace(text, frames) == Outcome(frames, [], Some("expected whitespace"))
  {
    var saved := Save(frames);
    SaveIsStack(frames, |text|);
    RegexAnchored(text, saved, WhitespacePattern);
    ContinuationNoBreak(text, saved);
    assert WhitespaceBody(text, saved) == Outcome(saved, [], Some("expected whitespace"));
  }

  /** Without blanks or '!' at the cursor `AcceptCommentToken` fails and leaves the stack as it was. */
  lemma {:induction false} CommentNone(text: seq<char>, frames: Stack)
    requires IsStack(frames, |text|) && NoLayoutAt(text, frames.top)
    requires frames.top == |text| || text[frames.top] != '!'
    ensures Comment(text, frames) == Outcome(frames, [], Some("expected comment"))
  {
    var saved := Save(frames);
    SaveIsStack(frames, |text|);
    WhitespaceNone(text, saved);
    RegexAnchored(text, saved, CommentPattern);
  }

  /**
   * Without blanks, `print` or `type` at the cursor `AcceptPrimitiveCallToken`
   * fails and leaves the stack as it was.
   */
  lemma {:induction false} PrimitiveCallNone(text: seq<char>, frames: Stack)
    requires IsStack(frames, |text|) && NoLayoutAt(text, frames.top)
    requires frames.top == |text| || (ToLower(text[frames.top]) != 'p' && ToLower(text[frames.top]) != 't')
    ensures PrimitiveCall(text, frames) == Outcome(frames, [], Some("expected primitive call statement"))
  {
    var saved := Save(frames);
    SaveIsStack(frames, |text|);
    WhitespaceNone(text, saved);
    MatchesAtFirst(text, saved.top, "print");
    MatchesAtFirst(text, saved.top, "type");
    assert Matches(text, saved, "print") == None;
    assert Matches(text, saved, "type") == None;
    assert PrimitiveCallBody(text, saved) == Outcome(saved, [], Some("expected primitive call statement"));
  }

  /** Without `program` at the cursor `AcceptProgramToken` fails and leaves the stack as it was. */
  lemma {:induction false} ProgramNone(text: seq<char>, frames: Stack)
    requires IsStack(frames, |text|)
    requires frames.top == |text| || ToLower(text[frames.top]) != 'p'
    ensures Program(text, frames) == Outcome(frames, [], Some("expected 'program'"))
  {
    var saved := Save(frames);
    SaveIsStack(frames, |text|);
    MatchesAtFirst(text, saved.top, "program");
    assert Matches(text, saved, "program") == None;
    assert ProgramHead(text, saved) == Scan(Err("expected 'program'"), saved);
  }

  /** Where no statement starts, each alternative fails without tokens and leaves the stack as it was. */
  lemma AlternativeNone(text: seq<char>, frames: Stack, alternative: nat)
    requires IsStack(frames, |text|) && alternative < Alternatives && NoStatementAt(text, frames.top)
    ensures var r := Alternative(text, frames, alternative);
      r.frames == frames && r.tokens == [] && r.err.Some?
  {
    if alternative == 0 {
      WhitespaceNone(text, frames);
    } else if alternative == 1 {
      NewLineAnchored(text, frames);
    } else if alternative == 2 {
      CommentNone(text, frames);
    } else if alternative == 3 {
      PrimitiveCallNone(text, frames);
    } else {
      ProgramNone(text, frames);
    }
  }

  /** Where no statement starts, a pass of the statement loop yields nothing. */
  lemma {:induction false} StatementNone(text: seq<char>, frames: Stack, first: nat)
    requires IsStack(frames, |text|) && first < Alternatives && NoStatementAt(text, frames.top)
    ensures Statement(text, frames, first) == Outcome(frames, [], None)
    decreases Alternatives - first
  {
    AlternativeNone(text, frames, first);
    if first < Alternatives - 1 {
      StatementNone(text, frames, first + 1);
    }
  }

  /**
   * A text where no statement starts at the cursor (the empty text among them)
   * is rejected with "no statements found", and the stack is left as it was.
   */
  lemma ParseNone(text: seq<char>, frames: Stack)
    requires IsStack(frames, |text|) && NoStatementAt(text, frames.top)
    ensures Parse(text, frames) == Outcome(frames, [], Some("no statements found"))
  {
    StatementNone(text, frames, 0);
    assert Statements(text, frames, []) == Outcome(frames, [], None);
  }
}
