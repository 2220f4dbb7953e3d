/**
 * Exactly what the productions read from texts of given shapes: the tokens,
 * the error and where the cursor ends. Each lemma holds for any stack the
 * production may start from, so the lemmas chain from one production to the
 * next along a text.
 */
module Accepted {
  import opened Wrappers
  import opened Patterns
  import opened Tokens
  import opened Grammar
  import opened Properties

  // ---------------------------------------------------------------------------
  // Blank runs and continuations
  // ---------------------------------------------------------------------------

  /** The layout tokens a run of `m` blanks at `at` yields: none for the empty run. */
  function BlankTokens(text: seq<char>, at: nat, m: nat): (r: seq<Token>)
    requires at + m <= |text|
    ensures |r| <= 1 && (m == 0 <==> r == [])
  {
    if m == 0 then [] else [WhitespaceToken(text[at..at + m])]
  }

  /**
   * Optional blanks: a run of `m` blanks, possibly none, followed by neither a
   * blank nor a line break, adds its one token to the tokens joined so far, or
   * nothing, and moves the cursor past the run.
   */
  lemma {:induction false} OptionalBlanks(text: seq<char>, frames: Stack, at: nat, m: nat, tokens: seq<Token>)
    requires IsStack(frames, |text|) && frames.top == at
    requires at + m <= |text| && AllIn(text, at, m, Blank) && NoLayoutAt(text, at + m)
    ensures var r := Whitespace(text, frames);
      Joined(tokens, r) == tokens + BlankTokens(text, at, m) && r.frames.top == at + m &&
      (r.err.None? <==> m > 0)
  {
    if m == 0 {
      WhitespaceNone(text, frames);
    } else {
      WhitespaceRun(text, frames, m);
    }
  }

  /**
   * Where `AcceptWhitespaceToken` fails with the cursor where it was: the text
   * ends, or holds neither a blank nor a line break, or holds line breaks
   * followed by neither a blank nor the continuation mark '1'.
   */
  predicate NoWhitespaceAt(text: seq<char>, at: nat)
    requires at <= |text|
  {
    NoLayoutAt(text, at) ||
    (IsLineBreak(text[at]) &&
     var n := RunLength(text, at, LineBreak);
     at + n == |text| || (!IsBlank(text[at + n]) && text[at + n] != '1'))
  }

  /**
   * `AcceptWhitespaceToken` fails where no blank and no continuation starts:
   * no tokens, "expected whitespace", and the cursor where it was.
   */
  lemma {:induction false} WhitespaceFails(text: seq<char>, frames: Stack)
    requires IsStack(frames, |text|) && NoWhitespaceAt(text, frames.top)
    ensures var r := Whitespace(text, frames);
      r.tokens == [] && r.err == Some("expected whitespace") && r.frames.top == frames.top
  {
    var c := frames.top;
    if NoLayoutAt(text, c) {
      WhitespaceNone(text, frames);
    } else {
      var saved := Save(frames);
      SaveIsStack(frames, |text|);
      RegexAnchored(text, saved, WhitespacePattern);
      assert !InLanguage(WhitespacePattern, text[c..c + 1]);
      assert Regex(text, saved, WhitespacePattern).frames == saved;
      ContinuationUnmarkedAtBreak(text, saved);
    }
  }

  /**
   * Line breaks followed directly by neither a blank nor the mark '1': the
   * continuation fails, and after its deferred pop the cursor is back where it
   * started.
   */
  lemma {:induction false} ContinuationUnmarkedAtBreak(text: seq<char>, frames: Stack)
    requires IsStack(frames, |text|)
    requires frames.top < |text| && IsLineBreak(text[frames.top])
    requires var n := RunLength(text, frames.top, LineBreak);
      frames.top + n == |text| || (!IsBlank(text[frames.top + n]) && text[frames.top + n] != '1')
    ensures var r := Continuation(text, frames);
      r.err.Some? && r.frames.top == frames.top
  {
    var c := frames.top;
    var n := RunLength(text, c, LineBreak);
    RunLengthIsRun(text, c, LineBreak);
    SaveIsStack(frames, |text|);
    BreaksWithoutMark(text, Save(frames), n);
    ContinuationIsBody(text, frames);
  }

  /** A continuation body on exactly `n` line breaks, then neither a blank nor '1', fails with both frames of the line breaks pushed. */
  lemma {:induction false} BreaksWithoutMark(text: seq<char>, saved: Stack, n: nat)
    requires IsStack(saved, |text|)
    requires var c := saved.top;
      0 < n && c + n <= |text| && AllIn(text, c, n, LineBreak) &&
      (c + n == |text| || (!IsBlank(text[c + n]) && !IsLineBreak(text[c + n]) && text[c + n] != '1'))
    ensures var c := saved.top;
      ContinuationBody(text, saved) ==
      Outcome(Push(Push(saved, c), c + n), [NewLineToken(text[c..c + n])], Some("expected continuation literal '1'"))
  {
    var c := saved.top;
    var newLines := ContinuationAfterBreaks(text, saved, n);
    assert newLines.top == c + n;
    NoMarkRest(text, saved, newLines, [NewLineToken(text[c..c + n])]);
  }

  /**
   * `AcceptContinuationToken` on `n` line breaks, `m` optional blanks, the mark
   * '1' and `k` optional blanks, before neither a blank nor a line break: it
   * succeeds with the token of the line breaks and those of the blank runs,
   * and the cursor ends after the last blank.
   */
  lemma {:induction false} ContinuationMarked(text: seq<char>, frames: Stack, n: nat, m: nat, k: nat)
    requires IsStack(frames, |text|)
    requires var c := frames.top;
      0 < n && c + n + m + 1 + k <= |text| && AllIn(text, c, n, LineBreak) && AllIn(text, c + n, m, Blank) &&
      text[c + n + m] == '1' && AllIn(text, c + n + m + 1, k, Blank) && NoLayoutAt(text, c + n + m + 1 + k)
    ensures var c := frames.top; var r := Continuation(text, frames);
      r.tokens == [NewLineToken(text[c..c + n])] + BlankTokens(text, c + n, m) + BlankTokens(text, c + n + m + 1, k) &&
      r.err.None? && r.frames.top == c + n + m + 1 + k
  {
    var c := frames.top;
    var saved := Save(frames);
    SaveIsStack(frames, |text|);
    var newLines := ContinuationAfterBreaks(text, saved, n);
    assert newLines.top == c + n;
    var tokens := [NewLineToken(text[c..c + n])];
    MarkedRest(text, saved, newLines, tokens, m, k);
    var body := ContinuationBody(text, saved);
    assert body.tokens == tokens + BlankTokens(text, c + n, m) + BlankTokens(text, c + n + m + 1, k);
    assert body.err.None? && body.frames.top == c + n + m + 1 + k;
    ContinuationIsBody(text, frames);
  }

  /** A continuation reports what its body reports; on failure one frame is popped. */
  lemma ContinuationIsBody(text: seq<char>, frames: Stack)
    requires IsStack(frames, |text|)
    ensures var body := ContinuationBody(text, Save(frames)); var r := Continuation(text, frames);
      r.tokens == body.tokens && r.err == body.err &&
      (body.err.None? ==> r.frames == body.frames) && (body.err.Some? ==> body.frames.Push? && r.frames == body.frames.below)
  {
    SaveIsStack(frames, |text|);
    FinishGrows(frames, ContinuationBody(text, Save(frames)).frames, None, |text|);
  }

  /**
   * A continuation body on exactly `n` line breaks reads them as one token and
   * goes on with the rest of the continuation after them.
   */
  lemma {:induction false} ContinuationAfterBreaks(text: seq<char>, saved: Stack, n: nat) returns (newLines: Stack)
    requires IsStack(saved, |text|)
    requires var c := saved.top;
      0 < n && c + n <= |text| && AllIn(text, c, n, LineBreak) && (c + n == |text| || !IsLineBreak(text[c + n]))
    ensures var c := saved.top;
      newLines == Push(Push(saved, c), c + n) && Advances(saved, newLines, |text|) &&
      ContinuationBody(text, saved) == ContinuationRest(text, saved, newLines, [NewLineToken(text[c..c + n])])
  {
    var c := saved.top;
    NewLineRun(text, saved, n);
    newLines := Push(Push(saved, c), c + n);
    var first := NewLine(text, saved);
    assert first.frames == newLines;
    GrowsAdvances(saved, newLines, |text|);
    var tokens := [NewLineToken(text[c..c + n])];
    assert Joined([], first) == tokens;
  }

  /** After the line breaks, neither a blank nor the mark: the continuation fails there. */
  lemma {:induction false} NoMarkRest(text: seq<char>, saved: Stack, frames: Stack, tokens: seq<Token>)
    requires IsStack(saved, |text|) && Advances(saved, frames, |text|) && saved.top < frames.top
    requires NoLayoutAt(text, frames.top) && (frames.top == |text| || text[frames.top] != '1')
    ensures ContinuationRest(text, saved, frames, tokens) == Outcome(frames, tokens, Some("expected continuation literal '1'"))
  {
    var f := frames.top;
    WhitespaceNone(text, frames);
    if f < |text| {
      EqualFoldNonLetter(text[f], '1');
    }
    MatchesAtOne(text, f, "1");
  }

  /** The part of `ContinuationMarked` after the line breaks. */
  lemma {:induction false} MarkedRest(text: seq<char>, saved: Stack, frames: Stack, tokens: seq<Token>, m: nat, k: nat)
    requires IsStack(saved, |text|) && Advances(saved, frames, |text|) && saved.top < frames.top
    requires var f := frames.top;
      f + m + 1 + k <= |text| && AllIn(text, f, m, Blank) && text[f + m] == '1' &&
      AllIn(text, f + m + 1, k, Blank) && NoLayoutAt(text, f + m + 1 + k)
    ensures var f := frames.top; var r := ContinuationRest(text, saved, frames, tokens);
      r.tokens == tokens + BlankTokens(text, f, m) + BlankTokens(text, f + m + 1, k) &&
      r.err.None? && r.frames.top == f + m + 1 + k
  {
    var f := frames.top;
    var blanks := Whitespace(text, frames);
    OptionalBlanks(text, frames, f, m, tokens);
    assert blanks.frames.top == f + m;
    SymbolAt(text, f + m, '1');
    var mark := Matches(text, blanks.frames, "1");
    assert mark.Some? && mark.value.top == f + m + 1;
    OptionalBlanks(text, mark.value, f + m + 1, k, tokens + BlankTokens(text, f, m));
  }

  /** A character that is no letter is matched where it stands. */
  lemma SymbolAt(text: seq<char>, at: nat, ch: char)
    requires at < |text| && text[at] == ch && !('A' <= ch <= 'Z') && !('a' <= ch <= 'z')
    ensures MatchesAt(text, at, [ch])
  {
    EqualFoldNonLetter(ch, ch);
    MatchesAtOne(text, at, [ch]);
  }

  // ---------------------------------------------------------------------------
  // One pass of the statement loop
  // ---------------------------------------------------------------------------

  /**
   * At a character that is no blank, line break or '!', the first three
   * alternatives fail and leave the stack as it was.
   */
  lemma {:induction false} StatementSkips(text: seq<char>, frames: Stack)
    requires IsStack(frames, |text|)
    requires frames.top < |text| && NoLayoutAt(text, frames.top) && text[frames.top] != '!'
    ensures Statement(text, frames, 0) == Statement(text, frames, 3)
  {
    WhitespaceNone(text, frames);
    assert Statement(text, frames, 0) == Statement(text, frames, 1);
    NewLineAnchored(text, frames);
    assert Statement(text, frames, 1) == Statement(text, frames, 2);
    CommentNone(text, frames);
  }

  /** A pass of the statement loop at '!' reads the comment, up to the end of its line. */
  lemma {:induction false} StatementComment(text: seq<char>, frames: Stack)
    requires IsStack(frames, |text|) && frames.top < |text| && text[frames.top] == '!'
    ensures var c := frames.top; var r := Statement(text, frames, 0);
      r.tokens == [CommentToken(text[c..r.frames.top])] &&
      (r.frames.top == |text| || IsLineBreak(text[r.frames.top]))
  {
    WhitespaceNone(text, frames);
    assert Statement(text, frames, 0) == Statement(text, frames, 1);
    NewLineAnchored(text, frames);
    assert Statement(text, frames, 1) == Statement(text, frames, 2);
    CommentLine(text, frames);
    assert JoinsAny(Comment(text, frames));
    assert Statement(text, frames, 2) == Comment(text, frames);
  }

  /** `AcceptCommentToken` at '!' succeeds, with the one token of the rest of the line. */
  lemma {:induction false} CommentLine(text: seq<char>, frames: Stack)
    requires IsStack(frames, |text|) && frames.top < |text| && text[frames.top] == '!'
    ensures var c := frames.top; var r := Comment(text, frames);
      r.tokens == [CommentToken(text[c..r.frames.top])] && r.err.None? &&
      (r.frames.top == |text| || IsLineBreak(text[r.frames.top]))
  {
    var c := frames.top;
    var saved := Save(frames);
    SaveIsStack(frames, |text|);
    WhitespaceNone(text, saved);
    RegexAnchored(text, saved, CommentPattern);
    assert InLanguage(CommentPattern, text[c..c + 1]);
    CommentShape(text, frames);
  }

  /**
   * A pass of the statement loop at a line break where no continuation
   * starts: the whitespace alternative fails with the cursor in place, and the
   * line breaks are read as one token.
   */
  lemma {:induction false} StatementBreak(text: seq<char>, frames: Stack)
    requires IsStack(frames, |text|) && frames.top < |text| && IsLineBreak(text[frames.top])
    requires NoWhitespaceAt(text, frames.top)
    ensures var c := frames.top; var n := RunLength(text, c, LineBreak); var r := Statement(text, frames, 0);
      r.tokens == [NewLineToken(text[c..c + n])] && r.frames.top == c + n
  {
    var c := frames.top;
    var n := RunLength(text, c, LineBreak);
    RunLengthIsRun(text, c, LineBreak);
    WhitespaceFails(text, frames);
    var blanks := Whitespace(text, frames).frames;
    StatementPastWhitespace(text, frames);
    assert blanks.top == c;
    StatementNewLine(text, blanks, n);
  }

  /** Where the whitespace alternative joins nothing, a pass of the loop goes on with the next alternative. */
  lemma StatementPastWhitespace(text: seq<char>, frames: Stack)
    requires IsStack(frames, |text|) && !JoinsAny(Whitespace(text, frames))
    ensures Statement(text, frames, 0) == Statement(text, Whitespace(text, frames).frames, 1)
  {
  }

  /** From the new-line alternative on, a pass of the loop at exactly `n` line breaks reads them as one token. */
  lemma {:induction false} StatementNewLine(text: seq<char>, frames: Stack, n: nat)
    requires IsStack(frames, |text|)
    requires var c := frames.top;
      0 < n && c + n <= |text| && AllIn(text, c, n, LineBreak) && (c + n == |text| || !IsLineBreak(text[c + n]))
    ensures var c := frames.top; var r := Statement(text, frames, 1);
      r.tokens == [NewLineToken(text[c..c + n])] && r.frames.top == c + n
  {
    NewLineRun(text, frames, n);
    assert JoinsAny(NewLine(text, frames));
    assert Statement(text, frames, 1) == NewLine(text, frames);
  }

  /** A pass of the statement loop where a primitive call succeeds reads that call. */
  lemma {:induction false} StatementCall(text: seq<char>, frames: Stack)
    requires IsStack(frames, |text|)
    requires frames.top < |text| && NoLayoutAt(text, frames.top) && text[frames.top] != '!'
    requires JoinsAny(PrimitiveCall(text, frames))
    ensures Statement(text, frames, 0) == PrimitiveCall(text, frames)
  {
    StatementSkips(text, frames);
  }

  /** A pass of the statement loop where a program statement, and no primitive call, succeeds reads the program. */
  lemma {:induction false} StatementProgram(text: seq<char>, frames: Stack)
    requires IsStack(frames, |text|)
    requires frames.top < |text| && NoLayoutAt(text, frames.top) && text[frames.top] != '!'
    requires !MatchesAt(text, frames.top, "print") && !MatchesAt(text, frames.top, "type")
    requires JoinsAny(Program(text, frames))
    ensures Statement(text, frames, 0) == Program(text, frames)
  {
    StatementSkips(text, frames);
    PrimitiveCallNoKeyword(text, frames);
    assert Statement(text, frames, 3) == Statement(text, frames, 4);
  }

  /** Without blanks, `print` or `type` at the cursor `AcceptPrimitiveCallToken` fails and leaves the stack as it was. */
  lemma {:induction false} PrimitiveCallNoKeyword(text: seq<char>, frames: Stack)
    requires IsStack(frames, |text|) && NoLayoutAt(text, frames.top)
    requires !MatchesAt(text, frames.top, "print") && !MatchesAt(text, frames.top, "type")
    ensures PrimitiveCall(text, frames) == Outcome(frames, [], Some("expected primitive call statement"))
  {
    var saved := Save(frames);
    SaveIsStack(frames, |text|);
    WhitespaceNone(text, saved);
    assert Matches(text, saved, "print") == None;
    assert Matches(text, saved, "type") == None;
    assert PrimitiveCallBody(text, saved) == Outcome(saved, [], Some("expected primitive call statement"));
  }

  /** Where no statement starts, the statement loop stops and keeps the tokens gathered so far. */
  lemma {:induction false} StatementsStop(text: seq<char>, frames: Stack, tokens: seq<Token>)
    requires IsStack(frames, |text|) && NoStatementAt(text, frames.top)
    ensures Statements(text, frames, tokens) == Outcome(frames, tokens, None)
  {
    StatementNone(text, frames, 0);
  }

  /**
   * A text read whole by one pass of the statement loop parses to the tokens
   * of that pass.
   */
  lemma {:induction false} ParseOneStatement(text: seq<char>)
    requires var step := Statement(text, Bottom(0), 0); |step.tokens| > 0 && step.frames.top == |text|
    ensures var r := Parse(text, Bottom(0));
      r.tokens == Statement(text, Bottom(0), 0).tokens && r.err.None?
  {
    var step := Statement(text, Bottom(0), 0);
    StatementsGoOn(text, Bottom(0), []);
    StatementsStop(text, step.frames, [] + step.tokens);
  }

  /** A pass of the statement loop that yields tokens adds them and the loop goes on after them. */
  lemma StatementsGoOn(text: seq<char>, frames: Stack, tokens: seq<Token>)
    requires IsStack(frames, |text|) && |Statement(text, frames, 0).tokens| > 0
    ensures var step := Statement(text, frames, 0);
      Statements(text, frames, tokens) == Statements(text, step.frames, tokens + step.tokens)
  {
  }

  /** A text of one comment line, without line breaks, parses to that comment. */
  lemma {:induction false} ParseCommentLine(text: seq<char>)
    requires |text| > 0 && text[0] == '!' && forall i :: 0 <= i < |text| ==> !IsLineBreak(text[i])
    ensures var r := Parse(text, Bottom(0));
      r.tokens == [CommentToken(text)] && r.err.None?
  {
    StatementComment(text, Bottom(0));
    var step := Statement(text, Bottom(0), 0);
    assert step.frames.top == |text|;
    assert text[0..|text|] == text;
    ParseOneStatement(text);
  }

  // ---------------------------------------------------------------------------
  // Primitive calls
  // ---------------------------------------------------------------------------

  /**
   * The head of a primitive call after its keyword, at `f`: `n` blanks, '*',
   * ',' and `m` optional blanks, before neither a blank nor a line break.
   */
  predicate HeaderAt(text: seq<char>, f: nat, n: nat, m: nat) {
    0 < n && f + n + 2 + m <= |text| && AllIn(text, f, n, Blank) && text[f + n] == '*' && text[f + n + 1] == ',' &&
    AllIn(text, f + n + 2, m, Blank) && NoLayoutAt(text, f + n + 2 + m)
  }

  /**
   * With its keyword `kind` right at the cursor, `AcceptPrimitiveCallToken`
   * reports what the rest of the call after the keyword reports.
   */
  lemma {:induction false} PrimitiveCallKeyword(text: seq<char>, frames: Stack, kind: string) returns (next: Stack)
    requires IsStack(frames, |text|) && NoLayoutAt(text, frames.top)
    requires (kind == "print" && MatchesAt(text, frames.top, "print")) ||
             (kind == "type" && !MatchesAt(text, frames.top, "print") && MatchesAt(text, frames.top, "type"))
    ensures IsStack(next, |text|) && next.top == frames.top + |kind|
    ensures var rest := PrimitiveCallRest(text, next, kind, []); var r := PrimitiveCall(text, frames);
      r.tokens == rest.tokens && r.err == rest.err && (r.err.None? ==> r.frames.top == rest.frames.top)
  {
    var saved := Save(frames);
    SaveIsStack(frames, |text|);
    WhitespaceNone(text, saved);
    next := SetTop(saved, frames.top + |kind|);
    assert Matches(text, saved, kind) == Some(next);
    var rest := PrimitiveCallRest(text, next, kind, []);
    assert PrimitiveCallBody(text, saved) == rest;
  }

  /**
   * The head of a primitive call after its keyword: `n` blanks, '*', ',' and
   * `m` optional blanks. Past it, the call succeeds exactly when the argument
   * loop reads an expression.
   */
  lemma {:induction false} CallHeader(text: seq<char>, frames: Stack, kind: string, tokens: seq<Token>, n: nat, m: nat)
    returns (next: Stack)
    requires IsStack(frames, |text|) && HeaderAt(text, frames.top, n, m)
    ensures IsStack(next, |text|) && next.top == frames.top + n + 2 + m
    ensures var arguments := Arguments(text, next, []); var r := PrimitiveCallRest(text, frames, kind, tokens);
      r.frames == arguments.frames &&
      (|arguments.tokens| == 0 ==> r.tokens == tokens && r.err == Some("expected 1 or more expressions")) &&
      (|arguments.tokens| > 0 ==> r.tokens == tokens + [PrimitiveCallToken(kind, arguments.tokens)] && r.err.None?)
  {
    var star, comma;
    star, comma, next := HeaderStacks(text, frames, n, m);
    RestGoesOn(text, frames, kind, tokens, star, comma, next);
  }

  /** The stacks the head of a call passes: after the blanks and '*', after ',', and after the optional blanks. */
  lemma {:induction false} HeaderStacks(text: seq<char>, frames: Stack, n: nat, m: nat) returns (star: Stack, comma: Stack, next: Stack)
    requires IsStack(frames, |text|) && HeaderAt(text, frames.top, n, m)
    ensures IsStack(star, |text|) && IsStack(comma, |text|) && IsStack(next, |text|)
    ensures var gap := Whitespace(text, frames);
      gap.err.None? && Matches(text, gap.frames, "*") == Some(star) &&
      Matches(text, Whitespace(text, star).frames, ",") == Some(comma) && next == Whitespace(text, comma).frames
    ensures next.top == frames.top + n + 2 + m
  {
    var f := frames.top;
    star, comma := StarComma(text, frames, n, m);
    assert comma.top == f + n + 2;
    next := Whitespace(text, comma).frames;
    OptionalBlanks(text, comma, f + n + 2, m, []);
    assert next.top == f + n + 2 + m;
  }

  /** `n` blanks, '*' and ',' after the keyword: the cursor passes all three. */
  lemma {:induction false} StarComma(text: seq<char>, frames: Stack, n: nat, m: nat) returns (star: Stack, comma: Stack)
    requires IsStack(frames, |text|) && HeaderAt(text, frames.top, n, m)
    ensures var gap := Whitespace(text, frames);
      gap.err.None? && Matches(text, gap.frames, "*") == Some(star) && IsStack(star, |text|) &&
      Matches(text, Whitespace(text, star).frames, ",") == Some(comma)
    ensures IsStack(comma, |text|) && comma.top == frames.top + n + 2
  {
    var f := frames.top;
    WhitespaceRun(text, frames, n);
    var gap := Push(Push(frames, f), f + n);
    SymbolAt(text, f + n, '*');
    star := SetTop(gap, f + n + 1);
    StackSetTop(gap, f + n + 1, |text|);
    WhitespaceNone(text, star);
    SymbolAt(text, f + n + 1, ',');
    comma := SetTop(star, f + n + 2);
    StackSetTop(star, f + n + 2, |text|);
  }

  /** Once the blanks, '*' and ',' are read, the call's outcome is decided by the argument loop. */
  lemma RestGoesOn(text: seq<char>, frames: Stack, kind: string, tokens: seq<Token>, star: Stack, comma: Stack, next: Stack)
    requires IsStack(frames, |text|) && IsStack(star, |text|) && IsStack(comma, |text|)
    requires var gap := Whitespace(text, frames);
      gap.err.None? && Matches(text, gap.frames, "*") == Some(star) &&
      Matches(text, Whitespace(text, star).frames, ",") == Some(comma) && next == Whitespace(text, comma).frames
    ensures var arguments := Arguments(text, next, []); var r := PrimitiveCallRest(text, frames, kind, tokens);
      r.frames == arguments.frames &&
      (|arguments.tokens| == 0 ==> r.tokens == tokens && r.err == Some("expected 1 or more expressions")) &&
      (|arguments.tokens| > 0 ==> r.tokens == tokens + [PrimitiveCallToken(kind, arguments.tokens)] && r.err.None?)
  {
  }

  /** Once the blanks, '*' and ',' are read, an argument loop that reads nothing makes the call fail. */
  lemma RestWithoutArguments(text: seq<char>, frames: Stack, kind: string, tokens: seq<Token>, star: Stack, comma: Stack, next: Stack)
    requires IsStack(frames, |text|) && IsStack(star, |text|) && IsStack(comma, |text|)
    requires var gap := Whitespace(text, frames);
      gap.err.None? && Matches(text, gap.frames, "*") == Some(star) &&
      Matches(text, Whitespace(text, star).frames, ",") == Some(comma) && next == Whitespace(text, comma).frames
    requires Arguments(text, next, []).tokens == []
    ensures PrimitiveCallRest(text, frames, kind, tokens) ==
      Outcome(Arguments(text, next, []).frames, tokens, Some("expected 1 or more expressions"))
  {
  }

  /**
   * A complete literal followed directly by a comma and `m` optional blanks:
   * the argument loop appends its body and goes on after the blanks.
   */
  lemma {:induction false} ArgumentsMore(text: seq<char>, frames: Stack, values: seq<Token>, body: string, m: nat)
    returns (next: Stack)
    requires IsStack(frames, |text|) && QuotedAt(text, frames.top, body)
    requires var e := frames.top + |body| + 2;
      e + 1 + m <= |text| && text[e] == ',' && AllIn(text, e + 1, m, Blank) && NoLayoutAt(text, e + 1 + m)
    ensures IsStack(next, |text|) && next.top == frames.top + |body| + 3 + m
    ensures Arguments(text, frames, values) == Arguments(text, next, values + [StringToken(body)])
  {
    var comma;
    comma, next := LiteralCommaBlanks(text, frames, values, body, m);
    ArgumentsGoOn(text, frames, values, comma, next, values + [StringToken(body)]);
  }

  /** `ArgumentsMore` up to the expression after the comma: the stacks the argument loop passes. */
  lemma {:induction false} LiteralCommaBlanks(text: seq<char>, frames: Stack, values: seq<Token>, body: string, m: nat)
    returns (comma: Stack, next: Stack)
    requires IsStack(frames, |text|) && QuotedAt(text, frames.top, body)
    requires var e := frames.top + |body| + 2;
      e + 1 + m <= |text| && text[e] == ',' && AllIn(text, e + 1, m, Blank) && NoLayoutAt(text, e + 1 + m)
    ensures IsStack(comma, |text|) && IsStack(next, |text|) && next.top == frames.top + |body| + 3 + m
    ensures var expression := Expression(text, frames); var beforeComma := Whitespace(text, expression.frames);
      JoinsAny(expression) && Matches(text, beforeComma.frames, ",") == Some(comma) &&
      next == Whitespace(text, comma).frames && values + [StringToken(body)] == values + expression.tokens
  {
    var e := frames.top + |body| + 2;
    comma := LiteralThenComma(text, frames, body);
    assert comma.top == e + 1;
    next := Whitespace(text, comma).frames;
    OptionalBlanks(text, comma, e + 1, m, []);
    assert Expression(text, frames).tokens == [StringToken(body)];
  }

  /** A complete literal followed directly by a comma: the cursor passes both. */
  lemma {:induction false} LiteralThenComma(text: seq<char>, frames: Stack, body: string) returns (comma: Stack)
    requires IsStack(frames, |text|) && QuotedAt(text, frames.top, body)
    requires var e := frames.top + |body| + 2; e < |text| && text[e] == ','
    ensures var expression := Expression(text, frames); var beforeComma := Whitespace(text, expression.frames);
      expression.tokens == [StringToken(body)] && expression.err.None? &&
      Matches(text, beforeComma.frames, ",") == Some(comma) &&
      IsStack(comma, |text|) && comma.top == frames.top + |body| + 3
  {
    var e := frames.top + |body| + 2;
    ExpressionQuoted(text, frames, body);
    var expression := Expression(text, frames);
    WhitespaceNone(text, expression.frames);
    EqualFoldNonLetter(text[e], ',');
    MatchesAtOne(text, e, ",");
    comma := SetTop(expression.frames, e + 1);
    StackSetTop(expression.frames, e + 1, |text|);
  }

  /** Once an expression and a comma are read, the argument loop goes on after the comma's blanks. */
  lemma ArgumentsGoOn(text: seq<char>, frames: Stack, values: seq<Token>, comma: Stack, next: Stack, joined: seq<Token>)
    requires IsStack(frames, |text|) && IsStack(comma, |text|) && IsStack(next, |text|)
    requires var expression := Expression(text, frames); var beforeComma := Whitespace(text, expression.frames);
      JoinsAny(expression) && Matches(text, beforeComma.frames, ",") == Some(comma) &&
      next == Whitespace(text, comma).frames && joined == values + expression.tokens
    ensures Arguments(text, frames, values) == Arguments(text, next, joined)
  {
  }

  /**
   * A complete literal followed by no comma, where no whitespace starts: the
   * argument loop appends its body and stops right after it.
   */
  lemma {:induction false} ArgumentsLast(text: seq<char>, frames: Stack, values: seq<Token>, body: string)
    requires IsStack(frames, |text|) && QuotedAt(text, frames.top, body)
    requires var e := frames.top + |body| + 2; NoWhitespaceAt(text, e) && (e == |text| || text[e] != ',')
    ensures var r := Arguments(text, frames, values);
      r.tokens == values + [StringToken(body)] && r.err.None? && r.frames.top == frames.top + |body| + 2
  {
    var e := frames.top + |body| + 2;
    ExpressionQuoted(text, frames, body);
    var expression := Expression(text, frames);
    var beforeComma := Whitespace(text, expression.frames);
    WhitespaceFails(text, expression.frames);
    if e < |text| {
      EqualFoldNonLetter(text[e], ',');
    }
    MatchesAtOne(text, e, ",");
    assert Matches(text, beforeComma.frames, ",") == None;
  }

  /** Where no quote is, the argument loop reads nothing and keeps `values`. */
  lemma {:induction false} ArgumentsNone(text: seq<char>, frames: Stack, values: seq<Token>, at: nat)
    requires IsStack(frames, |text|) && frames.top == at && (at == |text| || text[at] != '\'')
    ensures Arguments(text, frames, values).tokens == values
  {
    SaveIsStack(frames, |text|);
    StringLiteralNoQuote(text, Save(frames));
  }

  /**
   * `print *,` or `type *,` with no expression after the comma and its
   * optional blanks: the call fails with "expected 1 or more expressions" and
   * yields no token.
   */
  lemma {:induction false} PrimitiveCallNoArguments(text: seq<char>, frames: Stack, kind: string, n: nat, m: nat)
    requires IsStack(frames, |text|) && NoLayoutAt(text, frames.top)
    requires (kind == "print" && MatchesAt(text, frames.top, "print")) ||
             (kind == "type" && !MatchesAt(text, frames.top, "print") && MatchesAt(text, frames.top, "type"))
    requires var f := frames.top + |kind|;
      HeaderAt(text, f, n, m) && (f + n + 2 + m == |text| || text[f + n + 2 + m] != '\'')
    ensures var r := PrimitiveCall(text, frames);
      r.tokens == [] && r.err == Some("expected 1 or more expressions")
  {
    var keyword := PrimitiveCallKeyword(text, frames, kind);
    assert keyword.top == frames.top + |kind|;
    RestNoArguments(text, keyword, kind, n, m);
  }

  /** `PrimitiveCallNoArguments` after the keyword. */
  lemma {:induction false} RestNoArguments(text: seq<char>, frames: Stack, kind: string, n: nat, m: nat)
    requires IsStack(frames, |text|)
    requires var f := frames.top;
      HeaderAt(text, f, n, m) && (f + n + 2 + m == |text| || text[f + n + 2 + m] != '\'')
    ensures var r := PrimitiveCallRest(text, frames, kind, []);
      r.tokens == [] && r.err == Some("expected 1 or more expressions")
  {
    var star, comma, next := HeaderStacks(text, frames, n, m);
    RestWithoutArguments(text, frames, kind, [], star, comma, next) by {
      ArgumentsNone(text, next, [], next.top);
    }
  }

  // ---------------------------------------------------------------------------
  // Programs
  // ---------------------------------------------------------------------------

  /**
   * The head of a program statement on `program`, `n` blanks and an
   * identifier: the name read is the whole identifier.
   */
  lemma {:induction false} ProgramHeadRead(text: seq<char>, saved: Stack, n: nat)
    requires IsStack(saved, |text|) && MatchesAt(text, saved.top, "program")
    requires var q := saved.top + 7 + n;
      0 < n && q < |text| && AllIn(text, saved.top + 7, n, Blank) && IsIdentifierStart(text[q])
    ensures var q := saved.top + 7 + n; var e := q + 1 + RunLength(text, q + 1, IdentifierPart);
      var head := ProgramHead(text, saved);
      head.value == Ok(text[q..e]) && head.frames.top == e
  {
    var c := saved.top;
    var keyword := SetTop(saved, c + 7);
    assert Matches(text, saved, "program") == Some(keyword);
    StackSetTop(saved, c + 7, |text|);
    var gap := KeywordBlanks(text, keyword, n);
    LiteralFound(text, gap);
    var name := Literal(text, gap);
    assert ProgramHead(text, saved) == Scan(name.value, name.frames);
  }

  /** The blanks after the keyword `program`: exactly `n` of them, before a non-blank. */
  lemma {:induction false} KeywordBlanks(text: seq<char>, keyword: Stack, n: nat) returns (gap: Stack)
    requires IsStack(keyword, |text|)
    requires var f := keyword.top;
      0 < n && f + n < |text| && AllIn(text, f, n, Blank) && IsIdentifierStart(text[f + n])
    ensures var r := Whitespace(text, keyword);
      r.err.None? && r.frames == gap && IsStack(gap, |text|) && gap.top == keyword.top + n
  {
    WhitespaceRun(text, keyword, n);
    gap := Push(Push(keyword, keyword.top), keyword.top + n);
  }

  /**
   * A program whose statements are followed by `end program`: it succeeds,
   * with the one program token holding those statements, and the cursor ends
   * after `end program`.
   */
  lemma {:induction false} ProgramEndSpaced(text: seq<char>, saved: Stack, frames: Stack, name: string)
    requires Advances(saved, frames, |text|) && saved.top < frames.top
    requires MatchesAt(text, Statements(text, frames, []).frames.top, "end program")
    ensures var statements := Statements(text, frames, []); var r := ProgramEnd(text, saved, frames, name);
      r.tokens == [ProgramToken(name, statements.tokens)] && r.err.None? &&
      r.frames.top == statements.frames.top + 11
  {
    var statements := Statements(text, frames, []);
    var t := statements.frames.top;
    StatementsShape(text, frames, []);
    assert Joined([], statements) == statements.tokens;
    assert EqualFold(text[t + 3], "end program"[3]);
    EqualFoldNonLetter(text[t + 3], ' ');
    assert !EqualFold(text[t + 3], "endprogram"[3]);
    assert Matches(text, statements.frames, "endprogram") == None;
  }
}
