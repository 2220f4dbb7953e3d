/**
 * The meaning of every production of the parser, as a function of the text and
 * the cursor stack it starts from. Each production pushes a copy of the
 * current position, works on that copy, and when it fails pops exactly one
 * frame again (the deferred `DeleteCursor`); when it succeeds its frame stays.
 * The result is an `Outcome`: the stack it leaves, the tokens it produced and
 * its error (None for nil).
 */
module Grammar {
  import opened Wrappers
  import opened Patterns
  import opened Tokens

  /** A matched region of the text: from `start` up to but excluding `end`. */
  datatype Span = Span(start: int, end: int)

  /**
   * The live cursor frames, as a stack: the bottom frame, and frames pushed on
   * top of it. `top` is the frame the parser currently reads from.
   */
  datatype Stack = Bottom(top: int) | Push(below: Stack, top: int)

  /** What a production leaves behind. */
  datatype Outcome = Outcome(frames: Stack, tokens: seq<Token>, err: Option<string>)

  /** What a lexical step leaves behind: its value or error, and the stack. */
  datatype Scan<T> = Scan(value: Result<T>, frames: Stack)

  // ---------------------------------------------------------------------------
  // The cursor stack
  // ---------------------------------------------------------------------------

  /**
   * A cursor stack over a text of `length` characters: every frame a position
   * in the text, and no frame behind the frame below it.
   */
  ghost predicate IsStack(s: Stack, length: int) {
    0 <= s.top <= length &&
    (s.Push? ==> s.below.top <= s.top && IsStack(s.below, length))
  }

  /** `SaveCursor`: a copy of the current position pushed on top. */
  function Save(s: Stack): (r: Stack)
    ensures r.Push? && r.below == s && r.top == s.top
  {
    Push(s, s.top)
  }

  /** `DeleteCursor`: the top frame popped when there is an error, nothing otherwise. */
  function Delete(s: Stack, err: Option<string>): (r: Stack)
    requires err.Some? ==> s.Push?
    ensures err.None? ==> r == s
    ensures err.Some? ==> r == s.below
  {
    if err.Some? then s.below else s
  }

  /** `SetCursor`: the top frame replaced by `value`, the frames below kept. */
  function SetTop(s: Stack, value: int): (r: Stack)
    ensures r.top == value && r.Push? == s.Push?
    ensures r.Push? ==> r.below == s.below
  {
    match s
    case Bottom(_) => Bottom(value)
    case Push(below, _) => Push(below, value)
  }

  /** `s` is `lower` with zero or more frames pushed on top of it. */
  ghost predicate OnTopOf(lower: Stack, s: Stack) {
    s == lower || (s.Push? && OnTopOf(lower, s.below))
  }

  /**
   * `s` is `lower` with the frame of `lower`'s top moved forward, and zero or
   * more frames pushed on top of that.
   */
  ghost predicate Moved(lower: Stack, s: Stack) {
    (s == SetTop(lower, s.top) && lower.top <= s.top) || (s.Push? && Moved(lower, s.below))
  }

  /**
   * `s` grew out of `lower` on top: none of the frames of `lower` was touched,
   * and the position did not move backwards.
   */
  ghost predicate Grows(lower: Stack, s: Stack, length: int) {
    IsStack(s, length) && OnTopOf(lower, s) && lower.top <= s.top
  }

  /**
   * `s` grew out of `lower`, where the top frame of `lower` may have moved
   * forward (as `SetCursor` moves it) but all frames below it are untouched.
   */
  ghost predicate Advances(lower: Stack, s: Stack, length: int) {
    IsStack(s, length) && Moved(lower, s) && lower.top <= s.top
  }

  lemma StackSetTop(s: Stack, x: int, length: int)
    requires IsStack(s, length) && s.top <= x <= length
    ensures IsStack(SetTop(s, x), length)
  {
  }

  /** Frames pushed on a stack lie on a stack and never behind its top. */
  lemma {:induction false} OnTopOfIsStack(lower: Stack, s: Stack, length: int)
    requires IsStack(s, length) && OnTopOf(lower, s)
    ensures IsStack(lower, length) && lower.top <= s.top
  {
    if s != lower {
      OnTopOfIsStack(lower, s.below, length);
    }
  }

  /** Whatever grew out of a saved frame sits on top of the frame it copied. */
  lemma {:induction false} MovedFromSave(lower: Stack, x: int, s: Stack)
    requires Moved(Push(lower, x), s)
    ensures s.Push? && OnTopOf(lower, s.below)
  {
    if s != SetTop(Push(lower, x), s.top) || x > s.top {
      MovedFromSave(lower, x, s.below);
    }
  }

  /**
   * The deferred pop that closes a production: if the stack advanced from the
   * production's own saved frame, then after popping on an error the caller's
   * stack has only grown.
   */
  lemma FinishGrows(frames: Stack, body: Stack, err: Option<string>, length: int)
    requires IsStack(frames, length) && Advances(Save(frames), body, length)
    ensures body.Push?
    ensures Grows(frames, Delete(body, err), length)
  {
    MovedFromSave(frames, frames.top, body);
    OnTopOfIsStack(frames, body.below, length);
  }

  lemma {:induction false} OnTopOfTrans(a: Stack, b: Stack, c: Stack)
    requires OnTopOf(a, b) && OnTopOf(b, c)
    ensures OnTopOf(a, c)
  {
    if c != b {
      OnTopOfTrans(a, b, c.below);
    }
  }

  lemma GrowsTrans(a: Stack, b: Stack, c: Stack, length: int)
    requires Grows(a, b, length) && Grows(b, c, length)
    ensures Grows(a, c, length)
  {
    OnTopOfTrans(a, b, c);
  }

  lemma {:induction false} MovedTrans(a: Stack, b: Stack, c: Stack)
    requires Moved(a, b) && Moved(b, c)
    ensures Moved(a, c)
  {
    if c == SetTop(b, c.top) && b.top <= c.top {
      if !(b == SetTop(a, b.top) && a.top <= b.top) {
        assert c.below == b.below;
      }
    } else {
      MovedTrans(a, b, c.below);
    }
  }

  lemma AdvancesTrans(a: Stack, b: Stack, c: Stack, length: int)
    requires Advances(a, b, length) && Advances(b, c, length)
    ensures Advances(a, c, length)
  {
    MovedTrans(a, b, c);
  }

  lemma {:induction false} MovedThenOnTop(a: Stack, b: Stack, c: Stack)
    requires Moved(a, b) && OnTopOf(b, c)
    ensures Moved(a, c)
  {
    if c != b {
      MovedThenOnTop(a, b, c.below);
    }
  }

  lemma AdvancesThenGrows(a: Stack, b: Stack, c: Stack, length: int)
    requires Advances(a, b, length) && Grows(b, c, length)
    ensures Advances(a, c, length)
  {
    MovedThenOnTop(a, b, c);
  }

  lemma {:induction false} OnTopMoved(a: Stack, b: Stack)
    requires OnTopOf(a, b)
    ensures Moved(a, b)
  {
    if b != a {
      OnTopMoved(a, b.below);
    }
  }

  lemma GrowsAdvances(a: Stack, b: Stack, length: int)
    requires Grows(a, b, length)
    ensures Advances(a, b, length)
  {
    OnTopMoved(a, b);
  }

  /** Two steps of growth make one step of advance. */
  lemma GrowsTwice(a: Stack, b: Stack, c: Stack, length: int)
    requires Grows(a, b, length) && Grows(b, c, length)
    ensures Advances(a, c, length)
  {
    GrowsTrans(a, b, c, length);
    GrowsAdvances(a, c, length);
  }

  /** `Advances` from a stack to itself. */
  lemma AdvancesItself(s: Stack, length: int)
    requires IsStack(s, length)
    ensures Advances(s, s, length)
  {
  }

  /** The saved frame of a production is a stack that advances nothing yet. */
  lemma SaveIsStack(s: Stack, length: int)
    requires IsStack(s, length)
    ensures IsStack(Save(s), length) && Advances(Save(s), Save(s), length)
  {
  }

  /** The outcome of a production whose body, run on its saved frame, gave `body`. */
  ghost function Finish(frames: Stack, body: Outcome, length: int): (r: Outcome)
    requires IsStack(frames, length) && Advances(Save(frames), body.frames, length)
    ensures Grows(frames, r.frames, length)
    ensures r.tokens == body.tokens && r.err == body.err
    ensures r.err.None? ==> r.frames == body.frames
  {
    FinishGrows(frames, body.frames, body.err, length);
    Outcome(Delete(body.frames, body.err), body.tokens, body.err)
  }

  /** The tokens a forest holds after `JoinIgnoreError` with an outcome. */
  function Joined(tokens: seq<Token>, o: Outcome): (r: seq<Token>)
    ensures o.err.Some? ==> r == tokens
    ensures o.err.None? ==> r == tokens + o.tokens
  {
    if o.err.None? then tokens + o.tokens else tokens
  }

  /** The answer of `JoinIgnoreError`: no error and at least one token. */
  predicate JoinsAny(o: Outcome) {
    o.err.None? && |o.tokens| > 0
  }

  // ---------------------------------------------------------------------------
  // Lexical steps
  // ---------------------------------------------------------------------------

  /**
   * `Matches`: when `lit` occurs (ignoring case) at the current position, the
   * stack with its top moved past it; None, and no change, otherwise.
   */
  ghost function Matches(text: seq<char>, frames: Stack, lit: string): (r: Option<Stack>)
    requires IsStack(frames, |text|) && |lit| > 0
    ensures r.Some? ==> Advances(frames, r.value, |text|) && r.value.top == frames.top + |lit|
  {
    if MatchesAt(text, frames.top, lit) then
      StackSetTop(frames, frames.top + |lit|, |text|);
      Some(SetTop(frames, frames.top + |lit|))
    else None
  }

  /**
   * `Regex`: the anchored match of `re` at the current position. A match is
   * returned as the span it covers and leaves one more frame, at its end; no
   * match leaves the stack as it was.
   */
  ghost function Regex(text: seq<char>, frames: Stack, re: Pattern): (r: Scan<Span>)
    requires IsStack(frames, |text|)
    ensures Grows(frames, r.frames, |text|)
    ensures r.value.Ok? ==> r.value.value.start == frames.top && r.value.value.end == r.frames.top
    ensures r.value.Ok? && re != StringPattern ==> frames.top < r.frames.top
  {
    var saved := Save(frames);
    var cursor := saved.top;
    var m := MatchLength(re, text, cursor);
    if m.None? then
      assert Delete(saved, Some("expected regex match")) == frames;
      Scan(Err("expected regex match"), Delete(saved, Some("expected regex match")))
    else
      Scan(Ok(Span(cursor, cursor + m.value)), Delete(SetTop(saved, cursor + m.value), None))
  }

  /** `MatchRange`: the text a span covers, cut off at the end of the text. */
  function MatchRange(text: seq<char>, loc: Span): (s: string)
    requires 0 <= loc.start <= loc.end && loc.start <= |text|
    ensures |s| == (if loc.end <= |text| then loc.end else |text|) - loc.start
    ensures s == text[loc.start..loc.start + |s|]
  {
    if loc.end >= |text| then text[loc.start..] else text[loc.start..loc.end]
  }

  /** `Literal`: an identifier at the current position. */
  ghost function Literal(text: seq<char>, frames: Stack): (r: Scan<string>)
    requires IsStack(frames, |text|)
    ensures Grows(frames, r.frames, |text|)
    ensures r.value.Ok? ==> frames.top < r.frames.top
    ensures r.value.Err? ==> r.value.msg == "expected literal"
  {
    SaveIsStack(frames, |text|);
    var saved := Save(frames);
    var scan := Regex(text, saved, LiteralPattern);
    var value: Result<string> := if scan.value.Err? then Err("expected literal") else Ok(MatchRange(text, scan.value.value));
    GrowsAdvances(saved, scan.frames, |text|);
    Scan(value, Finish(frames, Outcome(scan.frames, [], value.Error()), |text|).frames)
  }

  // ---------------------------------------------------------------------------
  // The productions
  // ---------------------------------------------------------------------------

  /** `AcceptNewLineToken`: a run of line breaks. */
  ghost function NewLine(text: seq<char>, frames: Stack): (r: Outcome)
    requires IsStack(frames, |text|)
    ensures Grows(frames, r.frames, |text|)
    ensures r.err.None? ==> frames.top < r.frames.top
  {
    SaveIsStack(frames, |text|);
    var saved := Save(frames);
    var scan := Regex(text, saved, NewLinePattern);
    GrowsAdvances(saved, scan.frames, |text|);
    var body :=
      if scan.value.Err? then Outcome(scan.frames, [], Some("expected newline(s)"))
      else Outcome(scan.frames, [NewLineToken(MatchRange(text, scan.value.value))], None);
    Finish(frames, body, |text|)
  }

  /**
   * `AcceptStringToken`: a quote, a body without quotes or line breaks, and a
   * closing quote. Once the body is read its token is in the forest, even when
   * the closing quote is missing.
   */
  ghost function StringLiteral(text: seq<char>, frames: Stack): (r: Outcome)
    requires IsStack(frames, |text|)
    ensures Grows(frames, r.frames, |text|)
    ensures r.err.None? ==> frames.top < r.frames.top
  {
    SaveIsStack(frames, |text|);
    var saved := Save(frames);
    var left := Matches(text, saved, "'");
    var body := (
      if left.None? then Outcome(saved, [], Some("expected left quote"))
      else
        var scan := Regex(text, left.value, StringPattern);
        AdvancesThenGrows(saved, left.value, scan.frames, |text|);
        if scan.value.Err? then Outcome(scan.frames, [], Some("expected string value"))
        else
          var tokens := [StringToken(MatchRange(text, scan.value.value))];
          var right := Matches(text, scan.frames, "'");
          if right.None? then Outcome(scan.frames, tokens, Some("expected right quote"))
          else
            AdvancesTrans(saved, scan.frames, right.value, |text|);
            Outcome(right.value, tokens, None));
    Finish(frames, body, |text|)
  }

  /** `AcceptExpressionToken`: a string literal, kept only when it is complete. */
  ghost function Expression(text: seq<char>, frames: Stack): (r: Outcome)
    requires IsStack(frames, |text|)
    ensures Grows(frames, r.frames, |text|)
    ensures r.err.None? ==> frames.top < r.frames.top
  {
    SaveIsStack(frames, |text|);
    var saved := Save(frames);
    var literal := StringLiteral(text, saved);
    GrowsAdvances(saved, literal.frames, |text|);
    var tokens := Joined([], literal);
    var body :=
      if JoinsAny(literal) then Outcome(literal.frames, tokens, None)
      else Outcome(literal.frames, tokens, Some("expected expression"));
    Finish(frames, body, |text|)
  }

  /**
   * `AcceptWhitespaceToken`: a run of blanks followed by an optional
   * continuation, or a continuation alone.
   */
  ghost function Whitespace(text: seq<char>, frames: Stack): (r: Outcome)
    requires IsStack(frames, |text|)
    ensures Grows(frames, r.frames, |text|)
    ensures r.err.None? ==> frames.top < r.frames.top
    decreases |text| - frames.top, 4
  {
    SaveIsStack(frames, |text|);
    Finish(frames, WhitespaceBody(text, Save(frames)), |text|)
  }

  /** The blank run and its continuation, between the saved frame and the deferred pop. */
  ghost function WhitespaceBody(text: seq<char>, saved: Stack): (r: Outcome)
    requires IsStack(saved, |text|)
    ensures Advances(saved, r.frames, |text|)
    ensures r.err.None? ==> saved.top < r.frames.top
    decreases |text| - saved.top, 3
  {
    var scan := Regex(text, saved, WhitespacePattern);
    var continuation := Continuation(text, scan.frames);
    GrowsTwice(saved, scan.frames, continuation.frames, |text|);
    if scan.value.Err? then
      if continuation.err.None? then Outcome(continuation.frames, continuation.tokens, None)
      else Outcome(continuation.frames, [], Some("expected whitespace"))
    else
      Outcome(continuation.frames, Joined([WhitespaceToken(MatchRange(text, scan.value.value))], continuation), None)
  }

  /**
   * `AcceptContinuationToken`: line breaks, optional blanks, the continuation
   * mark '1' and optional blanks. It yields the layout tokens it passed over;
   * no token marks the continuation itself.
   */
  ghost function Continuation(text: seq<char>, frames: Stack): (r: Outcome)
    requires IsStack(frames, |text|)
    ensures Grows(frames, r.frames, |text|)
    ensures r.err.None? ==> frames.top < r.frames.top
    decreases |text| - frames.top, 2
  {
    SaveIsStack(frames, |text|);
    Finish(frames, ContinuationBody(text, Save(frames)), |text|)
  }

  /** The continuation between the saved frame and the deferred pop. */
  ghost function ContinuationBody(text: seq<char>, saved: Stack): (r: Outcome)
    requires IsStack(saved, |text|)
    ensures Advances(saved, r.frames, |text|)
    ensures r.err.None? ==> saved.top < r.frames.top
    decreases |text| - saved.top, 1
  {
    var newLines := NewLine(text, saved);
    GrowsAdvances(saved, newLines.frames, |text|);
    var tokens := Joined([], newLines);
    if !JoinsAny(newLines) then Outcome(newLines.frames, tokens, Some("expected newline"))
    else ContinuationRest(text, saved, newLines.frames, tokens)
  }

  /**
   * The continuation once its line breaks, `tokens`, have been read up to
   * `frames`: optional blanks, the mark '1' and optional blanks.
   */
  ghost function ContinuationRest(text: seq<char>, saved: Stack, frames: Stack, tokens: seq<Token>): (r: Outcome)
    requires IsStack(saved, |text|) && Advances(saved, frames, |text|) && saved.top < frames.top
    ensures Advances(saved, r.frames, |text|)
    ensures saved.top < r.frames.top
    decreases |text| - saved.top, 0
  {
    var blanks := Whitespace(text, frames);
    AdvancesThenGrows(saved, frames, blanks.frames, |text|);
    var withBlanks := Joined(tokens, blanks);
    var mark := Matches(text, blanks.frames, "1");
    if mark.None? then Outcome(blanks.frames, withBlanks, Some("expected continuation literal '1'"))
    else
      AdvancesTrans(saved, blanks.frames, mark.value, |text|);
      var trailing := Whitespace(text, mark.value);
      AdvancesThenGrows(saved, mark.value, trailing.frames, |text|);
      Outcome(trailing.frames, Joined(withBlanks, trailing), None)
  }

  /** `AcceptCommentToken`: optional blanks, then '!' and the rest of the line. */
  ghost function Comment(text: seq<char>, frames: Stack): (r: Outcome)
    requires IsStack(frames, |text|)
    ensures Grows(frames, r.frames, |text|)
    ensures r.err.None? ==> frames.top < r.frames.top
  {
    SaveIsStack(frames, |text|);
    var saved := Save(frames);
    var blanks := Whitespace(text, saved);
    var tokens := Joined([], blanks);
    var scan := Regex(text, blanks.frames, CommentPattern);
    GrowsTwice(saved, blanks.frames, scan.frames, |text|);
    var body :=
      if scan.value.Err? then Outcome(scan.frames, tokens, Some("expected comment"))
      else Outcome(scan.frames, tokens + [CommentToken(MatchRange(text, scan.value.value))], None);
    Finish(frames, body, |text|)
  }

  /**
   * `AcceptPrimitiveCallToken`: optional blanks, the keyword `print` or `type`,
   * and then the rest of the call (`PrimitiveCallRest`).
   */
  ghost function PrimitiveCall(text: seq<char>, frames: Stack): (r: Outcome)
    requires IsStack(frames, |text|)
    ensures Grows(frames, r.frames, |text|)
    ensures r.err.None? ==> frames.top < r.frames.top
  {
    SaveIsStack(frames, |text|);
    Finish(frames, PrimitiveCallBody(text, Save(frames)), |text|)
  }

  /** The primitive call between the saved frame and the deferred pop. */
  ghost function PrimitiveCallBody(text: seq<char>, saved: Stack): (r: Outcome)
    requires IsStack(saved, |text|)
    ensures Advances(saved, r.frames, |text|)
    ensures r.err.None? ==> saved.top < r.frames.top
  {
    var blanks := Whitespace(text, saved);
    GrowsAdvances(saved, blanks.frames, |text|);
    var tokens := Joined([], blanks);
    var printed := Matches(text, blanks.frames, "print");
    if printed.Some? then
      AdvancesTrans(saved, blanks.frames, printed.value, |text|);
      var rest := PrimitiveCallRest(text, printed.value, "print", tokens);
      AdvancesTrans(saved, printed.value, rest.frames, |text|);
      rest
    else
      var typed := Matches(text, blanks.frames, "type");
      if typed.Some? then
        AdvancesTrans(saved, blanks.frames, typed.value, |text|);
        var rest := PrimitiveCallRest(text, typed.value, "type", tokens);
        AdvancesTrans(saved, typed.value, rest.frames, |text|);
        rest
      else Outcome(blanks.frames, tokens, Some("expected primitive call statement"))
  }

  /**
   * The primitive call after its keyword: blanks, '*', optional blanks, ',',
   * optional blanks and one or more comma-separated expressions. On success the
   * call token, holding the expressions, is appended to `tokens`.
   */
  ghost function PrimitiveCallRest(text: seq<char>, frames: Stack, kind: string, tokens: seq<Token>): (r: Outcome)
    requires IsStack(frames, |text|)
    ensures Advances(frames, r.frames, |text|)
  {
    var gap := Whitespace(text, frames);
    GrowsAdvances(frames, gap.frames, |text|);
    if gap.err.Some? then Outcome(gap.frames, tokens, Some("expected whitespace"))
    else
      var star := Matches(text, gap.frames, "*");
      if star.None? then Outcome(gap.frames, tokens, Some("expected '*'"))
      else
        AdvancesTrans(frames, gap.frames, star.value, |text|);
        var beforeComma := Whitespace(text, star.value);
        AdvancesThenGrows(frames, star.value, beforeComma.frames, |text|);
        var comma := Matches(text, beforeComma.frames, ",");
        if comma.None? then Outcome(beforeComma.frames, tokens, Some("expected ','"))
        else
          AdvancesTrans(frames, beforeComma.frames, comma.value, |text|);
          var afterComma := Whitespace(text, comma.value);
          AdvancesThenGrows(frames, comma.value, afterComma.frames, |text|);
          var arguments := Arguments(text, afterComma.frames, []);
          AdvancesTrans(frames, afterComma.frames, arguments.frames, |text|);
          if |arguments.tokens| == 0 then Outcome(arguments.frames, tokens, Some("expected 1 or more expressions"))
          else Outcome(arguments.frames, tokens + [PrimitiveCallToken(kind, arguments.tokens)], None)
  }

  /**
   * The argument loop of a primitive call: an expression, and while one is
   * found, optional blanks, a comma and optional blanks before the next; the
   * expressions found are appended to `values`.
   */
  ghost function Arguments(text: seq<char>, frames: Stack, values: seq<Token>): (r: Outcome)
    requires IsStack(frames, |text|)
    ensures Advances(frames, r.frames, |text|)
    decreases |text| - frames.top
  {
    var expression := Expression(text, frames);
    GrowsAdvances(frames, expression.frames, |text|);
    var joined := Joined(values, expression);
    if !JoinsAny(expression) then Outcome(expression.frames, joined, None)
    else
      var beforeComma := Whitespace(text, expression.frames);
      GrowsTwice(frames, expression.frames, beforeComma.frames, |text|);
      var comma := Matches(text, beforeComma.frames, ",");
      if comma.None? then Outcome(beforeComma.frames, joined, None)
      else
        AdvancesTrans(frames, beforeComma.frames, comma.value, |text|);
        var afterComma := Whitespace(text, comma.value);
        AdvancesThenGrows(frames, comma.value, afterComma.frames, |text|);
        var rest := Arguments(text, afterComma.frames, joined);
        AdvancesTrans(frames, afterComma.frames, rest.frames, |text|);
        rest
  }

  /**
   * `AcceptStatementTokens`: the statement loop. It runs `Statement` until that
   * yields no tokens, and never fails. `tokens` are those gathered by the
   * iterations so far.
   */
  ghost function Statements(text: seq<char>, frames: Stack, tokens: seq<Token>): (r: Outcome)
    requires IsStack(frames, |text|)
    ensures Grows(frames, r.frames, |text|)
    decreases |text| - frames.top, 3
  {
    var step := Statement(text, frames, 0);
    if |step.tokens| > 0 then
      var rest := Statements(text, step.frames, tokens + step.tokens);
      GrowsTrans(frames, step.frames, rest.frames, |text|);
      rest
    else Outcome(step.frames, tokens, None)
  }

  /** The alternatives of a statement, in the order the loop tries them. */
  const Alternatives := 5

  /** The `alternative`-th production the statement loop tries. */
  ghost function Alternative(text: seq<char>, frames: Stack, alternative: nat): (r: Outcome)
    requires IsStack(frames, |text|) && alternative < Alternatives
    ensures Grows(frames, r.frames, |text|)
    ensures r.err.None? ==> frames.top < r.frames.top
    decreases |text| - frames.top, 2, 0
  {
    if alternative == 0 then Whitespace(text, frames)
    else if alternative == 1 then NewLine(text, frames)
    else if alternative == 2 then Comment(text, frames)
    else if alternative == 3 then PrimitiveCall(text, frames)
    else Program(text, frames)
  }

  /**
   * One pass of the statement loop, from its `first`-th alternative on: the
   * tokens of the first alternative that joins any, or none when no
   * alternative does.
   */
  ghost function Statement(text: seq<char>, frames: Stack, first: nat): (r: Outcome)
    requires IsStack(frames, |text|) && first < Alternatives
    ensures Grows(frames, r.frames, |text|) && r.err.None?
    ensures |r.tokens| > 0 ==> frames.top < r.frames.top
    decreases |text| - frames.top, 2, Alternatives - first
  {
    var tried := Alternative(text, frames, first);
    if JoinsAny(tried) then tried
    else if first == Alternatives - 1 then Outcome(tried.frames, [], None)
    else
      var rest := Statement(text, tried.frames, first + 1);
      GrowsTrans(frames, tried.frames, rest.frames, |text|);
      rest
  }

  /**
   * `AcceptProgramToken`: the keyword `program`, blanks, the program's name, its
   * statements and `endprogram` or `end program`. The token is in the forest
   * once the name is read, even when the end statement is missing.
   */
  ghost function Program(text: seq<char>, frames: Stack): (r: Outcome)
    requires IsStack(frames, |text|)
    ensures Grows(frames, r.frames, |text|)
    ensures r.err.None? ==> frames.top < r.frames.top
    decreases |text| - frames.top, 1
  {
    SaveIsStack(frames, |text|);
    Finish(frames, ProgramBody(text, Save(frames)), |text|)
  }

  /** The program statement between the saved frame and the deferred pop. */
  ghost function ProgramBody(text: seq<char>, saved: Stack): (r: Outcome)
    requires IsStack(saved, |text|)
    ensures Advances(saved, r.frames, |text|)
    ensures r.err.None? ==> saved.top < r.frames.top
    decreases |text| - saved.top, 0
  {
    var head := ProgramHead(text, saved);
    if head.value.Err? then Outcome(head.frames, [], Some(head.value.msg))
    else ProgramEnd(text, saved, head.frames, head.value.value)
  }

  /** The head of a program statement: the keyword `program`, blanks and the program's name. */
  ghost function ProgramHead(text: seq<char>, saved: Stack): (r: Scan<string>)
    requires IsStack(saved, |text|)
    ensures Advances(saved, r.frames, |text|)
    ensures r.value.Ok? ==> saved.top < r.frames.top
  {
    var keyword := Matches(text, saved, "program");
    if keyword.None? then
      AdvancesItself(saved, |text|);
      Scan(Err("expected 'program'"), saved)
    else
      var gap := Whitespace(text, keyword.value);
      AdvancesThenGrows(saved, keyword.value, gap.frames, |text|);
      if gap.err.Some? then Scan(Err("expected whitespace"), gap.frames)
      else
        var name := Literal(text, gap.frames);
        AdvancesThenGrows(saved, gap.frames, name.frames, |text|);
        Scan(name.value, name.frames)
  }

  /**
   * The program statement once its name is read: the statements of its body,
   * then `endprogram` or `end program`.
   */
  ghost function ProgramEnd(text: seq<char>, saved: Stack, frames: Stack, name: string): (r: Outcome)
    requires Advances(saved, frames, |text|) && saved.top < frames.top
    ensures Advances(saved, r.frames, |text|)
    ensures r.err.None? ==> saved.top < r.frames.top
    ensures |r.tokens| == 1 && r.tokens[0].ProgramToken?
    decreases |text| - frames.top, 4
  {
    var statements := Statements(text, frames, []);
    AdvancesThenGrows(saved, frames, statements.frames, |text|);
    var program := [ProgramToken(name, Joined([], statements))];
    var ending := Matches(text, statements.frames, "endprogram");
    var spaced := Matches(text, statements.frames, "end program");
    if ending.Some? then
      AdvancesTrans(saved, statements.frames, ending.value, |text|);
      Outcome(ending.value, program, None)
    else if spaced.Some? then
      AdvancesTrans(saved, statements.frames, spaced.value, |text|);
      Outcome(spaced.value, program, None)
    else Outcome(statements.frames, program, Some("did not find end program statement"))
  }

  /** `Parse`: the statements of the text, of which there must be at least one. */
  ghost function Parse(text: seq<char>, frames: Stack): (r: Outcome)
    requires IsStack(frames, |text|)
    ensures Grows(frames, r.frames, |text|)
  {
    var statements := Statements(text, frames, []);
    if statements.err.Some? then Outcome(statements.frames, [], statements.err)
    else if |statements.tokens| == 0 then Outcome(statements.frames, [], Some("no statements found"))
    else statements
  }
}
