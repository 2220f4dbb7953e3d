/**
 * The recursive-descent parser with backtracking. A parser holds the program
 * text and a stack of cursor frames; every production pushes a copy of the
 * current position, works on that copy, and pops it again only when it fails.
 * Each method is proved to leave the stack, the tokens and the error that the
 * matching function of `Grammar` describes.
 */
module Parsing {
  import opened Wrappers
  import opened Patterns
  import opened Tokens
  import opened Grammar

  /** The stack whose frames, bottom first, are `cursors[0]` to `cursors[n]`. */
  ghost function StackOf(cursors: seq<int>, n: nat): (s: Stack)
    requires n < |cursors|
    ensures s.top == cursors[n] && (n > 0 <==> s.Push?)
  {
    if n == 0 then Bottom(cursors[0]) else Push(StackOf(cursors, n - 1), cursors[n])
  }

  /** The stack of the first `n + 1` frames depends on those frames alone. */
  lemma {:induction false} StackOfPrefix(a: seq<int>, b: seq<int>, n: nat)
    requires n < |a| && n < |b| && forall i :: 0 <= i <= n ==> a[i] == b[i]
    ensures StackOf(a, n) == StackOf(b, n)
  {
    if n > 0 {
      StackOfPrefix(a, b, n - 1);
    }
  }

  class Parser {
    const text: seq<char>
    var cursors: seq<int>
    var currentCursor: nat

    /** The live cursor stack: the frames up to the current one. */
    ghost function Frames(): Stack
      reads this
      requires currentCursor < |cursors|
    {
      StackOf(cursors, currentCursor)
    }

    ghost predicate Valid()
      reads this
    {
      currentCursor < |cursors| && IsStack(Frames(), |text|)
    }

    /** `CreateParser`: sixteen zeroed frames, of which the first is live. */
    constructor (text: seq<char>)
      ensures Valid() && this.text == text
      ensures |cursors| == 16 && Frames() == Bottom(0) && Cursor() == 0
    {
      this.text := text;
      cursors := seq(16, _ => 0);
      currentCursor := 0;
    }

    /** The current position: the top frame of the stack. */
    function Cursor(): (c: int)
      reads this
      requires Valid()
      ensures 0 <= c <= |text|
      ensures c == Frames().top
    {
      cursors[currentCursor]
    }

    /**
     * Pushes a copy of the current position and returns it; when the frames in
     * store are used up, one more is appended.
     */
    method SaveCursor() returns (cursor: int)
      requires Valid()
      modifies this
      ensures Valid()
      ensures Frames() == Save(old(Frames()))
      ensures cursor == Cursor() == old(Cursor())
    {
      ghost var frames := Frames();
      if currentCursor + 1 >= |cursors| {
        cursors := cursors + [cursors[currentCursor]];
      } else {
        cursors := cursors[currentCursor + 1 := cursors[currentCursor]];
      }
      StackOfPrefix(old(cursors), cursors, currentCursor);
      currentCursor := currentCursor + 1;
      SaveIsStack(frames, |text|);
      cursor := cursors[currentCursor];
    }

    /** Pops the top frame when `err` reports a failure, and does nothing otherwise. */
    method DeleteCursor(err: Option<string>)
      requires Valid()
      requires err.Some? ==> currentCursor > 0
      modifies this
      ensures Valid() && cursors == old(cursors)
      ensures Frames() == Delete(old(Frames()), err)
    {
      if err.Some? {
        ghost var frames := Frames();
        currentCursor := currentCursor - 1;
      }
    }

    /** Moves the current position to `value`; the frames below stay. */
    method SetCursor(value: int)
      requires Valid() && Cursor() <= value <= |text|
      modifies this
      ensures Valid() && currentCursor == old(currentCursor)
      ensures Frames() == SetTop(old(Frames()), value)
    {
      ghost var frames := Frames();
      cursors := cursors[currentCursor := value];
      if currentCursor > 0 {
        StackOfPrefix(old(cursors), cursors, currentCursor - 1);
      }
      StackSetTop(frames, value, |text|);
    }

    /** The character at `index`, or an (empty) error outside the text. */
    function CharacterAtIndex(index: int): (r: Result<char>)
      ensures r.Ok? <==> 0 <= index < |text|
      ensures r.Ok? ==> r.value == text[index]
      ensures r.Err? ==> r.msg == ""
    {
      if index >= |text| || index < 0 then Err("") else Ok(text[index])
    }

    /**
     * Compares `other` with the text at the current position, ignoring case;
     * on a match the position moves past it, otherwise nothing changes.
     */
    method Matches(other: string) returns (ok: bool)
      requires Valid() && |other| > 0
      modifies this
      ensures Valid()
      ensures ok == MatchesAt(text, old(Cursor()), other)
      ensures ok ==> Grammar.Matches(text, old(Frames()), other) == Some(Frames())
      ensures !ok ==> Grammar.Matches(text, old(Frames()), other) == None && Frames() == old(Frames())
    {
      var index := 0;
      while index < |other|
        invariant 0 <= index <= |other| && Cursor() + index <= |text|
        invariant forall i :: 0 <= i < index ==> Cursor() + i < |text| && EqualFold(text[Cursor() + i], other[i])
      {
        var c := CharacterAtIndex(Cursor() + index);
        if c.Err? || !EqualFold(c.value, other[index]) {
          return false;
        }
        index := index + 1;
      }
      SetCursor(Cursor() + |other|);
      return true;
    }

    /**
     * Matches `re` anchored at the current position. On a match the span of the
     * text it covers is returned and the position moves to its end, on a frame
     * of its own that stays pushed; otherwise the stack is as it was.
     */
    method Regex(re: Pattern) returns (loc: Result<Span>)
      requires Valid()
      modifies this
      ensures Valid()
      ensures Grammar.Regex(text, old(Frames()), re) == Scan(loc, Frames())
    {
      var cursor := SaveCursor();
      var length := MatchLength(re, text, cursor);
      if length.None? {
        loc := Err("expected regex match");
      } else {
        SetCursor(cursor + length.value);
        loc := Ok(Span(cursor, cursor + length.value));
      }
      DeleteCursor(loc.Error());
    }

    /** An identifier at the current position. */
    method Literal() returns (literal: Result<string>)
      requires Valid()
      modifies this
      ensures Valid()
      ensures Grammar.Literal(text, old(Frames())) == Scan(literal, Frames())
    {
      var _ := SaveCursor();
      var matchResult := Regex(LiteralPattern);
      if matchResult.Err? {
        literal := Err("expected literal");
      } else {
        literal := Ok(MatchRange(text, matchResult.value));
      }
      DeleteCursor(literal.Error());
    }

    /** `AcceptNewLineToken`: a run of line breaks. */
    method AcceptNewLineToken() returns (forest: TokenForest, err: Option<string>)
      requires Valid()
      modifies this
      ensures Valid() && fresh(forest)
      ensures NewLine(text, old(Frames())) == Outcome(Frames(), forest.values, err)
    {
      forest := new TokenForest([]);
      err := None;
      var _ := SaveCursor();
      var matchResult := Regex(NewLinePattern);
      if matchResult.Err? {
        err := Some("expected newline(s)");
      } else {
        forest.Add([NewLineToken(MatchRange(text, matchResult.value))]);
      }
      DeleteCursor(err);
    }
    /**
     * `AcceptStringToken`: a quote, a body without quotes or line breaks, and a
     * closing quote.
     */
    method AcceptStringToken() returns (forest: TokenForest, err: Option<string>)
      requires Valid()
      modifies this
      ensures Valid() && fresh(forest)
      ensures StringLiteral(text, old(Frames())) == Outcome(Frames(), forest.values, err)
    {
      forest := new TokenForest([]);
      err := None;
      var _ := SaveCursor();
      label attempt: {
        var left := Matches("'");
        if !left {
          err := Some("expected left quote");
          break attempt;
        }
        var matchResult := Regex(StringPattern);
        if matchResult.Err? {
          err := Some("expected string value");
          break attempt;
        }
        forest.Add([StringToken(MatchRange(text, matchResult.value))]);
        var right := Matches("'");
        if !right {
          err := Some("expected right quote");
          break attempt;
        }
      }
      DeleteCursor(err);
    }

    /** `AcceptExpressionToken`: a string literal, kept only when it is complete. */
    method AcceptExpressionToken() returns (forest: TokenForest, err: Option<string>)
      requires Valid()
      modifies this
      ensures Valid() && fresh(forest)
      ensures Expression(text, old(Frames())) == Outcome(Frames(), forest.values, err)
    {
      forest := new TokenForest([]);
      err := None;
      var _ := SaveCursor();
      var literal, literalErr := AcceptStringToken();
      var joined := forest.JoinIgnoreError(literal, literalErr);
      if !joined {
        err := Some("expected expression");
      }
      DeleteCursor(err);
    }

    /**
     * `AcceptWhitespaceToken`: a run of blanks followed by an optional
     * continuation, or a continuation alone.
     */
    method AcceptWhitespaceToken() returns (forest: TokenForest, err: Option<string>)
      requires Valid()
      modifies this
      ensures Valid() && fresh(forest)
      ensures Whitespace(text, old(Frames())) == Outcome(Frames(), forest.values, err)
      decreases |text| - Cursor(), 2
    {
      forest := new TokenForest([]);
      err := None;
      var _ := SaveCursor();
      ghost var saved := Frames();
      var matchResult := Regex(WhitespacePattern);
      ghost var scan := Scan(matchResult, Frames());
      assert scan == Grammar.Regex(text, saved, WhitespacePattern);
      if matchResult.Err? {
        var continuation, continuationErr := AcceptContinuationToken();
        ghost var next := Outcome(Frames(), continuation.values, continuationErr);
        assert next == Continuation(text, scan.frames);
        assert forest.values == [];
        if continuationErr.None? {
          var _ := forest.Join(continuation);
          assert forest.values == next.tokens;
        } else {
          err := Some("expected whitespace");
        }
        assert WhitespaceBody(text, saved) == Outcome(Frames(), forest.values, err);
      } else {
        var blank := [WhitespaceToken(MatchRange(text, matchResult.value))];
        forest.Add(blank);
        var continuation, continuationErr := AcceptContinuationToken();
        ghost var next := Outcome(Frames(), continuation.values, continuationErr);
        assert next == Continuation(text, scan.frames);
        assert forest.values == blank;
        var _ := forest.JoinIgnoreError(continuation, continuationErr);
        assert forest.values == Joined(blank, next);
        assert WhitespaceBody(text, saved) == Outcome(Frames(), forest.values, err);
      }
      DeleteCursor(err);
    }

    /**
     * `AcceptContinuationToken`: line breaks, optional blanks, the continuation
     * mark '1' and optional blanks.
     */
    method AcceptContinuationToken() returns (forest: TokenForest, err: Option<string>)
      requires Valid()
      modifies this
      ensures Valid() && fresh(forest)
      ensures Continuation(text, old(Frames())) == Outcome(Frames(), forest.values, err)
      decreases |text| - Cursor(), 1
    {
      forest := new TokenForest([]);
      err := None;
      var _ := SaveCursor();
      ghost var saved := Frames();
      var newLines, newLinesErr := AcceptNewLineToken();
      ghost var first := Outcome(Frames(), newLines.values, newLinesErr);
      assert first == NewLine(text, saved);
      assert forest.values == [];
      var joined := forest.JoinIgnoreError(newLines, newLinesErr);
      assert forest.values == Joined([], first);
      if !joined {
        err := Some("expected newline");
      } else {
        GrowsAdvances(saved, first.frames, |text|);
        err := AcceptContinuationRest(saved, forest);
      }
      assert ContinuationBody(text, saved) == Outcome(Frames(), forest.values, err);
      DeleteCursor(err);
    }

    /**
     * The part of `AcceptContinuationToken` after its line breaks: optional
     * blanks, the mark '1' and optional blanks, joined onto `forest`.
     */
    method AcceptContinuationRest(ghost saved: Stack, forest: TokenForest) returns (err: Option<string>)
      requires Valid() && IsStack(saved, |text|) && Advances(saved, Frames(), |text|) && saved.top < Frames().top
      modifies this, forest
      ensures Valid()
      ensures ContinuationRest(text, saved, old(Frames()), old(forest.values)) == Outcome(Frames(), forest.values, err)
      decreases |text| - saved.top, 0
    {
      err := None;
      ghost var tokens := forest.values;
      var blanks, blanksErr := AcceptWhitespaceToken();
      ghost var second := Outcome(Frames(), blanks.values, blanksErr);
      var _ := forest.JoinIgnoreError(blanks, blanksErr);
      ghost var withBlanks := Joined(tokens, second);
      assert forest.values == withBlanks;
      var mark := Matches("1");
      if !mark {
        err := Some("expected continuation literal '1'");
        return;
      }
      ghost var marked := Frames();
      assert Grammar.Matches(text, second.frames, "1") == Some(marked);
      var trailing, trailingErr := AcceptWhitespaceToken();
      ghost var third := Outcome(Frames(), trailing.values, trailingErr);
      var _ := forest.JoinIgnoreError(trailing, trailingErr);
      assert forest.values == Joined(withBlanks, third);
    }

    /** `AcceptCommentToken`: optional blanks, then '!' and the rest of the line. */
    method AcceptCommentToken() returns (forest: TokenForest, err: Option<string>)
      requires Valid()
      modifies this
      ensures Valid() && fresh(forest)
      ensures Comment(text, old(Frames())) == Outcome(Frames(), forest.values, err)
    {
      forest := new TokenForest([]);
      err := None;
      var _ := SaveCursor();
      var blanks, blanksErr := AcceptWhitespaceToken();
      var _ := forest.JoinIgnoreError(blanks, blanksErr);
      var matchResult := Regex(CommentPattern);
      if matchResult.Err? {
        err := Some("expected comment");
      } else {
        forest.Add([CommentToken(MatchRange(text, matchResult.value))]);
      }
      DeleteCursor(err);
    }

    /**
     * `AcceptPrimitiveCallToken`: optional blanks, `print` or `type`, blanks,
     * '*', optional blanks, ',', optional blanks and one or more comma-separated
     * expressions.
     */
    method AcceptPrimitiveCallToken() returns (forest: TokenForest, err: Option<string>)
      requires Valid()
      modifies this
      ensures Valid() && fresh(forest)
      ensures PrimitiveCall(text, old(Frames())) == Outcome(Frames(), forest.values, err)
    {
      forest := new TokenForest([]);
      err := None;
      var _ := SaveCursor();
      ghost var saved := Frames();
      label attempt: {
        var blanks, blanksErr := AcceptWhitespaceToken();
        ghost var first := Outcome(Frames(), blanks.values, blanksErr);
        assert first == Whitespace(text, saved);
        var _ := forest.JoinIgnoreError(blanks, blanksErr);
        assert forest.values == Joined([], first);
        var kind: string;
        var printed := Matches("print");
        if printed {
          kind := "print";
        } else {
          var typed := Matches("type");
          if typed {
            kind := "type";
          } else {
            err := Some("expected primitive call statement");
            assert PrimitiveCallBody(text, saved) == Outcome(Frames(), forest.values, err);
            break attempt;
          }
        }
        ghost var keyword := Frames();
        ghost var tokens := forest.values;
        err := AcceptPrimitiveCallRest(kind, forest);
        assert PrimitiveCallRest(text, keyword, kind, tokens) == Outcome(Frames(), forest.values, err);
        assert PrimitiveCallBody(text, saved) == Outcome(Frames(), forest.values, err);
      }
      DeleteCursor(err);
    }

    /** The primitive call after its keyword; on success its token is added to `forest`. */
    method AcceptPrimitiveCallRest(kind: string, forest: TokenForest) returns (err: Option<string>)
      requires Valid()
      modifies this, forest
      ensures Valid()
      ensures PrimitiveCallRest(text, old(Frames()), kind, old(forest.values)) == Outcome(Frames(), forest.values, err)
    {
      ghost var frames := Frames();
      var _, gapErr := AcceptWhitespaceToken();
      if gapErr.Some? {
        return Some("expected whitespace");
      }
      var star := Matches("*");
      if !star {
        return Some("expected '*'");
      }
      ghost var starred := Frames();
      var _, _ := AcceptWhitespaceToken();
      var comma := Matches(",");
      if !comma {
        return Some("expected ','");
      }
      ghost var separated := Frames();
      var _, _ := AcceptWhitespaceToken();
      ghost var start := Frames();
      var values := AcceptArguments();
      assert Arguments(text, start, []) == Outcome(Frames(), values.values, None);
      if values.Len() == 0 {
        return Some("expected 1 or more expressions");
      }
      forest.Add([PrimitiveCallToken(kind, values.values)]);
      err := None;
    }

    /**
     * The argument loop of a primitive call: an expression, and while one is
     * found, optional blanks, a comma and optional blanks before the next.
     */
    method AcceptArguments() returns (values: TokenForest)
      requires Valid()
      modifies this
      ensures Valid() && fresh(values)
      ensures Arguments(text, old(Frames()), []) == Outcome(Frames(), values.values, None)
    {
      values := new TokenForest([]);
      while true
        invariant Valid() && fresh(values)
        invariant Arguments(text, Frames(), values.values) == Arguments(text, old(Frames()), [])
        decreases |text| - Cursor()
      {
        ghost var frames := Frames();
        ghost var found := values.values;
        var expression, expressionErr := AcceptExpressionToken();
        ghost var next := Outcome(Frames(), expression.values, expressionErr);
        assert next == Expression(text, frames);
        var joined := values.JoinIgnoreError(expression, expressionErr);
        assert values.values == Joined(found, next);
        if !joined {
          assert Arguments(text, frames, found) == Outcome(Frames(), values.values, None);
          break;
        }
        ghost var expressed := Frames();
        var _, _ := AcceptWhitespaceToken();
        var more := Matches(",");
        if !more {
          assert Arguments(text, frames, found) == Outcome(Frames(), values.values, None);
          break;
        }
        var _, _ := AcceptWhitespaceToken();
        assert Arguments(text, frames, found) == Arguments(text, Frames(), values.values);
      }
    }

    /**
     * `AcceptStatementTokens`: statements are read, and their tokens joined to
     * the forest, until no alternative yields any. It never fails.
     */
    method AcceptStatementTokens() returns (forest: TokenForest, err: Option<string>)
      requires Valid()
      modifies this
      ensures Valid() && fresh(forest)
      ensures Statements(text, old(Frames()), []) == Outcome(Frames(), forest.values, err)
      decreases |text| - Cursor(), 3
    {
      forest := new TokenForest([]);
      err := None;
      while true
        invariant Valid() && fresh(forest)
        invariant old(Frames()).top <= Frames().top
        invariant Statements(text, Frames(), forest.values) == Statements(text, old(Frames()), [])
        decreases |text| - Cursor()
      {
        ghost var frames := Frames();
        ghost var tokens := forest.values;
        var joined := AcceptAlternatives(forest, 0);
        if !joined {
          return;
        }
        assert Statements(text, frames, tokens) == Statements(text, Frames(), forest.values);
      }
    }

    /**
     * One pass of the statement loop from its `first`-th alternative on: the
     * alternatives are tried in turn until one joins tokens to `forest`; the
     * answer says whether one did.
     */
    method AcceptAlternatives(forest: TokenForest, first: nat) returns (joined: bool)
      requires Valid() && first < Alternatives
      modifies this, forest
      ensures Valid()
      ensures var step := Statement(text, old(Frames()), first);
        Frames() == step.frames && forest.values == old(forest.values) + step.tokens &&
        joined == (|step.tokens| > 0)
      decreases |text| - Cursor(), 2, Alternatives - first
    {
      var found, foundErr := AcceptAlternative(first);
      joined := forest.JoinIgnoreError(found, foundErr);
      if !joined && first < Alternatives - 1 {
        joined := AcceptAlternatives(forest, first + 1);
      }
    }

    /** The `alternative`-th production of the statement loop. */
    method AcceptAlternative(alternative: nat) returns (forest: TokenForest, err: Option<string>)
      requires Valid() && alternative < Alternatives
      modifies this
      ensures Valid() && fresh(forest)
      ensures Alternative(text, old(Frames()), alternative) == Outcome(Frames(), forest.values, err)
      decreases |text| - Cursor(), 2, 0
    {
      if alternative == 0 {
        forest, err := AcceptWhitespaceToken();
      } else if alternative == 1 {
        forest, err := AcceptNewLineToken();
      } else if alternative == 2 {
        forest, err := AcceptCommentToken();
      } else if alternative == 3 {
        forest, err := AcceptPrimitiveCallToken();
      } else {
        forest, err := AcceptProgramToken();
      }
    }

    /**
     * `AcceptProgramToken`: `program`, blanks, the program's name, its
     * statements, then `endprogram` or `end program`.
     */
    method AcceptProgramToken() returns (forest: TokenForest, err: Option<string>)
      requires Valid()
      modifies this
      ensures Valid() && fresh(forest)
      ensures Program(text, old(Frames())) == Outcome(Frames(), forest.values, err)
      decreases |text| - Cursor(), 1
    {
      var _ := SaveCursor();
      ghost var saved := Frames();
      var name := AcceptProgramHead();
      if name.Err? {
        forest := new TokenForest([]);
        err := Some(name.msg);
      } else {
        forest, err := AcceptProgramEnd(saved, name.value);
      }
      assert ProgramBody(text, saved) == Outcome(Frames(), forest.values, err);
      DeleteCursor(err);
    }

    /** The head of `AcceptProgramToken`: the keyword `program`, blanks and the program's name. */
    method AcceptProgramHead() returns (name: Result<string>)
      requires Valid()
      modifies this
      ensures Valid()
      ensures ProgramHead(text, old(Frames())) == Scan(name, Frames())
    {
      ghost var saved := Frames();
      var keyword := Matches("program");
      if !keyword {
        return Err("expected 'program'");
      }
      ghost var keyed := Frames();
      var _, gapErr := AcceptWhitespaceToken();
      ghost var gapped := Frames();
      AdvancesThenGrows(saved, keyed, gapped, |text|);
      if gapErr.Some? {
        return Err("expected whitespace");
      }
      name := Literal();
    }

    /**
     * The program statement once its name is read: its statements, then
     * `endprogram` or `end program`. The program's token is in the forest
     * either way.
     */
    method AcceptProgramEnd(ghost saved: Stack, name: string) returns (forest: TokenForest, err: Option<string>)
      requires Valid() && Advances(saved, Frames(), |text|) && saved.top < Frames().top
      modifies this
      ensures Valid() && fresh(forest)
      ensures ProgramEnd(text, saved, old(Frames()), name) == Outcome(Frames(), forest.values, err)
      decreases |text| - Cursor(), 4
    {
      var statements := new TokenForest([]);
      var body, bodyErr := AcceptStatementTokens();
      ghost var inner := Outcome(Frames(), body.values, bodyErr);
      var _ := statements.JoinIgnoreError(body, bodyErr);
      forest := new TokenForest([ProgramToken(name, statements.values)]);
      assert forest.values == [ProgramToken(name, Joined([], inner))];
      err := None;
      var ending := Matches("endprogram");
      if !ending {
        var spaced := Matches("end program");
        if !spaced {
          err := Some("did not find end program statement");
        }
      }
    }

    /** `Parse`: the statements of the whole text; it is an error when there are none. */
    method Parse() returns (forest: TokenForest, err: Option<string>)
      requires Valid()
      modifies this
      ensures Valid() && fresh(forest)
      ensures Grammar.Parse(text, old(Frames())) == Outcome(Frames(), forest.values, err)
    {
      var statements, statementsErr := AcceptStatementTokens();
      if statementsErr.Some? {
        forest := new TokenForest([]);
        err := statementsErr;
      } else if statements.Len() == 0 {
        forest := new TokenForest([]);
        err := Some("no statements found");
      } else {
        forest := statements;
        err := None;
      }
    }
  }
}
