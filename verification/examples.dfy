/**
 * Concrete runs of the parser on small texts, each proved from the grammar's
 * properties: a blank run, a quoted string, a text with no statement, a
 * comment line, a call with two literals and a whole program.
 */
module ParserExamples {
  import opened Wrappers
  import opened Patterns
  import opened Tokens
  import opened Grammar
  import opened Properties
  import opened Parsing
  import opened Accepted

  /**
   * `AcceptWhitespaceToken` on "  test": it succeeds, the cursor ends after the
   * two blanks, and the forest holds the one whitespace token for them.
   */
  method WhitespaceExample(text: string) returns (count: nat, cursor: int, err: Option<string>)
    requires text == "  test"
    ensures err.None? && count == 1 && cursor == 2
  {
    var parser := new Parser(text);
    var forest;
    forest, err := parser.AcceptWhitespaceToken();
    assert AllIn(text, 0, 2, Blank);
    WhitespaceRun(text, Bottom(0), 2);
    count := forest.Len();
    cursor := parser.Cursor();
  }

  /**
   * `AcceptStringToken` on "'this is a string'": one token, rendered as the
   * string token for the text between the quotes.
   */
  method StringExample(text: string, body: string) returns (count: nat, rendered: string, err: Option<string>)
    requires body == "this is a string" && text == "'" + body + "'"
    ensures err.None? && count == 1 && rendered == AsString(StringToken(body), 0)
  {
    var parser := new Parser(text);
    var forest;
    forest, err := parser.AcceptStringToken();
    assert text[1..17] == body;
    SampleBody(body);
    StringLiteralQuoted(text, Bottom(0), body);
    count := forest.Len();
    rendered := AsString(forest.values[0], 0);
  }

  /** `Parse` on "@@@": no statement starts there, so it fails with "no statements found". */
  method RejectedExample(text: string) returns (count: nat, err: Option<string>)
    requires text == "@@@"
    ensures err == Some("no statements found") && count == 0
  {
    var parser := new Parser(text);
    var forest;
    forest, err := parser.Parse();
    ParseNone(text, Bottom(0));
    count := forest.Len();
  }

  /** The body of the sample string holds neither quotes nor line breaks. */
  lemma SampleBody(body: string)
    requires body == "this is a string"
    ensures InLanguage(StringPattern, body)
  {
    forall i | 0 <= i < |body|
      ensures IsStringChar(body[i])
    {
      assert body[i] in "this is a string";
    }
  }

  // ---------------------------------------------------------------------------
  // A comment line
  // ---------------------------------------------------------------------------

  /** `Parse` on "! just a comment": the one comment token for the whole text. */
  method CommentExample(text: string) returns (tokens: seq<Token>, err: Option<string>)
    requires text == "! just a comment"
    ensures err.None? && tokens == [CommentToken("! just a comment")]
  {
    var parser := new Parser(text);
    var forest;
    forest, err := parser.Parse();
    CommentText(text);
    ParseCommentLine(text);
    tokens := forest.values;
  }

  /** The sample comment holds no line break. */
  lemma CommentText(text: string)
    requires text == "! just a comment"
    ensures |text| > 0 && text[0] == '!' && forall i :: 0 <= i < |text| ==> !IsLineBreak(text[i])
  {
    forall i | 0 <= i < |text|
      ensures !IsLineBreak(text[i])
    {
      assert text[i] in "! just a comment";
    }
  }

  // ---------------------------------------------------------------------------
  // A call with two literals
  // ---------------------------------------------------------------------------

  /** `Parse` on "print *, 'a', 'b'": one call token holding both literals. */
  method PrintExample(text: string) returns (tokens: seq<Token>, err: Option<string>)
    requires text == "print *, 'a', 'b'"
    ensures err.None? && tokens == [PrimitiveCallToken("print", [StringToken("a"), StringToken("b")])]
  {
    var parser := new Parser(text);
    var forest;
    forest, err := parser.Parse();
    PrintParsed(text);
    tokens := forest.values;
  }

  /** The characters of "print *, 'a', 'b'" that its parse depends on. */
  predicate PrintText(text: seq<char>) {
    |text| == 17 && NoLayoutAt(text, 0) && text[0] != '!' && MatchesAt(text, 0, "print") &&
    HeaderAt(text, 5, 1, 1) && QuotedAt(text, 9, "a") && text[12] == ',' && AllIn(text, 13, 1, Blank) &&
    NoLayoutAt(text, 14) && QuotedAt(text, 14, "b")
  }

  lemma PrintTextHolds(text: seq<char>)
    requires text == "print *, 'a', 'b'"
    ensures PrintText(text)
  {
    assert text[10..11] == "a" && text[15..16] == "b";
  }

  lemma {:induction false} PrintParsed(text: seq<char>)
    requires text == "print *, 'a', 'b'"
    ensures var r := Parse(text, Bottom(0));
      r.tokens == [PrimitiveCallToken("print", [StringToken("a"), StringToken("b")])] && r.err.None?
  {
    PrintTextHolds(text);
    PrintCall(text, Bottom(0));
    StatementCall(text, Bottom(0));
    ParseOneStatement(text);
  }

  /** `AcceptPrimitiveCallToken` reads the whole text as one call. */
  lemma {:induction false} PrintCall(text: seq<char>, frames: Stack)
    requires PrintText(text) && IsStack(frames, |text|) && frames.top == 0
    ensures var r := PrimitiveCall(text, frames);
      r.tokens == [PrimitiveCallToken("print", [StringToken("a"), StringToken("b")])] && r.err.None? &&
      r.frames.top == 17
  {
    var keyword := PrimitiveCallKeyword(text, frames, "print");
    PrintRest(text, keyword);
  }

  /** Past the keyword, the header and both literals are read. */
  lemma {:induction false} PrintRest(text: seq<char>, frames: Stack)
    requires PrintText(text) && IsStack(frames, |text|) && frames.top == 5
    ensures var r := PrimitiveCallRest(text, frames, "print", []);
      r.tokens == [PrimitiveCallToken("print", [StringToken("a"), StringToken("b")])] && r.err.None? &&
      r.frames.top == 17
  {
    var next := CallHeader(text, frames, "print", [], 1, 1);
    PrintArguments(text, next);
  }

  /** The argument loop reads 'a', the comma and its blank, and 'b' up to the end. */
  lemma {:induction false} PrintArguments(text: seq<char>, frames: Stack)
    requires PrintText(text) && IsStack(frames, |text|) && frames.top == 9
    ensures var r := Arguments(text, frames, []);
      r.tokens == [StringToken("a"), StringToken("b")] && r.err.None? && r.frames.top == 17
  {
    var next := ArgumentsMore(text, frames, [], "a", 1);
    assert [] + [StringToken("a")] == [StringToken("a")];
    PrintLastArgument(text, next);
  }

  /** After 'a', the comma and its blank, the argument loop reads 'b' and stops at the end. */
  lemma {:induction false} PrintLastArgument(text: seq<char>, frames: Stack)
    requires PrintText(text) && IsStack(frames, |text|) && frames.top == 14
    ensures var r := Arguments(text, frames, [StringToken("a")]);
      r.tokens == [StringToken("a"), StringToken("b")] && r.err.None? && r.frames.top == 17
  {
    ArgumentsLast(text, frames, [StringToken("a")], "b");
    assert [StringToken("a")] + [StringToken("b")] == [StringToken("a"), StringToken("b")];
  }

  // ---------------------------------------------------------------------------
  // A program
  // ---------------------------------------------------------------------------

  /**
   * `Parse` on "program foo", a line break, "print *, 'hi'", a line break and
   * "end program": one program token named "foo" holding the line break, the
   * call and the second line break.
   */
  method ProgramExample(text: string) returns (tokens: seq<Token>, err: Option<string>)
    requires text == "program foo\nprint *, 'hi'\nend program"
    ensures err.None? && tokens == [ProgramToken("foo", ProgramBodyTokens())]
  {
    var parser := new Parser(text);
    var forest;
    forest, err := parser.Parse();
    ProgramParsed(text);
    tokens := forest.values;
  }

  /** The statements of the sample program, in order. */
  function ProgramBodyTokens(): (r: seq<Token>)
    ensures |r| == 3 && r[0].NewLineToken? && r[1].PrimitiveCallToken? && r[2].NewLineToken?
  {
    [NewLineToken("\n"), PrimitiveCallToken("print", [StringToken("hi")]), NewLineToken("\n")]
  }

  /** The characters of the sample program that its parse depends on. */
  predicate ProgramText(text: seq<char>) {
    |text| == 37 && ProgramHeadText(text) && ProgramCallText(text) && ProgramEndText(text)
  }

  /** "program foo" and the line break after it. */
  predicate ProgramHeadText(text: seq<char>)
    requires |text| == 37
  {
    NoLayoutAt(text, 0) && text[0] != '!' && MatchesAt(text, 0, "program") &&
    !MatchesAt(text, 0, "print") && !MatchesAt(text, 0, "type") &&
    AllIn(text, 7, 1, Blank) && IsIdentifierStart(text[8]) && RunLength(text, 9, IdentifierPart) == 2 &&
    text[8..11] == "foo" &&
    IsLineBreak(text[11]) && NoWhitespaceAt(text, 11) && RunLength(text, 11, LineBreak) == 1 && text[11..12] == "\n"
  }

  /** "print *, 'hi'" on the second line. */
  predicate ProgramCallText(text: seq<char>)
    requires |text| == 37
  {
    NoLayoutAt(text, 12) && text[12] != '!' && MatchesAt(text, 12, "print") && HeaderAt(text, 17, 1, 1) &&
    QuotedAt(text, 21, "hi") && NoWhitespaceAt(text, 25) && text[25] != ','
  }

  /** The line break after the call and "end program". */
  predicate ProgramEndText(text: seq<char>)
    requires |text| == 37
  {
    IsLineBreak(text[25]) && RunLength(text, 25, LineBreak) == 1 && text[25..26] == "\n" &&
    NoStatementAt(text, 26) && MatchesAt(text, 26, "end program")
  }

  lemma ProgramTextHolds(text: seq<char>)
    requires text == "program foo\nprint *, 'hi'\nend program"
    ensures ProgramText(text)
  {
    ProgramHeadHolds(text);
    ProgramCallHolds(text);
    ProgramEndHolds(text);
  }

  lemma ProgramHeadHolds(text: seq<char>)
    requires text == "program foo\nprint *, 'hi'\nend program"
    ensures ProgramHeadText(text)
  {
    ProgramKeywordHolds(text);
    ProgramNameHolds(text);
  }

  lemma ProgramKeywordHolds(text: seq<char>)
    requires text == "program foo\nprint *, 'hi'\nend program"
    ensures NoLayoutAt(text, 0) && text[0] != '!' && MatchesAt(text, 0, "program") &&
      !MatchesAt(text, 0, "print") && !MatchesAt(text, 0, "type") && AllIn(text, 7, 1, Blank)
  {
    assert !EqualFold(text[2], "print"[2]) && !EqualFold(text[0], "type"[0]);
  }

  lemma ProgramNameHolds(text: seq<char>)
    requires text == "program foo\nprint *, 'hi'\nend program"
    ensures IsIdentifierStart(text[8]) && RunLength(text, 9, IdentifierPart) == 2 && text[8..11] == "foo" &&
      IsLineBreak(text[11]) && NoWhitespaceAt(text, 11) && RunLength(text, 11, LineBreak) == 1 && text[11..12] == "\n"
  {
    assert text[8] == 'f' && text[9] == 'o' && text[10] == 'o';
    assert text[8..11] == "foo";
    assert RunLength(text, 11, IdentifierPart) == 0;
    assert RunLength(text, 10, IdentifierPart) == 1;
    assert RunLength(text, 11, LineBreak) == 1 && RunLength(text, 12, LineBreak) == 0;
  }

  lemma ProgramCallHolds(text: seq<char>)
    requires text == "program foo\nprint *, 'hi'\nend program"
    ensures ProgramCallText(text)
  {
    ProgramCallHeadHolds(text);
    ProgramCallLiteralHolds(text);
  }

  lemma ProgramCallHeadHolds(text: seq<char>)
    requires text == "program foo\nprint *, 'hi'\nend program"
    ensures NoLayoutAt(text, 12) && text[12] != '!' && MatchesAt(text, 12, "print") && HeaderAt(text, 17, 1, 1)
  {
  }

  lemma ProgramCallLiteralHolds(text: seq<char>)
    requires text == "program foo\nprint *, 'hi'\nend program"
    ensures QuotedAt(text, 21, "hi") && NoWhitespaceAt(text, 25) && text[25] != ','
  {
    assert text[22..24] == "hi";
    assert RunLength(text, 25, LineBreak) == 1 && RunLength(text, 26, LineBreak) == 0;
  }

  lemma ProgramEndHolds(text: seq<char>)
    requires text == "program foo\nprint *, 'hi'\nend program"
    ensures ProgramEndText(text)
  {
    assert RunLength(text, 25, LineBreak) == 1 && RunLength(text, 26, LineBreak) == 0;
  }

  lemma {:induction false} ProgramParsed(text: seq<char>)
    requires text == "program foo\nprint *, 'hi'\nend program"
    ensures var r := Parse(text, Bottom(0));
      r.tokens == [ProgramToken("foo", ProgramBodyTokens())] && r.err.None?
  {
    ProgramTextHolds(text);
    ProgramRead(text, Bottom(0));
    StatementProgram(text, Bottom(0));
    ParseOneStatement(text);
  }

  /** `AcceptProgramToken` reads the whole text. */
  lemma {:induction false} ProgramRead(text: seq<char>, frames: Stack)
    requires ProgramText(text) && IsStack(frames, |text|) && frames.top == 0
    ensures var r := Program(text, frames);
      r.tokens == [ProgramToken("foo", ProgramBodyTokens())] && r.err.None? && r.frames.top == 37
  {
    var saved := Save(frames);
    SaveIsStack(frames, |text|);
    ProgramHeadRead(text, saved, 1);
    var head := ProgramHead(text, saved);
    assert head.value == Ok("foo") && head.frames.top == 11;
    ProgramStatements(text, head.frames);
    ProgramEndSpaced(text, saved, head.frames, "foo");
    var body := ProgramBody(text, saved);
    assert body == ProgramEnd(text, saved, head.frames, "foo");
  }

  /** The statements of the program body, from the line break after its name up to `end program`. */
  lemma {:induction false} ProgramStatements(text: seq<char>, frames: Stack)
    requires ProgramText(text) && IsStack(frames, |text|) && frames.top == 11
    ensures var r := Statements(text, frames, []);
      r.tokens == ProgramBodyTokens() && r.err.None? && r.frames.top == 26
  {
    var first := Statement(text, frames, 0);
    StatementBreak(text, frames);
    StatementsGoOn(text, frames, []);
    var call := ProgramCallStatement(text, first.frames);
    StatementsGoOn(text, first.frames, [] + first.tokens);
    var last := Statement(text, call, 0);
    StatementBreak(text, call);
    StatementsGoOn(text, call, [] + first.tokens + Statement(text, first.frames, 0).tokens);
    StatementsStop(text, last.frames, [] + first.tokens + Statement(text, first.frames, 0).tokens + last.tokens);
  }

  /** The pass of the statement loop on "print *, 'hi'" inside the program. */
  lemma {:induction false} ProgramCallStatement(text: seq<char>, frames: Stack) returns (next: Stack)
    requires ProgramText(text) && IsStack(frames, |text|) && frames.top == 12
    ensures var r := Statement(text, frames, 0);
      r.tokens == [PrimitiveCallToken("print", [StringToken("hi")])] && r.frames == next && next.top == 25
  {
    ProgramCall(text, frames);
    StatementCall(text, frames);
    next := Statement(text, frames, 0).frames;
  }

  /** `AcceptPrimitiveCallToken` on "print *, 'hi'" inside the program. */
  lemma {:induction false} ProgramCall(text: seq<char>, frames: Stack)
    requires ProgramText(text) && IsStack(frames, |text|) && frames.top == 12
    ensures var r := PrimitiveCall(text, frames);
      r.tokens == [PrimitiveCallToken("print", [StringToken("hi")])] && r.err.None? && r.frames.top == 25
  {
    var keyword := PrimitiveCallKeyword(text, frames, "print");
    assert keyword.top == 17;
    ProgramCallRest(text, keyword);
  }

  /** Past the keyword, the header and the literal 'hi' are read. */
  lemma {:induction false} ProgramCallRest(text: seq<char>, frames: Stack)
    requires ProgramText(text) && IsStack(frames, |text|) && frames.top == 17
    ensures var r := PrimitiveCallRest(text, frames, "print", []);
      r.tokens == [PrimitiveCallToken("print", [StringToken("hi")])] && r.err.None? && r.frames.top == 25
  {
    var header := CallHeader(text, frames, "print", [], 1, 1);
    assert header.top == 21;
    ArgumentsLast(text, header, [], "hi");
    assert [] + [StringToken("hi")] == [StringToken("hi")];
  }
}
