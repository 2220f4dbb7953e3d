# A backtracking recursive-descent parser for a Fortran-like language, in Dafny

This project models the parser of `parser-experiments`. The parser reads fixed-form, Fortran-like program text and produces a forest of typed tokens:
- `program … end program` blocks;
- `print` / `type` calls with string arguments;
- comments, whitespace, line breaks and `1`-marked continuation lines.

The parser keeps a stack of cursor frames:
- Every production pushes a copy of the current position (`SaveCursor`) and works on that copy.
- A deferred `DeleteCursor` pops the frame that is on top when the production returns, but only when the production reports an error.
- A nested production that succeeds leaves its frames on top. So when a production fails after such a success, the frame popped is the nested one's, and the cursor becomes the frame just beneath it.
- A production that succeeds leaves the stack deeper. Its callers go on from the deeper frame.

The model has eight modules:

- `Wrappers`: `Option` and `Result`.
- `Patterns`: ASCII case-insensitive comparison, and the five anchored regular expressions of the parser (identifier, blank run, line-break run, comment, string body).
  - Each pattern is a scanner, `MatchLength`.
  - Each also has a reference definition of its language, `InLanguage`.
  - `MatchLengthIsLongestMatch` proves that the two agree: the scanner returns the longest anchored match, and reports no match only when no prefix is a word of the language.
- `Tokens` (tokens.go): the token datatype, the `TokenForest` class whose `Add`/`Join`/`JoinIgnoreError` update it in place, and the tab-indented renderer.
- `Grammar`:
  - the cursor stack as a datatype, `Stack`;
  - every production of parser.go as a function from the text and the starting stack to an `Outcome`, which holds the stack left behind, the tokens produced and the error.
- `Parsing` (parser.go): the `Parser` class.
  - Its fields are `text`, `cursors` and `currentCursor`, as in the source.
  - Each method is written step by step like the Go code and carries a contract. The contract says the method leaves exactly the stack, tokens and error that its `Grammar` function describes.
- `Properties`: what the productions guarantee, proved about the `Grammar` functions. This covers:
  - anchoring and longest match;
  - the exact result of each production on characteristic inputs;
  - the shapes of the token lists;
  - the error strings;
  - the frames that are left pushed after a failure;
  - the behaviour of `Parse`.
- `Accepted`: the exact result of the productions on texts of given shapes (a comment line, a call header, a run of arguments, a marked continuation, a program with its terminator). The lemmas hold for any starting stack, so they chain along a text.
- `ParserExamples`: the two tests of parser_test.go, one rejected input, and three whole texts (a comment, a `print` call with two arguments, a small program), stated as methods that run the `Parser` class.
- `DraftTokens` (go/tokens.go): the draft token module.
  - It has its own `TokenForest`, whose `JoinIgnoreError` answers true for any nil error.
  - It adds the `TypeToken` and `FunctionToken` types.
  - It proves that it renders every token it shares with tokens.go exactly as tokens.go does.

Two behaviours of the code are easy to misread, and the model states them as the code has them:

- **Failure pops one frame, the top one.** Productions do not roll back. A failing production pops whatever frame is on top, and after a nested success that is the nested production's frame. The production's own frame and the frames beneath stay pushed, and the cursor becomes the frame beneath the popped one.
  - `Properties.StringLiteralUnclosed`: on an unclosed string the cursor rests one past the opening quote.
  - `Properties.ContinuationLeak`: on line breaks and blanks not followed by `1`, four frames stay above the caller's, and the cursor is after the line breaks.
  - `Accepted.ContinuationUnmarkedAtBreak`: on line breaks followed directly by neither a blank nor `1` (such as `"\nx"` from 0), the cursor is back where the continuation started, though frames stay pushed.
- **Whitespace test.** parser_test.go:10 expects no tokens from `AcceptWhitespaceToken` on `"  test"`. parser.go:161 adds a `WhitespaceToken`, so `ParserExamples.WhitespaceExample` proves that the forest holds one token and the cursor is at 2.

## Model

| member | source | states |
|---|---|---|
| Patterns.MatchesAtOne | parser.go:77-89 | a one-character literal matches exactly where the text has that character, ignoring ASCII case |
| Patterns.MatchesAtFirst | parser.go:77-89 | a literal can match only where its first character occurs, ignoring case |
| Patterns.EqualFoldNonLetter | parser.go:83 | for a character that is not a letter, case-insensitive equality is plain equality |
| Patterns.RunLengthIsRun | parser.go:149 | the measured run consists of characters of the class and ends at the end of the text or at a character outside the class |
| Patterns.RunLengthExactly | parser.go:149 | a run of n class characters followed by the end of the text or by a character outside the class measures exactly n |
| Patterns.MatchLength | parser.go:120 | a match stays inside the text; the string pattern always matches; every other pattern matches at least one character |
| Patterns.MatchLengthIsLongestMatch | parser.go:120 | each of the five patterns (also lines 149, 167, 180 and 195) matches, at the cursor, a word of its language, and no longer prefix of the text is one; "no match" means no prefix at all is a word |
| Grammar.Save | parser.go:40-49 | `SaveCursor` pushes a frame equal to the old top and keeps the frames below |
| Grammar.Delete | parser.go:50-54 | `DeleteCursor` pops exactly one frame, the top one, if the error is non-nil, and otherwise leaves the stack unchanged |
| Grammar.SetTop | parser.go:58-60 | `SetCursor` replaces only the top frame |
| Grammar.Finish | parser.go:50-54 | a production's deferred pop: the error and tokens of its body are kept; a success keeps the body's frames; a failure pops the body's top frame, yet the stack never drops below the caller's frames |
| Grammar.Joined | tokens.go:26-31 | a forest after `JoinIgnoreError` gains the outcome's tokens if and only if the outcome has no error |
| Grammar.Matches | parser.go:77-89 | a literal match advances the top frame by the literal's length and leaves the frames below it unchanged (character positions, which agree with Go's byte offsets on ASCII literals; see "## Left out") |
| Grammar.Regex | parser.go:91-102 | a match spans from the cursor to the new top frame; a match of any pattern but the string body consumes at least one character; the frames below are kept |
| Grammar.MatchRange | parser.go:113-118 | the text of the span, cut off at the end of the text |
| Grammar.Literal | parser.go:120-131 | an identifier advances the cursor; a failure reports "expected literal" |
| Grammar.NewLine | parser.go:167-178 | success advances the cursor; the frames below are kept |
| Grammar.StringLiteral | parser.go:195-219 | success advances the cursor; the frames below are kept |
| Grammar.Expression | parser.go:221-231 | success advances the cursor; the frames below are kept |
| Grammar.Whitespace | parser.go:149-165 | success advances the cursor; the frames below are kept |
| Grammar.Continuation | parser.go:133-147 | success advances the cursor; the frames below are kept |
| Grammar.Comment | parser.go:180-193 | success advances the cursor; the frames below are kept |
| Grammar.PrimitiveCall | parser.go:233-280 | success advances the cursor; the frames below are kept |
| Grammar.Arguments | parser.go:265-277 | the argument loop never moves the cursor backwards |
| Grammar.Statements | parser.go:282-305 | the statement loop keeps the frames below it |
| Grammar.Statement | parser.go:283-302 | one pass of the choice loop never fails, and it advances the cursor whenever it yields tokens, so the loop terminates |
| Grammar.Program | parser.go:307-331 | success advances the cursor; the frames below are kept |
| Grammar.ProgramEnd | parser.go:322-330 | the program's token is produced whether or not the terminator is found; success advances the cursor |
| Grammar.WhitespaceBody | parser.go:154-164 | the whitespace production after its frame is pushed: success advances the cursor; the frames below are kept |
| Grammar.ContinuationBody | parser.go:136-146 | the continuation after its frame is pushed: success advances the cursor; the frames below are kept |
| Grammar.ContinuationRest | parser.go:140-146 | the continuation after its line break: whatever follows, the cursor stays beyond where the continuation started; the frames below are kept |
| Grammar.PrimitiveCallBody | parser.go:236-279 | the primitive call after its frame is pushed: success advances the cursor; the frames below are kept |
| Grammar.PrimitiveCallRest | parser.go:248-279 | the primitive call after its keyword: the cursor never moves backwards; the frames below are kept |
| Grammar.Alternative | parser.go:284-298 | each alternative of the statement loop, in source order: the frames below are untouched, and success advances the cursor |
| Grammar.ProgramBody | parser.go:310-330 | the program production after its frame is pushed: success advances the cursor; the frames below are kept |
| Grammar.ProgramHead | parser.go:310-321 | `program`, blanks and the name: a name read advances the cursor; the frames below are kept |
| Grammar.Parse | parser.go:29-38 | the stack only grows above the caller's frames |
| Parsing.Parser.constructor | parser.go:25-27 | a new parser has sixteen frames, of which only the first, at 0, is live |
| Parsing.Parser.Cursor | parser.go:55-57 | the current position is the top frame of the live stack and lies within the text |
| Parsing.Parser.SaveCursor | parser.go:40-49 | the stack becomes `Save` of the old stack, on both the append branch and the overwrite branch; the result is the new top, which is the old cursor |
| Parsing.Parser.DeleteCursor | parser.go:50-54 | the stack becomes `Delete` of the old stack; the frames in store are unchanged |
| Parsing.Parser.SetCursor | parser.go:58-60 | the stack becomes `SetTop` of the old stack; the depth is unchanged |
| Parsing.Parser.CharacterAtIndex | parser.go:71-76 | the character at an index inside the text, and an empty error if and only if the index is outside it |
| Parsing.Parser.Matches | parser.go:77-89 | the answer is true if and only if the literal occurs at the cursor, ignoring case; on a match the cursor advances by its length, and otherwise the stack is unchanged (the literal read character by character, which agrees with Go on the ASCII literals the parser passes; see "## Left out") |
| Parsing.Parser.Regex | parser.go:91-102 | leaves the span and stack that `Grammar.Regex` describes |
| Parsing.Parser.Literal | parser.go:120-131 | leaves the identifier or error, and the stack, that `Grammar.Literal` describes |
| Parsing.Parser.AcceptContinuationToken | parser.go:133-147 | leaves the stack, tokens and error that `Grammar.Continuation` describes |
| Parsing.Parser.AcceptContinuationRest | parser.go:140-146 | the part after the line break: leaves what `Grammar.ContinuationRest` describes |
| Parsing.Parser.AcceptWhitespaceToken | parser.go:149-165 | leaves the stack, tokens and error that `Grammar.Whitespace` describes |
| Parsing.Parser.AcceptNewLineToken | parser.go:167-178 | leaves the stack, tokens and error that `Grammar.NewLine` describes |
| Parsing.Parser.AcceptCommentToken | parser.go:180-193 | leaves the stack, tokens and error that `Grammar.Comment` describes |
| Parsing.Parser.AcceptStringToken | parser.go:195-219 | leaves the stack, tokens and error that `Grammar.StringLiteral` describes |
| Parsing.Parser.AcceptExpressionToken | parser.go:221-231 | leaves the stack, tokens and error that `Grammar.Expression` describes |
| Parsing.Parser.AcceptPrimitiveCallToken | parser.go:233-280 | leaves the stack, tokens and error that `Grammar.PrimitiveCall` describes |
| Parsing.Parser.AcceptPrimitiveCallRest | parser.go:248-279 | the part after the keyword: leaves what `Grammar.PrimitiveCallRest` describes |
| Parsing.Parser.AcceptArguments | parser.go:265-277 | the argument loop leaves the stack and argument tokens that `Grammar.Arguments` describes; it never fails |
| Parsing.Parser.AcceptStatementTokens | parser.go:282-305 | the `for {}` loop leaves the stack and tokens that `Grammar.Statements` describes |
| Parsing.Parser.AcceptAlternatives | parser.go:284-302 | one pass of the loop: the alternatives are tried in order; the forest gains the tokens of the first alternative that yields any; the answer says whether one did |
| Parsing.Parser.AcceptAlternative | parser.go:284-298 | each alternative of the loop, in the source's priority order |
| Parsing.Parser.AcceptProgramToken | parser.go:307-331 | leaves the stack, tokens and error that `Grammar.Program` describes |
| Parsing.Parser.AcceptProgramHead | parser.go:310-321 | `program`, blanks and the name: leaves what `Grammar.ProgramHead` describes |
| Parsing.Parser.AcceptProgramEnd | parser.go:322-330 | the statements and the terminator: leaves what `Grammar.ProgramEnd` describes |
| Parsing.Parser.Parse | parser.go:29-38 | leaves the stack, tokens and error that `Grammar.Parse` describes |
| Properties.RegexAnchored | parser.go:91-102 | a match starts at the cursor and its text is a word of the pattern, the longest one there; the new frame at its end stays pushed; with no match, no prefix is a word, the stack is unchanged and the error is "expected regex match" |
| Properties.LiteralAnchored | parser.go:120-131 | a literal is the maximal identifier at the cursor and leaves two frames pushed; a failure leaves the stack unchanged and means no identifier starts there |
| Properties.LiteralFound | parser.go:120-131 | at an identifier start, the exact identifier `[a-zA-Z_][a-zA-Z0-9_$]*` and the frames it leaves |
| Properties.NewLineAnchored | parser.go:167-178 | success yields one NewLine token holding the maximal run of line breaks; failure leaves the stack unchanged, with no tokens and "expected newline(s)" |
| Properties.NewLineRun | parser.go:167-178 | the exact outcome on a run of n line breaks |
| Properties.StringLiteralNoQuote | parser.go:201-204 | without a quote at the cursor: "expected left quote", stack unchanged, no tokens |
| Properties.StringLiteralQuoted | parser.go:195-219 | on `'x'`, where x has no quote or line break: exactly one String token with value x, and the cursor after the closing quote |
| Properties.StringLiteralUnclosed | parser.go:206-217 | on an unclosed literal: "expected right quote", the String token is kept, and the cursor rests one past the opening quote |
| Properties.StringBody | parser.go:195 | the string pattern stops exactly at the end of the body |
| Properties.QuoteBody | parser.go:195-214 | after a quote, the string pattern reads a body that ends at the end of the text, at a line break or at the closing quote |
| Properties.ExpressionQuoted | parser.go:221-231 | on a complete literal `'x'`: one String token with value x, and the cursor after the closing quote |
| Properties.ExpressionRead | parser.go:221-231 | a successful expression is exactly one String token whose value is the body of the complete literal at the cursor, with the cursor after it |
| Properties.ExpressionFails | parser.go:214-229 | a literal that the end of the text or a line break cuts off is not an expression |
| Properties.ExpressionShape | parser.go:221-231 | success yields one complete string token and advances the cursor; failure yields no tokens, "expected expression" and the same cursor |
| Properties.WhitespaceLayout | parser.go:149-165 | every token of the whitespace production is a blank run or a line-break run; a failure yields no tokens and "expected whitespace" |
| Properties.ContinuationLayout | parser.go:133-147 | every token of a continuation is layout; its errors are "expected newline" or "expected continuation literal '1'" |
| Properties.ContinuationRestLayout | parser.go:140-146 | after the line break, only layout tokens are added; the only error is the missing `1` |
| Properties.ContinuationNoBreak | parser.go:136-139 | without a line break at the cursor: "expected newline", stack unchanged, no tokens |
| Properties.WhitespaceRun | parser.go:149-165 | a blank run followed by neither a blank nor a line break yields exactly one Whitespace token, with the cursor at its end |
| Properties.ContinuationLeak | parser.go:133-147 | line breaks and blanks not followed by `1`: the continuation fails, yet the frames of the line break and blanks stay pushed, with the cursor after the line breaks |
| Properties.ContinuationLeakTokens | parser.go:133-147 | in that case the failed continuation still carries its NewLine and Whitespace tokens, and the error "expected continuation literal '1'" |
| Properties.ContinuationBodyLeak | parser.go:136-144 | the body of such a continuation, frame by frame, before the deferred pop |
| Properties.ContinuationUnmarked | parser.go:140-144 | blanks not followed by `1` after the line break: one Whitespace token is appended and the error is the missing `1` |
| Properties.FinishFailed | parser.go:50-54 | a failed production pops exactly the top frame of its body's stack, whichever production pushed it; the cursor becomes the frame beneath; the body's tokens and error are kept |
| Properties.CommentShape | parser.go:180-193 | success is layout tokens followed by one Comment token whose value is exactly the text from the cursor after the layout to the new cursor, which is the end of the text or a line break; failure is layout tokens and "expected comment" |
| Properties.ArgumentsShape | parser.go:265-277 | the argument loop never fails; it keeps the arguments found so far; each appended value is the body of a complete literal in the text, read in order from the cursor, each literal ending before the next starts and the last before the new cursor |
| Properties.ArgumentsAppendIff | parser.go:267 | the loop adds an argument if and only if an expression is found at the cursor |
| Properties.PrimitiveCallRestShape | parser.go:248-279 | after the keyword: success appends exactly one PrimitiveCall of that kind whose values are the literals read in order after the keyword; failure adds nothing and reports one of the four errors |
| Properties.PrimitiveCallBodyShape | parser.go:236-279 | the body of the production: layout, then one `print`/`type` call whose kind matches the text at the cursor after the layout and whose values are the literals read in order after it, or an error from the listed set |
| Properties.PrimitiveCallShape | parser.go:233-280 | success is leading layout followed by exactly one PrimitiveCall, its kind matched at the cursor after the layout, its values the literals read in order after the keyword; failure is layout and one of the five errors, including "expected 1 or more expressions" |
| Properties.StatementsShape | parser.go:282-305 | the statement loop never fails; it keeps the earlier tokens and adds only statement tokens |
| Properties.StatementShape | parser.go:283-302 | one pass of the loop yields only statement tokens |
| Properties.AlternativeShape | parser.go:284-298 | each successful alternative yields only statement tokens |
| Properties.LastAfterLayout | parser.go:290-296 | layout followed by a statement token is a list of statement tokens |
| Properties.ProgramShape | parser.go:307-331 | success is one Program token, with `program` matched at the cursor; failure is either no tokens with "expected 'program'", "expected whitespace" or "expected literal", or the Program token with "did not find end program statement" |
| Properties.ProgramBodyShape | parser.go:310-330 | the same, for the body before the deferred pop |
| Properties.ProgramHeadShape | parser.go:310-321 | a head is `program` at the cursor followed, after at least one character, by a name that is a word of the identifier pattern, taken from the text and not followed by an identifier character, so it is the longest identifier there; its errors are the three listed |
| Properties.ProgramEndShape | parser.go:322-330 | the Program token carries the parsed name and exactly the statements the statement loop read, on every path; success means `endprogram` or `end program` starts where the loop stopped and the cursor is right after it; otherwise "did not find end program statement" with the cursor where the loop stopped |
| Properties.ParseShape | parser.go:29-38 | `Parse` yields only statement tokens; it fails if and only if it yields none, and then with "no statements found" |
| Properties.WhitespaceNone | parser.go:149-165 | with neither a blank nor a line break at the cursor: "expected whitespace", stack unchanged |
| Properties.CommentNone | parser.go:180-193 | with no layout and no `!` at the cursor: "expected comment", stack unchanged |
| Properties.PrimitiveCallNone | parser.go:233-246 | with no layout and no `p`/`t` at the cursor: "expected primitive call statement", stack unchanged |
| Properties.ProgramNone | parser.go:310-313 | with no `p` at the cursor: "expected 'program'", stack unchanged |
| Properties.AlternativeNone | parser.go:284-298 | where no statement can start, every alternative fails without moving the stack or yielding tokens |
| Properties.StatementNone | parser.go:283-302 | where no statement can start, a pass of the loop yields nothing and leaves the stack unchanged |
| Properties.ParseNone | parser.go:29-38 | where no statement can start, `Parse` fails with "no statements found" and leaves the stack unchanged |
| ParserExamples.WhitespaceExample | parser_test.go:5-16 | on `"  test"` the whitespace production succeeds with the cursor at 2 and one token (the one that parser.go:161 adds) |
| ParserExamples.StringExample | parser_test.go:18-29 | on `'this is a string'` the string production succeeds with one token, which renders like `StringToken{"this is a string"}` |
| ParserExamples.RejectedExample | parser.go:29-38 | on `"@@@"` `Parse` fails with "no statements found" and an empty forest |
| ParserExamples.SampleBody | parser.go:195 | the body of the sample string is a word of the string pattern |
| ParserExamples.CommentExample | parser.go:29-38 | `Parse` on `"! just a comment"` succeeds with exactly one Comment token holding the whole text |
| ParserExamples.PrintExample | parser.go:233-280 | `Parse` on `"print *, 'a', 'b'"` succeeds with exactly one PrimitiveCall token of kind `print` holding the String tokens `a` and `b`, in order |
| ParserExamples.ProgramExample | parser.go:307-331 | `Parse` on `"program foo\nprint *, 'hi'\nend program"` succeeds with exactly one Program token named `foo`, holding a NewLine token, the call `print` with `hi`, and a NewLine token |
| Accepted.OptionalBlanks | parser.go:149-165 | a run of m blanks, possibly none, before neither a blank nor a line break: the forest gains one Whitespace token or nothing, the cursor moves past the run, and the production succeeds exactly when m > 0 |
| Accepted.WhitespaceFails | parser.go:149-165 | where no blank run and no continuation starts: no tokens, "expected whitespace", cursor unchanged |
| Accepted.ContinuationUnmarkedAtBreak | parser.go:133-147 | line breaks followed directly by neither a blank nor `1`: the continuation fails, and the cursor is back where it started |
| Accepted.ContinuationMarked | parser.go:133-147 | line breaks, optional blanks, `1` and optional blanks: success, with the NewLine token and the tokens of the blank runs, in order, and the cursor after the last blank |
| Accepted.ContinuationIsBody | parser.go:133-135 | a continuation reports its body's tokens and error; on failure the body's top frame is popped |
| Accepted.ContinuationAfterBreaks | parser.go:136-139 | exactly n line breaks are read as one NewLine token, and the continuation goes on after them |
| Accepted.NoMarkRest | parser.go:140-144 | after the line breaks, neither a blank nor `1`: "expected continuation literal '1'" with the tokens so far |
| Accepted.MarkedRest | parser.go:140-146 | after the line breaks: optional blanks, `1` and optional blanks add their tokens and succeed |
| Accepted.StatementSkips | parser.go:284-292 | at a character that is no blank, line break or `!`, a pass of the loop goes straight to the primitive-call alternative |
| Accepted.StatementComment | parser.go:290-291 | a pass of the loop at `!` yields one Comment token with the text up to the end of its line |
| Accepted.CommentLine | parser.go:180-193 | at `!`, `AcceptCommentToken` succeeds with one Comment token holding the rest of the line, and stops at the end of the text or a line break |
| Accepted.StatementBreak | parser.go:284-288 | a pass of the loop at a line break where no continuation starts yields one NewLine token for the whole run |
| Accepted.StatementCall | parser.go:294-295 | where a primitive call yields tokens, the pass of the loop is that call |
| Accepted.StatementProgram | parser.go:298-299 | where no `print`/`type` starts and a program yields tokens, the pass of the loop is that program |
| Accepted.PrimitiveCallNoKeyword | parser.go:239-246 | without layout, `print` or `type` at the cursor: "expected primitive call statement", stack unchanged |
| Accepted.StatementsGoOn | parser.go:283-303 | a pass that yields tokens adds them, and the loop goes on from where the pass ended |
| Accepted.StatementsStop | parser.go:283-303 | where no statement starts, the loop ends with the tokens gathered so far and no error |
| Accepted.ParseOneStatement | parser.go:29-38 | a text read whole by one pass of the loop parses to that pass's tokens, without error |
| Accepted.ParseCommentLine | parser.go:29-38 | a text of one comment line parses to exactly one Comment token holding the whole text |
| Accepted.PrimitiveCallKeyword | parser.go:236-247 | with `print` (or `type` and no `print`) at the cursor, the call reports what the part after the keyword reports |
| Accepted.CallHeader | parser.go:248-279 | past blanks, `*`, `,` and optional blanks, the call fails with "expected 1 or more expressions" and no token exactly when the argument loop reads nothing, and otherwise appends one call token holding the arguments |
| Accepted.ArgumentsMore | parser.go:267-273 | a complete literal followed by a comma and optional blanks: the loop appends its body and goes on after the blanks |
| Accepted.ArgumentsLast | parser.go:267-271 | a complete literal followed by no comma: the loop appends its body and stops right after the literal |
| Accepted.ArgumentsNone | parser.go:267 | where no quote is, the loop keeps the values it had |
| Accepted.PrimitiveCallNoArguments | parser.go:233-277 | `print *,` or `type *,`, optional blanks and no quote: no token and exactly "expected 1 or more expressions" |
| Accepted.RestNoArguments | parser.go:248-277 | the same, after the keyword |
| Accepted.ProgramHeadRead | parser.go:310-321 | `program`, blanks and an identifier: the name read is the whole identifier, and the cursor is after it |
| Accepted.KeywordBlanks | parser.go:314-317 | exactly n blanks after `program`, before an identifier: the whitespace production succeeds past them |
| Accepted.ProgramEndSpaced | parser.go:322-328 | statements followed by `end program`: one Program token holding those statements, no error, and the cursor after `end program` |
| Tokens.Tab | tokens.go:74-76 | exactly `tabCount` tab characters |
| Tokens.TokenForest.constructor | tokens.go:13-15 | the forest holds exactly the given tokens, in order |
| Tokens.TokenForest.Add | tokens.go:17-19 | the tokens are appended at the end, in order; earlier tokens are unchanged |
| Tokens.TokenForest.Join | tokens.go:21-24 | the other forest's tokens are appended; the answer is their count |
| Tokens.TokenForest.JoinIgnoreError | tokens.go:26-31 | with an error: no change and false; with none: the join, and true if and only if the joined forest was non-empty |
| Tokens.TokenForest.StringTabbed | tokens.go:33-52 | the loop builds `ForestString`; an empty forest renders as `[]` |
| Tokens.Renderings | tokens.go:40-41 | one rendering per child, in order, each the child's rendering at that indentation |
| Tokens.ForestStringLayout | tokens.go:38-51 | a non-empty forest is `[\n`, then the children at one more tab, separated by `,\n` with the last one followed by `\n`, then the indented `]` |
| Tokens.EntriesLayout | tokens.go:40-47 | the loop's entries are the separated layout of the children |
| Tokens.EntriesCons | tokens.go:40-47 | the entries of a list are its first child, its separator and the entries of the rest |
| Tokens.TabThen | tokens.go:74-76 | tabs followed by text that does not start with a tab are an indentation by exactly that many tabs |
| Tokens.Indentation | tokens.go:78-140 | every token's rendering starts with exactly `tabCount` tabs |
| Tokens.ProgramIndentation | tokens.go:78-86 | a PROGRAM rendering starts with exactly `tabCount` tabs |
| Tokens.PrimitiveCallIndentation | tokens.go:124-132 | a PRIMITIVECALL rendering starts with exactly `tabCount` tabs |
| Tokens.ForestClosesWithBracket | tokens.go:48 | a non-empty forest's rendering ends with `]` |
| Tokens.ClosingOf | tokens.go:80-85 | a parent's rendering ends with `[])` when it has no children, and otherwise with `]`, a line break, its indentation and `)` |
| Tokens.ProgramClosing | tokens.go:78-86 | PROGRAM closes directly after `[]` when it has no statements, and otherwise on its own indented line |
| Tokens.PrimitiveCallClosing | tokens.go:124-132 | PRIMITIVECALL closes directly after `[]` when it has no values, and otherwise on its own indented line |
| Tokens.ClosingParenthesis | tokens.go:78-132 | both parent tokens place their closing `)` that way |
| Tokens.QuotedValueDetermined | tokens.go:92-94 | COMMENT and STRING renderings quote their value, so equal renderings have equal values (also lines 138-140) |
| Tokens.LayoutTokensIgnoreValue | tokens.go:100-117 | WHITESPACE and NEWLINE render fixed text whatever their value |
| DraftTokens.TokenForest.constructor | go/tokens.go:13-15 | the forest holds exactly the given tokens, in order |
| DraftTokens.TokenForest.Add | go/tokens.go:17-19 | the tokens are appended at the end, in order |
| DraftTokens.TokenForest.Join | go/tokens.go:21-24 | the other forest's tokens are appended; the answer is their count |
| DraftTokens.TokenForest.JoinIgnoreError | go/tokens.go:26-32 | true if and only if there is no error, even when the joined forest is empty; with an error the forest is unchanged |
| DraftTokens.TokenForest.AsString | go/tokens.go:34-53 | the loop builds `ForestString`; an empty forest renders as `[]` |
| DraftTokens.Renderings | go/tokens.go:41-42 | one rendering per child, in order, each the child's rendering at that indentation |
| DraftTokens.ForestStringLayout | go/tokens.go:39-52 | a non-empty forest has the same `[\n` … `,\n` … indented `]` layout as in tokens.go |
| DraftTokens.FunctionClosing | go/tokens.go:156-168 | FUNCTION ends with `statements: []` then `)` when it has no statements, and otherwise with the statements' `]` followed directly, with no line break, by the indentation and `)` |
| DraftTokens.FunctionIndentation | go/tokens.go:156-168 | a FUNCTION rendering starts with exactly `tabCount` tabs |
| DraftTokens.ForestEndsWithBracket | go/tokens.go:49 | a non-empty forest's rendering ends with `]` |
| DraftTokens.ClosingParenthesis | go/tokens.go:79-135 | PROGRAM and PRIMITIVECALL put a line break and their indentation before `)` only when they have children, by the same `ClosesAfter` as tokens.go |
| DraftTokens.ProgramIndentation | go/tokens.go:79-87 | a PROGRAM rendering starts with exactly `tabCount` tabs |
| DraftTokens.PrimitiveCallIndentation | go/tokens.go:127-135 | a PRIMITIVECALL rendering starts with exactly `tabCount` tabs |
| DraftTokens.Indentation | go/tokens.go:89-143 | every token's rendering, FUNCTION included, starts with exactly `tabCount` tabs |
| DraftTokens.LiftAll | go/tokens.go:66-68 | a token list maps one to one onto tokens.go's tokens: the i-th result is the lift of the i-th token |
| DraftTokens.AsStringAgrees | go/tokens.go:79-143 | every token that the draft shares with tokens.go renders exactly as it does in tokens.go |
| DraftTokens.ForestAgrees | go/tokens.go:34-53 | a forest of shared tokens renders exactly as it does in tokens.go |

## Left out

- main.go, the driver, is not part of this model. It embeds a sample file and prints the forest, which is I/O only.
- Go's `regexp` engine and the `io.RuneReader` plumbing (`FindReaderIndex`, `ReadRune`, parser.go:94 and 104-111) are foreign library calls. The five patterns are hand-written anchored scanners, proved against a definition of their languages.
- `IncrementCursor`, `DecrementCursor` and `CurrentCharacter` (parser.go:61-69) serve only that plumbing. The frame that `ReadRune` moves is always overwritten by `SetCursor` or popped afterwards, so they have no visible effect in the model.
- Patterns.MatchLength counts characters. Go's `regexp` reports UTF-8 byte offsets, which the parser adds to a cursor that counts code points. The two agree on ASCII text, and the model does not capture the mismatch on other text.
- Patterns.EqualFold is ASCII case folding. `strings.EqualFold` also folds non-ASCII letters. Every literal the parser compares against is ASCII, but the model does not capture a non-ASCII letter in the text that folds onto an ASCII one (such as the Kelvin sign onto `k`).
- Parsing.Parser.Matches requires a non-empty literal. parser.go:87 would advance the cursor by one on `Matches("")`, but the parser never makes that call.
- Parsing.Parser.Matches steps through the literal one character at a time and advances the cursor by the literal's length. Go's `range` over a string (parser.go:80) yields UTF-8 byte offsets, and parser.go:87 advances by the last offset plus one. For a literal with a non-ASCII character, such as `"é1"`, Go compares `text[c]` and `text[c+2]` and moves the cursor to `c+3`; the model compares `text[c]` and `text[c+1]` and moves to `c+2`. Every literal the parser passes (`1`, `'`, `*`, `,`, `print`, `type`, `program`, `endprogram`, `end program`) is ASCII, where offsets and positions agree, so no parse is affected.
- Grammar.Matches and Patterns.MatchesAt share that reading of the literal, and the same non-ASCII difference.
- Go slice capacity and aliasing are not modelled. This covers `make([]int, 16)`, `append` growth, and the backing arrays shared by forests. Cursors and forest contents are value sequences.
- The unused `ParseError` type (parser.go:11-17) and the `String()` methods (tokens.go:54-56, go/tokens.go:55-57) are not modelled. They are a type no code constructs and one-line calls of the renderers with tab count 0.
- `fmt.Sprintf` is written as string concatenation of the same pieces.
- `ContinuationToken` is in the token datatype and has its renderer, but no production of parser.go ever creates one.
- The error "expected string value" (parser.go:207) cannot occur: the string-body pattern matches the empty string, so `Regex` never fails there.
- `Parse` does not check that the whole text was consumed. The model keeps this, as `Properties.ParseShape` states.
- go/tokens.go's `TypeToken` has no `AsString`, so it is not a Go `Token` there. It is a separate datatype, and `FunctionToken`'s `returnType` is any token.
- Some grammar functions split one Go function at the step after its deferred `DeleteCursor` is registered, or turn a `for` loop into recursion: `WhitespaceBody`, `ContinuationBody`, `ContinuationRest`, `PrimitiveCallBody`, `PrimitiveCallRest`, `Arguments`, `ProgramBody`, `ProgramHead`, `ProgramEnd`, `Statement` and `Alternative`. Each has its own row under "## Model", citing the lines it covers.
- Properties.ContinuationLeak states only the frames left after the failure. Its tokens and error are stated separately, by `Properties.ContinuationLeakTokens`.
