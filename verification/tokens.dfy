/**
 * The parse forest (tokens.go): the closed set of token kinds, the appendable
 * token forest and the tab-indented structural renderer.
 */
module Tokens {
  import opened Wrappers

  /** The token kinds; a token that owns a sub-forest holds the forest's tokens. */
  datatype Token =
    | ProgramToken(name: string, statements: seq<Token>)
    | CommentToken(value: string)
    | WhitespaceToken(value: string)
    | NewLineToken(value: string)
    | ContinuationToken
    | PrimitiveCallToken(kind: string, values: seq<Token>)
    | StringToken(value: string)

  /** `tabCount` tab characters. */
  function Tab(tabCount: nat): (s: string)
    ensures |s| == tabCount
    ensures forall i :: 0 <= i < |s| ==> s[i] == '\t'
  {
    if tabCount == 0 then "" else Tab(tabCount - 1) + "\t"
  }

  /** The rendering of one token indented by `tabCount` tabs: the dispatch of the token interface. */
  function AsString(t: Token, tabCount: nat): string
    decreases t, 2
  {
    match t
    case ProgramToken(name, statements) => ProgramAsString(name, statements, tabCount)
    case CommentToken(value) => CommentAsString(value, tabCount)
    case WhitespaceToken(value) => WhitespaceAsString(value, tabCount)
    case NewLineToken(value) => NewLineAsString(value, tabCount)
    case ContinuationToken => ContinuationAsString(tabCount)
    case PrimitiveCallToken(kind, values) => PrimitiveCallAsString(kind, values, tabCount)
    case StringToken(value) => StringAsString(value, tabCount)
  }

  function ProgramAsString(name: string, statements: seq<Token>, tabCount: nat): string
    decreases statements, 2
  {
    var tab := Tab(tabCount);
    var closing := if |statements| == 0 then ")" else "\n" + tab + ")";
    tab + "PROGRAM(name: " + name + ", statements: " + ForestString(statements, tabCount + 1) + closing
  }

  function CommentAsString(value: string, tabCount: nat): string {
    Tab(tabCount) + "COMMENT(value: '" + value + "')"
  }

  function WhitespaceAsString(value: string, tabCount: nat): string {
    Tab(tabCount) + "WHITESPACE()"
  }

  function NewLineAsString(value: string, tabCount: nat): string {
    Tab(tabCount) + "NEWLINE()"
  }

  function ContinuationAsString(tabCount: nat): string {
    Tab(tabCount) + "CONTINUATION()"
  }

  function PrimitiveCallAsString(kind: string, values: seq<Token>, tabCount: nat): string
    decreases values, 2
  {
    var tab := Tab(tabCount);
    var closing := if |values| == 0 then ")" else "\n" + tab + ")";
    tab + "PRIMITIVECALL(kind: " + kind + ", values: " + ForestString(values, tabCount + 1) + closing
  }

  function StringAsString(value: string, tabCount: nat): string {
    Tab(tabCount) + "STRING(value: '" + value + "')"
  }

  /** The rendering of a forest whose closing bracket is indented by `tabCount` tabs. */
  function ForestString(ts: seq<Token>, tabCount: nat): string
    decreases ts, 1
  {
    if |ts| == 0 then "[]" else "[\n" + Entries(Renderings(ts, tabCount + 1), |ts|) + Tab(tabCount) + "]"
  }

  /** The renderings of a forest's children, each indented by `tabCount` tabs. */
  function Renderings(ts: seq<Token>, tabCount: nat): (r: seq<string>)
    ensures |r| == |ts|
    ensures forall i :: 0 <= i < |ts| ==> r[i] == AsString(ts[i], tabCount)
    decreases ts, 0
  {
    seq(|ts|, i requires 0 <= i < |ts| => AsString(ts[i], tabCount))
  }

  /**
   * The first `k` of `parts` as the renderer emits them one after the other:
   * each followed by ",\n", the last of all `parts` by "\n".
   */
  function Entries(parts: seq<string>, k: nat): string
    requires k <= |parts|
  {
    if k == 0 then ""
    else Entries(parts, k - 1) + parts[k - 1] + (if k - 1 < |parts| - 1 then ",\n" else "\n")
  }

  /**
   * Reference layout of a non-empty list of renderings, stated element by
   * element: a part, then ",\n" and the rest, or "\n" after the last part.
   */
  function Layout(parts: seq<string>): string
    requires |parts| > 0
  {
    if |parts| == 1 then parts[0] + "\n"
    else parts[0] + ",\n" + Layout(parts[1..])
  }

  /** The appendable, ordered sequence of tokens every production returns. */
  class TokenForest {
    var values: seq<Token>

    /** A forest holding exactly `tokens`, in order. */
    constructor (tokens: seq<Token>)
      ensures values == tokens
    {
      values := tokens;
    }

    /** Appends `tokens` after the existing ones. */
    method Add(tokens: seq<Token>)
      modifies this
      ensures values == old(values) + tokens
    {
      values := values + tokens;
    }

    /** Appends the tokens of `other` and returns how many were appended. */
    method Join(other: TokenForest) returns (n: int)
      modifies this
      ensures values == old(values) + old(other.values)
      ensures n == |old(other.values)|
    {
      n := |other.values|;
      values := values + other.values;
    }

    /**
     * Joins `other` only when `err` is nil, and reports whether that added at
     * least one token; with an error nothing changes and the answer is false.
     */
    method JoinIgnoreError(other: TokenForest, err: Option<string>) returns (joined: bool)
      modifies this
      ensures err.Some? ==> values == old(values) && !joined
      ensures err.None? ==> values == old(values) + old(other.values)
      ensures err.None? ==> (joined <==> |old(other.values)| > 0)
      ensures joined ==> values == old(values) + old(other.values)
      ensures !joined ==> values == old(values)
    {
      if err.None? {
        var n := Join(other);
        if n == 0 {
          assert values == old(values) + [];
        }
        return n > 0;
      }
      return false;
    }

    function Len(): nat
      reads this
    {
      |values|
    }

    /** Renders the forest; its closing bracket is indented by `tabCount` tabs. */
    method StringTabbed(tabCount: nat) returns (s: string)
      ensures s == ForestString(values, tabCount)
      ensures values == [] ==> s == "[]"
    {
      if |values| == 0 {
        return "[]";
      }
      ghost var parts := Renderings(values, tabCount + 1);
      s := "[\n";
      var index := 0;
      while index < |values|
        invariant 0 <= index <= |values|
        invariant s == "[\n" + Entries(parts, index)
      {
        var child := AsString(values[index], tabCount + 1);
        var separator := if index < |values| - 1 then ",\n" else "\n";
        assert Entries(parts, index + 1) == Entries(parts, index) + child + separator;
        s := s + child + separator;
        index := index + 1;
      }
      s := s + Tab(tabCount) + "]";
    }
  }

  /** Splitting off the first part of the renderer's entries. */
  lemma {:induction false} EntriesCons(parts: seq<string>, k: nat)
    requires 0 < k <= |parts|
    ensures Entries(parts, k) ==
      parts[0] + (if 0 < |parts| - 1 then ",\n" else "\n") + Entries(parts[1..], k - 1)
    decreases k
  {
    if k > 1 {
      EntriesCons(parts, k - 1);
      assert parts[1..][k - 2] == parts[k - 1];
    }
  }

  /**
   * A non-empty forest renders as "[\n", each child at one more tab separated by
   * ",\n", the last child followed by "\n", then the indented closing bracket.
   */
  lemma {:induction false} ForestStringLayout(ts: seq<Token>, tabCount: nat)
    requires |ts| > 0
    ensures ForestString(ts, tabCount) == "[\n" + Layout(Renderings(ts, tabCount + 1)) + Tab(tabCount) + "]"
  {
    EntriesLayout(Renderings(ts, tabCount + 1));
  }

  /** The renderer's per-index separators agree with the reference layout. */
  lemma {:induction false} EntriesLayout(parts: seq<string>)
    requires |parts| > 0
    ensures Entries(parts, |parts|) == Layout(parts)
    decreases |parts|
  {
    EntriesCons(parts, |parts|);
    if |parts| > 1 {
      EntriesLayout(parts[1..]);
    }
  }

  /** `s` starts with exactly `tabCount` tab characters. */
  predicate IndentedBy(s: string, tabCount: nat) {
    |s| > tabCount && s[..tabCount] == Tab(tabCount) && s[tabCount] != '\t'
  }

  /** Tabs followed by text that does not start with a tab are indented by exactly those tabs. */
  lemma TabThen(tabCount: nat, rest: string)
    requires |rest| > 0 && rest[0] != '\t'
    ensures IndentedBy(Tab(tabCount) + rest, tabCount)
  {
    assert (Tab(tabCount) + rest)[tabCount] == rest[0];
  }

  lemma ProgramIndentation(name: string, statements: seq<Token>, tabCount: nat)
    ensures IndentedBy(ProgramAsString(name, statements, tabCount), tabCount)
  {
    var tab := Tab(tabCount);
    var rest := "PROGRAM(name: " + name + ", statements: " + ForestString(statements, tabCount + 1) +
      (if |statements| == 0 then ")" else "\n" + tab + ")");
    assert ProgramAsString(name, statements, tabCount) == tab + rest;
    TabThen(tabCount, rest);
  }

  lemma PrimitiveCallIndentation(kind: string, values: seq<Token>, tabCount: nat)
    ensures IndentedBy(PrimitiveCallAsString(kind, values, tabCount), tabCount)
  {
    var tab := Tab(tabCount);
    var rest := "PRIMITIVECALL(kind: " + kind + ", values: " + ForestString(values, tabCount + 1) +
      (if |values| == 0 then ")" else "\n" + tab + ")");
    assert PrimitiveCallAsString(kind, values, tabCount) == tab + rest;
    TabThen(tabCount, rest);
  }

  /** Every token's rendering begins with exactly `tabCount` tab characters. */
  lemma Indentation(t: Token, tabCount: nat)
    ensures IndentedBy(AsString(t, tabCount), tabCount)
  {
    match t
    case ProgramToken(name, statements) => ProgramIndentation(name, statements, tabCount);
    case CommentToken(value) => TabThen(tabCount, "COMMENT(value: '" + value + "')");
    case WhitespaceToken(_) => TabThen(tabCount, "WHITESPACE()");
    case NewLineToken(_) => TabThen(tabCount, "NEWLINE()");
    case ContinuationToken => TabThen(tabCount, "CONTINUATION()");
    case PrimitiveCallToken(kind, values) => PrimitiveCallIndentation(kind, values, tabCount);
    case StringToken(value) => TabThen(tabCount, "STRING(value: '" + value + "')");
  }

  /**
   * How a rendering that holds a child forest ends: a non-empty forest's closing
   * bracket is followed by a newline and the parent's indentation before ")",
   * an empty forest "[]" directly by ")".
   */
  predicate ClosesAfter(s: string, count: nat, tabCount: nat) {
    (count == 0 ==> EndsWith(s, "[])")) &&
    (count > 0 ==> EndsWith(s, "]" + ("\n" + Tab(tabCount) + ")")))
  }

  /** `s` ends with `suffix`. */
  predicate EndsWith(s: string, suffix: string) {
    |suffix| <= |s| && s[|s| - |suffix|..] == suffix
  }

  lemma EndsWithAppend(a: string, b: string)
    ensures EndsWith(a + b, b)
  {
    assert (a + b)[|a|..] == b;
  }

  lemma EndsWithPrefix(a: string, b: string, suffix: string)
    requires EndsWith(b, suffix)
    ensures EndsWith(a + b, suffix)
  {
    assert (a + b)[|a + b| - |suffix|..] == b[|b| - |suffix|..];
  }

  lemma EndsWithGrow(a: string, c: string, suffix: string)
    requires EndsWith(a, suffix)
    ensures EndsWith(a + c, suffix + c)
  {
    assert (a + c)[|a + c| - |suffix + c|..] == a[|a| - |suffix|..] + c;
  }

  /** A non-empty forest's rendering ends with its closing bracket. */
  lemma ForestClosesWithBracket(ts: seq<Token>, tabCount: nat)
    requires |ts| > 0
    ensures EndsWith(ForestString(ts, tabCount), "]")
  {
    EndsWithAppend("[\n" + Entries(Renderings(ts, tabCount + 1), |ts|) + Tab(tabCount), "]");
  }

  /** `head`, a forest rendering `forest`, and the closing the parent tokens put after it. */
  lemma ClosingOf(head: string, forest: string, count: nat, tabCount: nat)
    requires count == 0 ==> forest == "[]"
    requires count > 0 ==> EndsWith(forest, "]")
    ensures ClosesAfter(head + forest + (if count == 0 then ")" else "\n" + Tab(tabCount) + ")"), count, tabCount)
  {
    if count == 0 {
      EndsWithAppend(head, "[]");
      EndsWithGrow(head + "[]", ")", "[]");
    } else {
      EndsWithPrefix(head, forest, "]");
      EndsWithGrow(head + forest, "\n" + Tab(tabCount) + ")", "]");
    }
  }

  lemma ProgramClosing(name: string, statements: seq<Token>, tabCount: nat)
    ensures ClosesAfter(ProgramAsString(name, statements, tabCount), |statements|, tabCount)
  {
    if |statements| > 0 {
      ForestClosesWithBracket(statements, tabCount + 1);
    }
    ClosingOf(Tab(tabCount) + "PROGRAM(name: " + name + ", statements: ", ForestString(statements, tabCount + 1), |statements|, tabCount);
  }

  lemma PrimitiveCallClosing(kind: string, values: seq<Token>, tabCount: nat)
    ensures ClosesAfter(PrimitiveCallAsString(kind, values, tabCount), |values|, tabCount)
  {
    if |values| > 0 {
      ForestClosesWithBracket(values, tabCount + 1);
    }
    ClosingOf(Tab(tabCount) + "PRIMITIVECALL(kind: " + kind + ", values: ", ForestString(values, tabCount + 1), |values|, tabCount);
  }

  /**
   * Program and primitive-call tokens put a newline and their own indentation
   * before ")" exactly when they have children.
   */
  lemma ClosingParenthesis(t: Token, tabCount: nat)
    requires t.ProgramToken? || t.PrimitiveCallToken?
    ensures t.ProgramToken? ==> ClosesAfter(AsString(t, tabCount), |t.statements|, tabCount)
    ensures t.PrimitiveCallToken? ==> ClosesAfter(AsString(t, tabCount), |t.values|, tabCount)
  {
    if t.ProgramToken? {
      ProgramClosing(t.name, t.statements, tabCount);
    } else {
      PrimitiveCallClosing(t.kind, t.values, tabCount);
    }
  }

  /** Comment and string tokens quote their value, so the rendering determines it. */
  lemma QuotedValueDetermined(t: Token, u: Token, tabCount: nat)
    requires (t.CommentToken? && u.CommentToken?) || (t.StringToken? && u.StringToken?)
    requires AsString(t, tabCount) == AsString(u, tabCount)
    ensures t.value == u.value
  {
    var s := AsString(t, tabCount);
    var head := if t.CommentToken? then "COMMENT(value: '" else "STRING(value: '";
    assert s == Tab(tabCount) + head + t.value + "')";
    assert s == Tab(tabCount) + head + u.value + "')";
    assert t.value == s[tabCount + |head|..|s| - 2];
  }

  /** Whitespace, newline and continuation tokens render fixed text, whatever they hold. */
  lemma LayoutTokensIgnoreValue(t: Token, u: Token, tabCount: nat)
    requires (t.WhitespaceToken? && u.WhitespaceToken?) || (t.NewLineToken? && u.NewLineToken?)
    ensures AsString(t, tabCount) == AsString(u, tabCount)
  {
  }
}
