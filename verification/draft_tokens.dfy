/**
 * The draft token module (go/tokens.go): the same forest and token kinds as
 * tokens.go, a `JoinIgnoreError` that reports any nil error as joined, and the
 * reserved type and function tokens with the function token's renderer.
 */
module DraftTokens {
  import opened Wrappers
  import Tokens

  /**
   * The token kinds of the draft: those of tokens.go, and a function token with
   * its return type, its return value and its statements.
   */
  datatype Token =
    | ProgramToken(name: string, statements: seq<Token>)
    | CommentToken(value: string)
    | WhitespaceToken(value: string)
    | NewLineToken(value: string)
    | ContinuationToken
    | PrimitiveCallToken(kind: string, values: seq<Token>)
    | StringToken(value: string)
    | FunctionToken(returnType: Token, returnValue: seq<Token>, statements: seq<Token>, name: string)

  /** The reserved type token; it has no renderer, so it is not one of the `Token` kinds. */
  datatype TypeToken = TypeToken(kind: string)

  /** The rendering of one token indented by `tabCount` tabs. */
  function AsString(t: Token, tabCount: nat): string
    decreases t, 2
  {
    match t
    case ProgramToken(name, statements) => ProgramAsString(name, statements, tabCount)
    case CommentToken(value) => Tokens.CommentAsString(value, tabCount)
    case WhitespaceToken(value) => Tokens.WhitespaceAsString(value, tabCount)
    case NewLineToken(value) => Tokens.NewLineAsString(value, tabCount)
    case ContinuationToken => Tokens.ContinuationAsString(tabCount)
    case PrimitiveCallToken(kind, values) => PrimitiveCallAsString(kind, values, tabCount)
    case StringToken(value) => Tokens.StringAsString(value, tabCount)
    case FunctionToken(returnType, returnValue, statements, name) =>
      FunctionAsString(name, AsString(returnType, tabCount + 1), ForestString(returnValue, tabCount + 1), statements, tabCount)
  }

  function ProgramAsString(name: string, statements: seq<Token>, tabCount: nat): string
    decreases statements, 2
  {
    var tab := Tokens.Tab(tabCount);
    var closing := if |statements| == 0 then ")" else "\n" + tab + ")";
    tab + "PROGRAM(name: " + name + ", statements: " + ForestString(statements, tabCount + 1) + closing
  }

  function PrimitiveCallAsString(kind: string, values: seq<Token>, tabCount: nat): string
    decreases values, 2
  {
    var tab := Tokens.Tab(tabCount);
    var closing := if |values| == 0 then ")" else "\n" + tab + ")";
    tab + "PRIMITIVECALL(kind: " + kind + ", values: " + ForestString(values, tabCount + 1) + closing
  }

  /**
   * A function token, given the renderings of its return type and return value:
   * "[]" and ")" without statements, otherwise the statements' forest and, with
   * no newline between them, the indented ")".
   */
  function FunctionAsString(name: string, returnType: string, returnValue: string, statements: seq<Token>, tabCount: nat): string
    decreases statements, 2
  {
    var tab := Tokens.Tab(tabCount);
    var rendered := if |statements| == 0 then "[]" else ForestString(statements, tabCount + 1);
    var closing := if |statements| == 0 then ")" else tab + ")";
    tab + ("FUNCTION(name: " + name + ", returnType: " + returnType + ", returnValue: " + returnValue +
      ", statements: " + rendered + closing)
  }

  /** The rendering of a forest whose closing bracket is indented by `tabCount` tabs. */
  function ForestString(ts: seq<Token>, tabCount: nat): string
    decreases ts, 1
  {
    if |ts| == 0 then "[]"
    else "[\n" + Tokens.Entries(Renderings(ts, tabCount + 1), |ts|) + Tokens.Tab(tabCount) + "]"
  }

  /** The renderings of a forest's children, each indented by `tabCount` tabs. */
  function Renderings(ts: seq<Token>, tabCount: nat): (r: seq<string>)
    ensures |r| == |ts|
    ensures forall i :: 0 <= i < |ts| ==> r[i] == AsString(ts[i], tabCount)
    decreases ts, 0
  {
    seq(|ts|, i requires 0 <= i < |ts| => AsString(ts[i], tabCount))
  }

  /** The draft's appendable, ordered sequence of tokens. */
  class TokenForest {
    var values: seq<Token>

    /** `CreateTokenForest`: a forest holding exactly `tokens`, in order. */
    constructor (tokens: seq<Token>)
      ensures values == tokens
    {
      values := tokens;
    }

    /** Appends `tokens` after the existing ones. */
    method Add(tokens: seq<Token>)
      modifies this
      ensures values == old(values) + tokens
    {
      values := values + tokens;
    }

    /** Appends the tokens of `other` and returns how many were appended. */
    method Join(other: TokenForest) returns (n: int)
      modifies this
      ensures values == old(values) + old(other.values)
      ensures n == |old(other.values)|
    {
      n := |other.values|;
      values := values + other.values;
    }

    /**
     * Joins `other` when `err` is nil and then answers true, even when `other`
     * is empty; with an error nothing changes and the answer is false.
     */
    method JoinIgnoreError(other: TokenForest, err: Option<string>) returns (joined: bool)
      modifies this
      ensures joined <==> err.None?
      ensures joined ==> values == old(values) + old(other.values)
      ensures !joined ==> values == old(values)
    {
      if err.None? {
        var _ := Join(other);
        return true;
      }
      return false;
    }

    function Len(): nat
      reads this
    {
      |values|
    }

    /** Renders the forest; its closing bracket is indented by `tabCount` tabs. */
    method AsString(tabCount: nat) returns (s: string)
      ensures s == ForestString(values, tabCount)
      ensures values == [] ==> s == "[]"
    {
      if |values| == 0 {
        return "[]";
      }
      var parts := Renderings(values, tabCount + 1);
      s := "[\n";
      var index := 0;
      while index < |values|
        invariant 0 <= index <= |values|
        invariant s == "[\n" + Tokens.Entries(parts, index)
      {
        var child := parts[index];
        var separator := if index < |values| - 1 then ",\n" else "\n";
        assert Tokens.Entries(parts, index + 1) == Tokens.Entries(parts, index) + child + separator;
        s := s + child + separator;
        index := index + 1;
      }
      s := s + Tokens.Tab(tabCount) + "]";
    }
  }

  /**
   * A non-empty forest renders as "[\n", each child at one more tab separated by
   * ",\n", the last child followed by "\n", then the indented closing bracket.
   */
  lemma ForestStringLayout(ts: seq<Token>, tabCount: nat)
    requires |ts| > 0
    ensures ForestString(ts, tabCount) == "[\n" + Tokens.Layout(Renderings(ts, tabCount + 1)) + Tokens.Tab(tabCount) + "]"
  {
    Tokens.EntriesLayout(Renderings(ts, tabCount + 1));
  }

  /**
   * How a function token's rendering ends: "[])" without statements; otherwise
   * the forest's closing bracket followed directly, with no newline, by the
   * token's indentation and ")".
   */
  lemma FunctionClosing(name: string, returnType: string, returnValue: string, statements: seq<Token>, tabCount: nat)
    ensures var s := FunctionAsString(name, returnType, returnValue, statements, tabCount);
      (|statements| == 0 ==> Tokens.EndsWith(s, "[])")) &&
      (|statements| > 0 ==> Tokens.EndsWith(s, "]" + (Tokens.Tab(tabCount) + ")")))
  {
    var tab := Tokens.Tab(tabCount);
    var head := "FUNCTION(name: " + name + ", returnType: " + returnType + ", returnValue: " + returnValue + ", statements: ";
    if |statements| == 0 {
      Tokens.EndsWithAppend(head, "[]");
      Tokens.EndsWithGrow(head + "[]", ")", "[]");
      Tokens.EndsWithPrefix(tab, head + "[]" + ")", "[])");
    } else {
      var f := ForestString(statements, tabCount + 1);
      ForestEndsWithBracket(statements, tabCount + 1);
      Tokens.EndsWithPrefix(head, f, "]");
      Tokens.EndsWithGrow(head + f, tab + ")", "]");
      Tokens.EndsWithPrefix(tab, head + f + (tab + ")"), "]" + (tab + ")"));
    }
  }

  lemma FunctionIndentation(name: string, returnType: string, returnValue: string, statements: seq<Token>, tabCount: nat)
    ensures Tokens.IndentedBy(FunctionAsString(name, returnType, returnValue, statements, tabCount), tabCount)
  {
    var tab := Tokens.Tab(tabCount);
    var rendered := if |statements| == 0 then "[]" else ForestString(statements, tabCount + 1);
    var closing := if |statements| == 0 then ")" else tab + ")";
    Tokens.TabThen(tabCount, "FUNCTION(name: " + name + ", returnType: " + returnType + ", returnValue: " + returnValue +
      ", statements: " + rendered + closing);
  }

  /** A non-empty forest's rendering ends with its closing bracket. */
  lemma ForestEndsWithBracket(ts: seq<Token>, tabCount: nat)
    requires |ts| > 0
    ensures Tokens.EndsWith(ForestString(ts, tabCount), "]")
  {
    Tokens.EndsWithAppend("[\n" + Tokens.Entries(Renderings(ts, tabCount + 1), |ts|) + Tokens.Tab(tabCount), "]");
  }

  /**
   * Program and primitive-call tokens of the draft put a newline and their own
   * indentation before ")" exactly when they have children, as in tokens.go.
   */
  lemma ClosingParenthesis(t: Token, tabCount: nat)
    requires t.ProgramToken? || t.PrimitiveCallToken?
    ensures t.ProgramToken? ==> Tokens.ClosesAfter(AsString(t, tabCount), |t.statements|, tabCount)
    ensures t.PrimitiveCallToken? ==> Tokens.ClosesAfter(AsString(t, tabCount), |t.values|, tabCount)
  {
    var tab := Tokens.Tab(tabCount);
    var children := if t.ProgramToken? then t.statements else t.values;
    if |children| > 0 {
      ForestEndsWithBracket(children, tabCount + 1);
    }
    if t.ProgramToken? {
      Tokens.ClosingOf(tab + "PROGRAM(name: " + t.name + ", statements: ", ForestString(children, tabCount + 1), |children|, tabCount);
    } else {
      Tokens.ClosingOf(tab + "PRIMITIVECALL(kind: " + t.kind + ", values: ", ForestString(children, tabCount + 1), |children|, tabCount);
    }
  }

  lemma ProgramIndentation(name: string, statements: seq<Token>, tabCount: nat)
    ensures Tokens.IndentedBy(ProgramAsString(name, statements, tabCount), tabCount)
  {
    var tab := Tokens.Tab(tabCount);
    var rest := "PROGRAM(name: " + name + ", statements: " + ForestString(statements, tabCount + 1) +
      (if |statements| == 0 then ")" else "\n" + tab + ")");
    assert ProgramAsString(name, statements, tabCount) == tab + rest;
    Tokens.TabThen(tabCount, rest);
  }

  lemma PrimitiveCallIndentation(kind: string, values: seq<Token>, tabCount: nat)
    ensures Tokens.IndentedBy(PrimitiveCallAsString(kind, values, tabCount), tabCount)
  {
    var tab := Tokens.Tab(tabCount);
    var rest := "PRIMITIVECALL(kind: " + kind + ", values: " + ForestString(values, tabCount + 1) +
      (if |values| == 0 then ")" else "\n" + tab + ")");
    assert PrimitiveCallAsString(kind, values, tabCount) == tab + rest;
    Tokens.TabThen(tabCount, rest);
  }

  /** Every token's rendering, the function token's included, begins with exactly `tabCount` tabs. */
  lemma Indentation(t: Token, tabCount: nat)
    ensures Tokens.IndentedBy(AsString(t, tabCount), tabCount)
  {
    match t
    case ProgramToken(name, statements) => ProgramIndentation(name, statements, tabCount);
    case CommentToken(value) => Tokens.TabThen(tabCount, "COMMENT(value: '" + value + "')");
    case WhitespaceToken(_) => Tokens.TabThen(tabCount, "WHITESPACE()");
    case NewLineToken(_) => Tokens.TabThen(tabCount, "NEWLINE()");
    case ContinuationToken => Tokens.TabThen(tabCount, "CONTINUATION()");
    case PrimitiveCallToken(kind, values) => PrimitiveCallIndentation(kind, values, tabCount);
    case StringToken(value) => Tokens.TabThen(tabCount, "STRING(value: '" + value + "')");
    case FunctionToken(returnType, returnValue, statements, name) =>
      FunctionIndentation(name, AsString(returnType, tabCount + 1), ForestString(returnValue, tabCount + 1), statements, tabCount);
  }

  // ---------------------------------------------------------------------------
  // Agreement with tokens.go
  // ---------------------------------------------------------------------------

  /** A token without a function token anywhere inside it: one tokens.go has too. */
  predicate Shared(t: Token)
    decreases t
  {
    match t
    case ProgramToken(_, statements) => forall i :: 0 <= i < |statements| ==> Shared(statements[i])
    case PrimitiveCallToken(_, values) => forall i :: 0 <= i < |values| ==> Shared(values[i])
    case FunctionToken(_, _, _, _) => false
    case _ => true
  }

  /** The tokens.go token a shared draft token stands for. */
  function Lift(t: Token): (u: Tokens.Token)
    requires Shared(t)
    decreases t, 1
  {
    match t
    case ProgramToken(name, statements) => Tokens.ProgramToken(name, LiftAll(statements))
    case CommentToken(value) => Tokens.CommentToken(value)
    case WhitespaceToken(value) => Tokens.WhitespaceToken(value)
    case NewLineToken(value) => Tokens.NewLineToken(value)
    case ContinuationToken => Tokens.ContinuationToken
    case PrimitiveCallToken(kind, values) => Tokens.PrimitiveCallToken(kind, LiftAll(values))
    case StringToken(value) => Tokens.StringToken(value)
  }

  function LiftAll(ts: seq<Token>): (us: seq<Tokens.Token>)
    requires forall i :: 0 <= i < |ts| ==> Shared(ts[i])
    ensures |us| == |ts|
    ensures forall i :: 0 <= i < |ts| ==> us[i] == Lift(ts[i])
    decreases ts, 0
  {
    seq(|ts|, i requires 0 <= i < |ts| => Lift(ts[i]))
  }

  /** The draft renders every token tokens.go also has exactly as tokens.go does. */
  lemma {:induction false} AsStringAgrees(t: Token, tabCount: nat)
    requires Shared(t)
    ensures AsString(t, tabCount) == Tokens.AsString(Lift(t), tabCount)
    decreases t, 1
  {
    match t
    case ProgramToken(name, statements) => ForestAgrees(statements, tabCount + 1);
    case PrimitiveCallToken(kind, values) => ForestAgrees(values, tabCount + 1);
    case _ =>
  }

  lemma {:induction false} ForestAgrees(ts: seq<Token>, tabCount: nat)
    requires forall i :: 0 <= i < |ts| ==> Shared(ts[i])
    ensures ForestString(ts, tabCount) == Tokens.ForestString(LiftAll(ts), tabCount)
    decreases ts, 0
  {
    forall i | 0 <= i < |ts|
      ensures AsString(ts[i], tabCount + 1) == Tokens.AsString(LiftAll(ts)[i], tabCount + 1)
    {
      AsStringAgrees(ts[i], tabCount + 1);
    }
    assert Renderings(ts, tabCount + 1) == Tokens.Renderings(LiftAll(ts), tabCount + 1);
  }
}
