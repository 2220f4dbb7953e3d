/**
 * The lexical layer of the parser: ASCII case-insensitive literal comparison and
 * the five anchored patterns the grammar matches at the cursor (identifier, blank
 * run, line-break run, comment, string body), written as scanners over the text.
 */
module Patterns {
  import opened Wrappers

  /** ASCII lower-casing; every literal the grammar compares against is ASCII. */
  function ToLower(ch: char): char {
    if 'A' <= ch <= 'Z' then (ch as int + 32) as char else ch
  }

  /** Case-insensitive equality of two characters. */
  predicate EqualFold(a: char, b: char) {
    ToLower(a) == ToLower(b)
  }

  /** A character that is not a letter matches, ignoring case, only itself. */
  lemma EqualFoldNonLetter(a: char, b: char)
    requires !('A' <= b <= 'Z') && !('a' <= b <= 'z')
    ensures EqualFold(a, b) <==> a == b
  {
    if 'A' <= a <= 'Z' {
      assert 'a' <= ToLower(a) <= 'z';
    }
  }

  /** `lit` occurs, ignoring case, in `text` starting exactly at offset `at`. */
  predicate MatchesAt(text: seq<char>, at: int, lit: string) {
    0 <= at && at + |lit| <= |text| &&
    forall i :: 0 <= i < |lit| ==> EqualFold(text[at + i], lit[i])
  }

  /** A one-character literal occurs where that character does, ignoring case. */
  lemma MatchesAtOne(text: seq<char>, at: int, lit: string)
    requires |lit| == 1
    ensures MatchesAt(text, at, lit) <==> 0 <= at < |text| && EqualFold(text[at], lit[0])
  {
    if 0 <= at < |text| {
      assert text[at + 0] == text[at];
    }
  }

  /** A literal occurs only where its first character does, ignoring case. */
  lemma MatchesAtFirst(text: seq<char>, at: int, lit: string)
    requires |lit| > 0
    ensures MatchesAt(text, at, lit) ==> at < |text| && EqualFold(text[at], lit[0])
  {
    if MatchesAt(text, at, lit) {
      assert text[at + 0] == text[at];
    }
  }

  predicate IsBlank(ch: char) { ch == ' ' || ch == '\t' }

  predicate IsLineBreak(ch: char) { ch == '\r' || ch == '\n' }

  predicate IsIdentifierStart(ch: char) {
    'a' <= ch <= 'z' || 'A' <= ch <= 'Z' || ch == '_'
  }

  predicate IsIdentifierPart(ch: char) {
    IsIdentifierStart(ch) || '0' <= ch <= '9' || ch == '$'
  }

  /** A character allowed between the quotes of a string literal. */
  predicate IsStringChar(ch: char) {
    ch != '\'' && !IsLineBreak(ch)
  }

  /** The character classes the patterns repeat. */
  datatype CharClass = Blank | LineBreak | IdentifierPart | NotLineBreak | StringChar

  predicate InClass(ch: char, cls: CharClass) {
    match cls
    case Blank => IsBlank(ch)
    case LineBreak => IsLineBreak(ch)
    case IdentifierPart => IsIdentifierPart(ch)
    case NotLineBreak => !IsLineBreak(ch)
    case StringChar => IsStringChar(ch)
  }

  /** Length of the longest run of `cls` characters of `text` starting at `from`. */
  function RunLength(text: seq<char>, from: nat, cls: CharClass): (n: nat)
    requires from <= |text|
    ensures from + n <= |text|
    decreases |text| - from
  {
    if from == |text| || !InClass(text[from], cls) then 0
    else 1 + RunLength(text, from + 1, cls)
  }

  /** The run is made of `cls` characters and stops at the end of the text or at one that is not. */
  lemma {:induction false} RunLengthIsRun(text: seq<char>, from: nat, cls: CharClass)
    requires from <= |text|
    ensures var n := RunLength(text, from, cls);
      (forall i :: from <= i < from + n ==> InClass(text[i], cls)) &&
      (from + n == |text| || !InClass(text[from + n], cls))
    decreases |text| - from
  {
    if from < |text| && InClass(text[from], cls) {
      RunLengthIsRun(text, from + 1, cls);
    }
  }

  /** The five anchored patterns of the grammar. */
  datatype Pattern =
    | LiteralPattern     // an identifier: a letter or '_', then letters, digits, '_' or '$'
    | WhitespacePattern  // one or more blanks (space or tab)
    | NewLinePattern     // one or more carriage returns or line feeds
    | CommentPattern     // '!' and then anything up to the end of the line
    | StringPattern      // any, possibly empty, run of characters other than a quote or line break

  /** Reference definition of each pattern: the words `s` it matches as a whole. */
  predicate InLanguage(re: Pattern, s: seq<char>) {
    match re
    case LiteralPattern =>
      |s| >= 1 && IsIdentifierStart(s[0]) && forall i :: 1 <= i < |s| ==> IsIdentifierPart(s[i])
    case WhitespacePattern =>
      |s| >= 1 && forall i :: 0 <= i < |s| ==> IsBlank(s[i])
    case NewLinePattern =>
      |s| >= 1 && forall i :: 0 <= i < |s| ==> IsLineBreak(s[i])
    case CommentPattern =>
      |s| >= 1 && s[0] == '!' && forall i :: 1 <= i < |s| ==> !IsLineBreak(s[i])
    case StringPattern =>
      forall i :: 0 <= i < |s| ==> IsStringChar(s[i])
  }

  /**
   * The anchored match of `re` at offset `at`: the length of the text it matches
   * there, or None when it cannot match starting exactly at `at`.
   */
  function MatchLength(re: Pattern, text: seq<char>, at: nat): (r: Option<nat>)
    requires at <= |text|
    ensures r.Some? ==> at + r.value <= |text|
    ensures re == StringPattern ==> r.Some?
    ensures r.Some? && re != StringPattern ==> r.value >= 1
  {
    match re
    case LiteralPattern =>
      if at < |text| && IsIdentifierStart(text[at]) then Some(1 + RunLength(text, at + 1, IdentifierPart)) else None
    case WhitespacePattern =>
      var n := RunLength(text, at, Blank); if n == 0 then None else Some(n)
    case NewLinePattern =>
      var n := RunLength(text, at, LineBreak); if n == 0 then None else Some(n)
    case CommentPattern =>
      if at < |text| && text[at] == '!' then Some(1 + RunLength(text, at + 1, NotLineBreak)) else None
    case StringPattern =>
      Some(RunLength(text, at, StringChar))
  }

  /**
   * The scanner agrees with the reference definition: a match is a word of the
   * pattern's language and no longer prefix of the text is one (the greedy
   * leftmost-first match), and no match means no prefix at all is a word.
   */
  lemma MatchLengthIsLongestMatch(re: Pattern, text: seq<char>, at: nat)
    requires at <= |text|
    ensures var r := MatchLength(re, text, at);
      (r.Some? ==> InLanguage(re, text[at..at + r.value])) &&
      (r.Some? ==> forall k :: at + r.value < k <= |text| ==> !InLanguage(re, text[at..k])) &&
      (r.None? ==> forall k :: at <= k <= |text| ==> !InLanguage(re, text[at..k]))
  {
    match re
    case LiteralPattern => LiteralLongest(text, at);
    case WhitespacePattern => WhitespaceLongest(text, at);
    case NewLinePattern => NewLineLongest(text, at);
    case CommentPattern => CommentLongest(text, at);
    case StringPattern => StringLongest(text, at);
  }

  /** No prefix of the text at `at` longer than `n` is a word of `re`, because the character at `at + n` is excluded. */
  lemma NothingLonger(re: Pattern, text: seq<char>, at: nat, n: nat)
    requires at + n <= |text|
    requires at + n < |text| ==> forall s :: |s| > n && s[n] == text[at + n] ==> !InLanguage(re, s)
    ensures forall k :: at + n < k <= |text| ==> !InLanguage(re, text[at..k])
  {
    forall k | at + n < k <= |text|
      ensures !InLanguage(re, text[at..k])
    {
      assert text[at..k][n] == text[at + n];
    }
  }

  lemma LiteralLongest(text: seq<char>, at: nat)
    requires at <= |text|
    ensures var r := MatchLength(LiteralPattern, text, at);
      (r.Some? ==> InLanguage(LiteralPattern, text[at..at + r.value])) &&
      (r.Some? ==> forall k :: at + r.value < k <= |text| ==> !InLanguage(LiteralPattern, text[at..k])) &&
      (r.None? ==> forall k :: at <= k <= |text| ==> !InLanguage(LiteralPattern, text[at..k]))
  {
    if at < |text| && IsIdentifierStart(text[at]) {
      RunLengthIsRun(text, at + 1, IdentifierPart);
      NothingLonger(LiteralPattern, text, at, 1 + RunLength(text, at + 1, IdentifierPart));
    } else {
      NothingLonger(LiteralPattern, text, at, 0);
    }
  }

  lemma WhitespaceLongest(text: seq<char>, at: nat)
    requires at <= |text|
    ensures var r := MatchLength(WhitespacePattern, text, at);
      (r.Some? ==> InLanguage(WhitespacePattern, text[at..at + r.value])) &&
      (r.Some? ==> forall k :: at + r.value < k <= |text| ==> !InLanguage(WhitespacePattern, text[at..k])) &&
      (r.None? ==> forall k :: at <= k <= |text| ==> !InLanguage(WhitespacePattern, text[at..k]))
  {
    RunLengthIsRun(text, at, Blank);
    NothingLonger(WhitespacePattern, text, at, RunLength(text, at, Blank));
  }

  lemma NewLineLongest(text: seq<char>, at: nat)
    requires at <= |text|
    ensures var r := MatchLength(NewLinePattern, text, at);
      (r.Some? ==> InLanguage(NewLinePattern, text[at..at + r.value])) &&
      (r.Some? ==> forall k :: at + r.value < k <= |text| ==> !InLanguage(NewLinePattern, text[at..k])) &&
      (r.None? ==> forall k :: at <= k <= |text| ==> !InLanguage(NewLinePattern, text[at..k]))
  {
    RunLengthIsRun(text, at, LineBreak);
    NothingLonger(NewLinePattern, text, at, RunLength(text, at, LineBreak));
  }

  lemma CommentLongest(text: seq<char>, at: nat)
    requires at <= |text|
    ensures var r := MatchLength(CommentPattern, text, at);
      (r.Some? ==> InLanguage(CommentPattern, text[at..at + r.value])) &&
      (r.Some? ==> forall k :: at + r.value < k <= |text| ==> !InLanguage(CommentPattern, text[at..k])) &&
      (r.None? ==> forall k :: at <= k <= |text| ==> !InLanguage(CommentPattern, text[at..k]))
  {
    if at < |text| && text[at] == '!' {
      RunLengthIsRun(text, at + 1, NotLineBreak);
      NothingLonger(CommentPattern, text, at, 1 + RunLength(text, at + 1, NotLineBreak));
    } else {
      NothingLonger(CommentPattern, text, at, 0);
    }
  }

  lemma StringLongest(text: seq<char>, at: nat)
    requires at <= |text|
    ensures var r := MatchLength(StringPattern, text, at);
      r.Some? && InLanguage(StringPattern, text[at..at + r.value]) &&
      forall k :: at + r.value < k <= |text| ==> !InLanguage(StringPattern, text[at..k])
  {
    RunLengthIsRun(text, at, StringChar);
    NothingLonger(StringPattern, text, at, RunLength(text, at, StringChar));
  }

  /**
   * A run of exactly `n` characters of `cls`, followed by the end of the text or
   * by a character outside `cls`, is the run `RunLength` measures.
   */
  lemma {:induction false} RunLengthExactly(text: seq<char>, from: nat, n: nat, cls: CharClass)
    requires from + n <= |text|
    requires forall i :: from <= i < from + n ==> InClass(text[i], cls)
    requires from + n == |text| || !InClass(text[from + n], cls)
    ensures RunLength(text, from, cls) == n
    decreases n
  {
    if n > 0 {
      RunLengthExactly(text, from + 1, n - 1, cls);
    }
  }
}
