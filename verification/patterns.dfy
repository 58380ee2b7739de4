/**
 * The regular expressions of the detector, each written out as the set of positions where it
 * matches and the length of the match there. A global regex (`/g`) is applied the way
 * `String.prototype.match` and `replace` apply it: scan left to right, and after a match resume
 * at its end, otherwise one character further.
 */
module Patterns {
  import opened Text

  /** Length of the leftmost match of a pattern starting exactly at a position; 0 when there is none. */
  type Matcher = (string, nat) -> nat

  /** End of the match at `i`, cut to the text. */
  function MatchEnd(s: string, i: nat, m: Matcher): (e: nat)
    requires i < |s|
    ensures i < e <= |s|
  {
    var n := m(s, i);
    if n == 0 then i + 1 else if i + n <= |s| then i + n else |s|
  }

  /** `(s.slice(i).match(re) || []).length` for a global regex. */
  function CountFrom(s: string, i: nat, m: Matcher): (n: nat)
    ensures i <= |s| ==> n <= |s| - i
    ensures i >= |s| ==> n == 0
    decreases |s| - i
  {
    if i >= |s| then 0
    else if m(s, i) > 0 then 1 + CountFrom(s, MatchEnd(s, i, m), m)
    else CountFrom(s, i + 1, m)
  }

  /** `s.slice(i).match(re) || []` for a global regex: the matched substrings, in order. */
  function MatchesFrom(s: string, i: nat, m: Matcher): (r: seq<string>)
    ensures i <= |s| ==> |r| <= |s| - i
    ensures forall k :: 0 <= k < |r| ==> r[k] != [] && Contains(s, r[k])
    decreases |s| - i
  {
    if i >= |s| then []
    else if m(s, i) > 0 then
      var e := MatchEnd(s, i, m);
      ContainsAt(s, s[i..e], i);
      [s[i..e]] + MatchesFrom(s, e, m)
    else MatchesFrom(s, i + 1, m)
  }

  /** `s.slice(i).replace(re, f)` for a global regex, `rep` giving the replacement of the match at a position. */
  function ReplaceFrom(s: string, i: nat, m: Matcher, rep: (string, nat) -> string): string
    decreases |s| - i
  {
    if i >= |s| then []
    else if m(s, i) > 0 then rep(s, i) + ReplaceFrom(s, MatchEnd(s, i, m), m, rep)
    else [s[i]] + ReplaceFrom(s, i + 1, m, rep)
  }

  /** Where a pattern never matches, replacing leaves the text as it is. */
  lemma {:induction false} ReplaceWithoutMatch(s: string, i: nat, m: Matcher, rep: (string, nat) -> string)
    requires i <= |s|
    requires forall k :: i <= k < |s| ==> m(s, k) == 0
    ensures ReplaceFrom(s, i, m, rep) == s[i..]
    decreases |s| - i
  {
    if i < |s| {
      ReplaceWithoutMatch(s, i + 1, m, rep);
      assert s[i..] == [s[i]] + s[i + 1..];
    }
  }

  /**
   * When every match stays inside the text and its replacement is `grow` characters longer than the
   * match, replacing lengthens the text by `grow` per match.
   */
  lemma {:induction false} ReplaceLength(s: string, i: nat, m: Matcher, rep: (string, nat) -> string, grow: nat)
    requires i <= |s|
    requires forall k :: i <= k < |s| && m(s, k) > 0 ==> k + m(s, k) <= |s| && |rep(s, k)| == m(s, k) + grow
    ensures |ReplaceFrom(s, i, m, rep)| == |s| - i + grow * CountFrom(s, i, m)
    decreases |s| - i
  {
    if i < |s| {
      if m(s, i) > 0 {
        var e := MatchEnd(s, i, m);
        assert e == i + m(s, i) && |rep(s, i)| == e - i + grow;
        ReplaceLength(s, e, m, rep, grow);
        var c := CountFrom(s, e, m);
        assert CountFrom(s, i, m) == 1 + c;
        MultiplyOnePlus(grow, c);
      } else {
        ReplaceLength(s, i + 1, m, rep, grow);
      }
    }
  }

  lemma MultiplyOnePlus(g: nat, c: nat)
    ensures g * (1 + c) == g + g * c
  {
  }

  /** A pattern that can match only where `w` starts never matches in a text without `w`. */
  lemma NoMatchWithout(s: string, w: string, k: nat)
    requires !Contains(s, w)
    ensures !StartsAt(s, k, w)
  {
    if StartsAt(s, k, w) { ContainsAt(s, w, k); }
  }

  /** `w` occurs at `i` as a whole word: `\bw\b` for a `w` that begins and ends with a word character. */
  predicate WordAt(s: string, i: nat, w: string) {
    StartsAt(s, i, w) &&
    (i == 0 || !IsWordChar(s[i - 1])) &&
    (i + |w| == |s| || !IsWordChar(s[i + |w|]))
  }

  predicate HasWord(s: string, w: string) {
    exists i :: 0 <= i < |s| && WordAt(s, i, w)
  }

  // ---------------------------------------------------------------- tokenizer

  /** `[{}()[\];,.<>=!+\-*\/%&|^~?:@]` */
  predicate IsPunct(c: char) {
    c in "{}()[];,.<>=!+-*/%&|^~?:@"
  }

  predicate IsQuote(c: char) { c == '"' || c == '\'' || c == '`' }

  /** First index at or after `from` holding `c`. */
  function IndexOf(s: string, c: char, from: nat): (r: Option<nat>)
    ensures r.Some? ==> from <= r.value < |s| && s[r.value] == c
    ensures r.Some? ==> forall k :: from <= k < r.value ==> s[k] != c
    ensures r.None? ==> forall k :: from <= k < |s| ==> s[k] != c
    decreases |s| - from
  {
    if from >= |s| then None
    else if s[from] == c then Some(from)
    else IndexOf(s, c, from + 1)
  }

  /** First index at or after `from` where a star-slash closes a block comment. */
  function CommentClose(s: string, from: nat): (r: Option<nat>)
    ensures r.Some? ==> from <= r.value && StartsAt(s, r.value, "*/")
    decreases |s| - from
  {
    if from + 2 > |s| then None
    else if StartsAt(s, from, "*/") then Some(from)
    else CommentClose(s, from + 1)
  }

  /** First index at or after `from` holding a line terminator (`.` stops there), or `|s|`. */
  function LineEnd(s: string, from: nat): (j: nat)
    ensures from <= |s| ==> from <= j <= |s|
    ensures from > |s| ==> j == from
    decreases |s| - from
  {
    if from < |s| && !IsLineTerminator(s[from]) then LineEnd(s, from + 1) else from
  }

  function SkipDigits(s: string, from: nat): (j: nat)
    ensures from <= |s| ==> from <= j <= |s|
    ensures from > |s| ==> j == from
    decreases |s| - from
  {
    if from < |s| && IsDigit(s[from]) then SkipDigits(s, from + 1) else from
  }

  /**
   * The token regex of the detector, alternative by alternative in its order: an identifier between
   * word boundaries, a number `[0-9]+\.?[0-9]*`, a string in double, single or back quotes (no escapes;
   * an unclosed one is no token), a `//` comment to the end of the line, a block comment up to the first closing star-slash,
   * one punctuation character. White space and other characters are skipped.
   */
  function TokenLen(s: string, i: nat): (n: nat)
    ensures n > 0 ==> i + n <= |s|
  {
    if i >= |s| then 0
    else
      var c := s[i];
      if (IsLetter(c) || c == '_') && (i == 0 || !IsWordChar(s[i - 1])) then SkipWord(s, i) - i
      else if IsDigit(c) then
        var j := SkipDigits(s, i);
        (if j < |s| && s[j] == '.' then SkipDigits(s, j + 1) else j) - i
      else if IsQuote(c) then
        match IndexOf(s, c, i + 1)
        case Some(j) => j + 1 - i
        case None => 0
      else if c == '/' && i + 1 < |s| && s[i + 1] == '/' then LineEnd(s, i) - i
      else if c == '/' && i + 1 < |s| && s[i + 1] == '*' && CommentClose(s, i + 2).Some? then
        CommentClose(s, i + 2).value + 2 - i
      else if IsPunct(c) then 1
      else 0
  }

  /** `tokenize(code)`: every token is a non-empty piece of the text, and there are no more tokens than characters. */
  function Tokenize(s: string): (r: seq<string>)
    ensures |r| <= |s|
    ensures forall k :: 0 <= k < |r| ==> r[k] != [] && Contains(s, r[k])
  {
    MatchesFrom(s, 0, TokenLen)
  }

  /** A token `^[a-zA-Z_][a-zA-Z0-9_]{2,}$`: an identifier of at least three characters. */
  predicate IsIdentifier(t: string) {
    |t| >= 3 && (IsLetter(t[0]) || t[0] == '_') && forall k :: 0 <= k < |t| ==> IsWordChar(t[k])
  }

  // ---------------------------------------------------------------- counted patterns

  /** `/\bfunction\b|\bdef\b/g` */
  function FunctionOrDefLen(s: string, i: nat): (n: nat)
    ensures n > 0 ==> i + n <= |s|
  {
    if WordAt(s, i, "function") then 8 else if WordAt(s, i, "def") then 3 else 0
  }

  /** `/typeof|instanceof|===\s*null/g` */
  function CheckLen(s: string, i: nat): (n: nat)
    ensures n > 0 ==> i + n <= |s|
  {
    if StartsAt(s, i, "typeof") then 6
    else if StartsAt(s, i, "instanceof") then 10
    else if StartsAt(s, i, "===") && StartsAt(s, SkipSpaces(s, i + 3), "null") then
      SkipSpaces(s, i + 3) + 4 - i
    else 0
  }

  /** `/try\s*{/g` */
  function TryBlockLen(s: string, i: nat): (n: nat)
    ensures n > 0 ==> i + n <= |s|
  {
    if StartsAt(s, i, "try") && StartsAt(s, SkipSpaces(s, i + 3), "{") then SkipSpaces(s, i + 3) + 1 - i
    else 0
  }

  /** `[=+\-*\/<>!]` */
  predicate IsOperator(c: char) { c in "=+-*/<>!" }

  /**
   * `/\s[=+\-*\/<>!]=?\s/g`: a space, an operator, an optional `=` and a space. The optional `=` is
   * taken when a space follows it; otherwise the operator itself must be followed by a space.
   */
  function SpacedOperatorLen(s: string, i: nat): (n: nat)
    ensures n > 0 ==> i + n <= |s| && (n == 3 || n == 4)
  {
    if i + 2 < |s| && IsSpace(s[i]) && IsOperator(s[i + 1]) then
      if i + 3 < |s| && s[i + 2] == '=' && IsSpace(s[i + 3]) then 4
      else if IsSpace(s[i + 2]) then 3
      else 0
    else 0
  }

  /** `/\s+/g` */
  function SpaceRunLen(s: string, i: nat): (n: nat)
    ensures n > 0 ==> i + n <= |s|
  {
    if i < |s| && IsSpace(s[i]) then SkipSpaces(s, i) - i else 0
  }

  /** The replacement of every white-space run. */
  function SingleSpace(t: string, i: nat): string { " " }

  /** No white space but single `' '` characters, none next to another. */
  predicate Collapsed(r: string) {
    forall k :: 0 <= k < |r| && IsSpace(r[k]) ==> r[k] == ' ' && (k + 1 < |r| ==> !IsSpace(r[k + 1]))
  }

  /** `code.replace(/\s+/g, " ")`: every run of white space becomes one space. */
  function CollapseSpaces(s: string): (r: string)
    ensures |r| <= |s|
    ensures Collapsed(r)
  {
    CollapsedFrom(s, 0);
    ReplaceFrom(s, 0, SpaceRunLen, SingleSpace)
  }

  /** Collapsing from `i` on: shorter, collapsed, and starting with `s[i]` or the space standing for its run. */
  lemma {:induction false} CollapsedFrom(s: string, i: nat)
    ensures i <= |s| ==> |ReplaceFrom(s, i, SpaceRunLen, SingleSpace)| <= |s| - i
    ensures Collapsed(ReplaceFrom(s, i, SpaceRunLen, SingleSpace))
    ensures i < |s| ==>
      (ReplaceFrom(s, i, SpaceRunLen, SingleSpace) != [] &&
       ReplaceFrom(s, i, SpaceRunLen, SingleSpace)[0] == (if IsSpace(s[i]) then ' ' else s[i]))
    decreases |s| - i
  {
    if i < |s| {
      var r := ReplaceFrom(s, i, SpaceRunLen, SingleSpace);
      if IsSpace(s[i]) {
        var e := SkipSpaces(s, i);
        assert SpaceRunLen(s, i) > 0 && MatchEnd(s, i, SpaceRunLen) == e;
        CollapsedFrom(s, e);
        var rest := ReplaceFrom(s, e, SpaceRunLen, SingleSpace);
        assert r == " " + rest;
        assert rest != [] ==> !IsSpace(rest[0]);
      } else {
        assert SpaceRunLen(s, i) == 0;
        CollapsedFrom(s, i + 1);
        var rest := ReplaceFrom(s, i + 1, SpaceRunLen, SingleSpace);
        assert r == [s[i]] + rest;
      }
    }
  }

  // ---------------------------------------------------------------- tested patterns

  /** `import\s+\w+` matching at `i`. */
  predicate ImportAt(s: string, i: nat) {
    StartsAt(s, i, "import") && i + 6 < |s| && IsSpace(s[i + 6]) &&
    SkipSpaces(s, i + 6) < |s| && IsWordChar(s[SkipSpaces(s, i + 6)])
  }

  /** `\bpublic\s+class\b` matching at `i`. */
  predicate PublicClassAt(s: string, i: nat) {
    StartsAt(s, i, "public") && (i == 0 || !IsWordChar(s[i - 1])) &&
    i + 6 < |s| && IsSpace(s[i + 6]) && WordAt(s, SkipSpaces(s, i + 6), "class")
  }

  /** `^\s*#\s+` with the multiline flag, matching at `i`: at a line start, white space, `#`, white space. */
  predicate HeadingAt(s: string, i: nat) {
    i < |s| && (i == 0 || IsLineTerminator(s[i - 1])) &&
    var j := SkipSpaces(s, i);
    j + 1 < |s| && s[j] == '#' && IsSpace(s[j + 1])
  }

  /** `step\s+\d+` matching at `i` of an already lower-cased text. */
  predicate StepAt(s: string, i: nat) {
    StartsAt(s, i, "step") && i + 4 < |s| && IsSpace(s[i + 4]) &&
    SkipSpaces(s, i + 4) < |s| && IsDigit(s[SkipSpaces(s, i + 4)])
  }

  // ---------------------------------------------------------------- rewriting patterns

  /** The identifier captured by `(\w+)` at `from`. */
  function WordFrom(s: string, from: nat): string
    requires from <= |s|
  {
    s[from..SkipWord(s, from)]
  }

  /**
   * `/typeof\s+(\w+)\s*===?\s*['"]\w+['"]/g` matching at `i`; every quantifier meets a character it
   * cannot take, so the greedy reading is the only one.
   */
  function TypeofCheckLen(s: string, i: nat): (n: nat)
    ensures n > 0 ==> i + n <= |s|
  {
    if !(StartsAt(s, i, "typeof") && i + 6 < |s| && IsSpace(s[i + 6])) then 0
    else
      var b := SkipSpaces(s, i + 6);
      var c := SkipWord(s, b);
      var d := SkipSpaces(s, c);
      if c == b || !StartsAt(s, d, "==") then 0
      else
        var e := if StartsAt(s, d + 2, "=") then d + 3 else d + 2;
        var f := SkipSpaces(s, e);
        if !(f < |s| && (s[f] == '"' || s[f] == '\'')) then 0
        else
          var g := SkipWord(s, f + 1);
          if g == f + 1 || !(g < |s| && (s[g] == '"' || s[g] == '\'')) then 0
          else g + 1 - i
  }

  /** The identifier a `typeof` check at `i` tests. */
  function TypeofSubject(s: string, i: nat): string {
    if i + 6 <= |s| then WordFrom(s, SkipSpaces(s, i + 6)) else ""
  }

  /** `/if\s*\((\w+)\)/g` matching at `i`. */
  function IfGuardLen(s: string, i: nat): (n: nat)
    ensures n > 0 ==> i + n <= |s|
  {
    if !StartsAt(s, i, "if") then 0
    else
      var a := SkipSpaces(s, i + 2);
      if !StartsAt(s, a, "(") then 0
      else
        var b := SkipWord(s, a + 1);
        if b == a + 1 || !StartsAt(s, b, ")") then 0
        else b + 1 - i
  }

  /** The identifier an `if (x)` guard at `i` tests. */
  function GuardSubject(s: string, i: nat): string {
    var a := SkipSpaces(s, i + 2);
    if a + 1 <= |s| then WordFrom(s, a + 1) else ""
  }
}
