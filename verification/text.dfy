/**
 * String primitives of JavaScript that the detector and the user helpers rely on:
 * the whitespace class shared by `\s` and `String.prototype.trim`, `\w` word characters,
 * `includes`, `startsWith`, ASCII case folding, `split("\n")` and `join("\n")`.
 */
module Text {

  datatype Option<T> = None | Some(value: T)

  /** The characters JavaScript's `\s` and `trim()` treat as white space (WhiteSpace and LineTerminator). */
  predicate IsSpace(c: char) {
    c == '\t' || c == '\n' || c == '\U{000B}' || c == '\U{000C}' || c == '\r' || c == ' ' ||
    c == '\U{00A0}' || c == '\U{1680}' || ('\U{2000}' <= c <= '\U{200A}') ||
    c == '\U{2028}' || c == '\U{2029}' || c == '\U{202F}' || c == '\U{205F}' || c == '\U{3000}' ||
    c == '\U{FEFF}'
  }

  /** The characters after which a multiline `^` matches. */
  predicate IsLineTerminator(c: char) {
    c == '\n' || c == '\r' || c == '\U{2028}' || c == '\U{2029}'
  }

  predicate IsDigit(c: char) { '0' <= c <= '9' }

  predicate IsLetter(c: char) { ('a' <= c <= 'z') || ('A' <= c <= 'Z') }

  /** `\w` without the `u` flag: `[A-Za-z0-9_]`. */
  predicate IsWordChar(c: char) { IsLetter(c) || IsDigit(c) || c == '_' }

  predicate IsBlank(s: string) {
    forall k :: 0 <= k < |s| ==> IsSpace(s[k])
  }

  /** `s` holds `w` starting at index `i`. */
  predicate StartsAt(s: string, i: int, w: string) {
    0 <= i && i + |w| <= |s| && s[i..i + |w|] == w
  }

  /** `s.includes(w)`. */
  predicate Contains(s: string, w: string) {
    exists i :: 0 <= i <= |s| - |w| && StartsAt(s, i, w)
  }

  predicate StartsWith(s: string, w: string) { StartsAt(s, 0, w) }

  lemma ContainsAt(s: string, w: string, i: int)
    requires StartsAt(s, i, w)
    ensures Contains(s, w)
  {
  }

  /** Whatever contains `w` keeps containing it inside a longer text. */
  lemma ContainsInConcat(a: string, b: string, c: string, w: string)
    requires Contains(b, w)
    ensures Contains(a + b + c, w)
  {
    var i :| 0 <= i <= |b| - |w| && StartsAt(b, i, w);
    assert (a + b + c)[|a| + i..|a| + i + |w|] == b[i..i + |w|];
    ContainsAt(a + b + c, w, |a| + i);
  }

  /** A text cannot contain a word whose first character it lacks. */
  lemma MissingFirstChar(s: string, w: string)
    requires w != [] && w[0] !in s
    ensures !Contains(s, w)
  {
    forall i | 0 <= i <= |s| - |w|
      ensures !StartsAt(s, i, w)
    {
      assert s[i] in s;
    }
  }

  /** A text keeps what it contains when something is appended to it. */
  lemma ContainsInPrefix(a: string, b: string, w: string)
    requires Contains(a, w)
    ensures Contains(a + b, w)
  {
    var i :| 0 <= i <= |a| - |w| && StartsAt(a, i, w);
    assert (a + b)[i..i + |w|] == a[i..i + |w|];
    ContainsAt(a + b, w, i);
  }

  /** A text keeps what it contains when something is prepended to it. */
  lemma ContainsInSuffix(a: string, b: string, w: string)
    requires Contains(b, w)
    ensures Contains(a + b, w)
  {
    var i :| 0 <= i <= |b| - |w| && StartsAt(b, i, w);
    assert (a + b)[|a| + i..|a| + i + |w|] == b[i..i + |w|];
    ContainsAt(a + b, w, |a| + i);
  }

  /** First index at or after `from` that is not white space (or `|s|`). */
  function SkipSpaces(s: string, from: nat): (j: nat)
    ensures from <= |s| ==> from <= j <= |s|
    ensures from > |s| ==> j == from
    ensures forall k :: from <= k < j ==> IsSpace(s[k])
    ensures j < |s| ==> !IsSpace(s[j])
    decreases |s| - from
  {
    if from < |s| && IsSpace(s[from]) then SkipSpaces(s, from + 1) else from
  }

  /** First index at or after `from` that is not a word character (or `|s|`). */
  function SkipWord(s: string, from: nat): (j: nat)
    ensures from <= |s| ==> from <= j <= |s|
    ensures from > |s| ==> j == from
    ensures forall k :: from <= k < j ==> IsWordChar(s[k])
    ensures j < |s| ==> !IsWordChar(s[j])
    decreases |s| - from
  {
    if from < |s| && IsWordChar(s[from]) then SkipWord(s, from + 1) else from
  }

  /** The end of `s[..j]` once its trailing white space is dropped. */
  function EndOfText(s: string, j: nat): (e: nat)
    requires j <= |s|
    ensures e <= j
    ensures forall k :: e <= k < j ==> IsSpace(s[k])
    ensures e > 0 ==> !IsSpace(s[e - 1])
    decreases j
  {
    if j > 0 && IsSpace(s[j - 1]) then EndOfText(s, j - 1) else j
  }

  /** `s.trim()`: `s` without its leading and trailing white space. */
  function Trim(s: string): (r: string)
    ensures |r| <= |s|
    ensures r == [] <==> IsBlank(s)
    ensures r != [] ==> !IsSpace(r[0]) && !IsSpace(r[|r| - 1])
    ensures exists i, j :: 0 <= i <= j <= |s| && r == s[i..j] && IsBlank(s[..i]) && IsBlank(s[j..])
  {
    var i := SkipSpaces(s, 0);
    var e := EndOfText(s, |s|);
    assert i < |s| ==> i < e;
    if i < e then
      assert IsBlank(s[..i]) && IsBlank(s[e..]);
      s[i..e]
    else
      assert IsBlank(s[..i]) && IsBlank(s[i..]);
      s[i..i]
  }

  /** Trimming keeps everything between two characters that are not white space. */
  lemma TrimKeepsInner(s: string, i: nat, j: nat)
    requires i < j <= |s| && !IsSpace(s[i]) && !IsSpace(s[j - 1])
    ensures Contains(Trim(s), s[i..j])
    ensures |Trim(s)| >= j - i
  {
    var b := SkipSpaces(s, 0);
    var e := EndOfText(s, |s|);
    assert b <= i && j <= e;
    SliceInSlice(s, b, e, i, j);
  }

  lemma SliceInSlice(s: string, b: nat, e: nat, i: nat, j: nat)
    requires b <= i <= j <= e <= |s|
    ensures Contains(s[b..e], s[i..j])
  {
    var t := s[b..e];
    assert forall k :: 0 <= k < j - i ==> t[i - b..j - b][k] == s[i..j][k];
    assert t[i - b..j - b] == s[i..j];
    ContainsAt(t, s[i..j], i - b);
  }

  /** ASCII upper-case letters mapped to lower case, everything else kept. */
  function LowerChar(c: char): (d: char)
    ensures IsWordChar(d) <==> IsWordChar(c)
    ensures IsDigit(d) <==> IsDigit(c)
    ensures IsSpace(d) <==> IsSpace(c)
  {
    if 'A' <= c <= 'Z' then (c as int + 32) as char else c
  }

  /** Case folding as a non-unicode `/i` regex and `toLowerCase` see it on ASCII text. */
  function Lower(s: string): (r: string)
    ensures |r| == |s|
    ensures forall k :: 0 <= k < |s| ==> r[k] == LowerChar(s[k])
  {
    seq(|s|, k requires 0 <= k < |s| => LowerChar(s[k]))
  }

  /** Number of occurrences of the character `c`: the length of `s.match(/c/g) || []`. */
  function CountChar(s: string, c: char): (n: nat)
    ensures n <= |s|
    ensures n == 0 <==> c !in s
  {
    if s == [] then 0 else (if s[0] == c then 1 else 0) + CountChar(s[1..], c)
  }

  /** `s.filter(p)`: the elements satisfying `p`, in their order, each as often as in `s`. */
  function Filter<T(!new)>(s: seq<T>, p: T -> bool): (r: seq<T>)
    ensures |r| <= |s|
    ensures forall k :: 0 <= k < |r| ==> p(r[k])
    ensures forall x :: x in r <==> x in s && p(x)
    ensures forall x :: multiset(r)[x] == if p(x) then multiset(s)[x] else 0
  {
    if s == [] then []
    else
      var rest := Filter(s[1..], p);
      assert s == [s[0]] + s[1..];
      assert multiset(s) == multiset{s[0]} + multiset(s[1..]);
      if p(s[0]) then
        assert multiset([s[0]] + rest) == multiset{s[0]} + multiset(rest);
        [s[0]] + rest
      else
        rest
  }

  /** `s.split("\n")`: always at least one piece, and no piece holds a newline. */
  function Lines(s: string): (r: seq<string>)
    ensures |r| >= 1
    ensures NoNewlines(r)
  {
    if s == [] then [""]
    else
      var rest := Lines(s[1..]);
      if s[0] == '\n' then [""] + rest
      else [[s[0]] + rest[0]] + rest[1..]
  }

  /** `ls.join("\n")`: every piece occurs in the result. */
  function Join(ls: seq<string>): (r: string)
    ensures forall k :: 0 <= k < |ls| ==> Contains(r, ls[k])
  {
    if ls == [] then ""
    else if |ls| == 1 then
      ContainsAt(ls[0], ls[0], 0);
      ls[0]
    else
      var rest := Join(ls[1..]);
      ContainsAt(ls[0], ls[0], 0);
      ContainsInPrefix(ls[0], "\n" + rest, ls[0]);
      assert ls[0] + "\n" + rest == ls[0] + ("\n" + rest);
      forall k | 1 <= k < |ls|
        ensures Contains(ls[0] + "\n" + rest, ls[k])
      {
        assert ls[k] == ls[1..][k - 1];
        ContainsInSuffix(ls[0] + "\n", rest, ls[k]);
      }
      ls[0] + "\n" + rest
  }

  predicate NoNewlines(ls: seq<string>) {
    forall k :: 0 <= k < |ls| ==> '\n' !in ls[k]
  }

  /** Splitting a newline-free piece glued in front of a text extends that text's first line. */
  lemma {:induction false} LinesOfPrefix(w: string, rest: string)
    requires '\n' !in w
    ensures Lines(w + rest) == [w + Lines(rest)[0]] + Lines(rest)[1..]
    decreases |w|
  {
    var L := Lines(rest);
    if w == [] {
      assert w + rest == rest;
      assert w + L[0] == L[0];
      assert L == [L[0]] + L[1..];
    } else {
      var s := w + rest;
      assert s[0] == w[0] && s[0] != '\n';
      assert s[1..] == w[1..] + rest;
      LinesOfPrefix(w[1..], rest);
      var R := Lines(s[1..]);
      assert R == [w[1..] + L[0]] + L[1..];
      assert Lines(s) == [[s[0]] + R[0]] + R[1..];
      assert [w[0]] + (w[1..] + L[0]) == w + L[0];
    }
  }

  /** Splitting undoes joining, for lines that hold no newline. */
  lemma {:induction false} LinesOfJoin(ls: seq<string>)
    requires |ls| >= 1 && NoNewlines(ls)
    ensures Lines(Join(ls)) == ls
    decreases |ls|
  {
    if |ls| == 1 {
      LinesOfPrefix(ls[0], "");
      assert Lines("") == [""];
      assert ls[0] + "" == ls[0];
      assert Join(ls) == ls[0];
      assert ls == [ls[0]];
    } else {
      LinesOfJoin(ls[1..]);
      var tail := "\n" + Join(ls[1..]);
      assert Join(ls) == ls[0] + tail;
      LinesOfPrefix(ls[0], tail);
      assert tail[0] == '\n' && tail[1..] == Join(ls[1..]);
      assert Lines(tail) == [""] + ls[1..];
      assert ls[0] + "" == ls[0];
      assert ls == [ls[0]] + ls[1..];
    }
  }

  /** Joining undoes splitting. */
  lemma {:induction false} JoinOfLines(s: string)
    ensures Join(Lines(s)) == s
    decreases |s|
  {
    if s != [] {
      JoinOfLines(s[1..]);
      var rest := Lines(s[1..]);
      assert s == [s[0]] + s[1..];
      if s[0] == '\n' {
        var r := [""] + rest;
        assert r[0] == "" && r[1..] == rest;
        assert Join(r) == "" + "\n" + Join(rest);
      } else {
        var r := [[s[0]] + rest[0]] + rest[1..];
        assert r[0] == [s[0]] + rest[0] && r[1..] == rest[1..];
        if |rest| == 1 {
          assert Join(rest) == rest[0];
          assert Join(r) == r[0];
        } else {
          assert Join(rest) == rest[0] + "\n" + Join(rest[1..]);
          assert Join(r) == r[0] + "\n" + Join(rest[1..]);
        }
      }
    }
  }
}
