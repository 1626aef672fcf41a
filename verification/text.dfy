/** Character classes and string scanning shared by the hint engine and the run path.
    Regular-expression classes are written out as predicates over `char`. */
module Text {

  datatype Option<T> = None | Some(value: T)

  /** ECMAScript `\s`: WhiteSpace and LineTerminator. `String.prototype.trim` strips the same set. */
  predicate IsSpace(c: char) {
    || c == ' ' || c == '\t' || c == '\n' || c == '\r' || c == '\U{000B}' || c == '\U{000C}'
    || c == '\U{00A0}' || c == '\U{1680}' || ('\U{2000}' <= c <= '\U{200A}')
    || c == '\U{2028}' || c == '\U{2029}' || c == '\U{202F}' || c == '\U{205F}'
    || c == '\U{3000}' || c == '\U{FEFF}'
  }

  /** The characters `.` does not match in a pattern without the `s` flag. */
  predicate IsLineTerminator(c: char) {
    c == '\n' || c == '\r' || c == '\U{2028}' || c == '\U{2029}'
  }

  /** What `.` matches. */
  predicate IsLineChar(c: char) {
    !IsLineTerminator(c)
  }

  /** `\d` */
  predicate IsDigit(c: char) {
    '0' <= c <= '9'
  }

  /** `\w`: an ASCII letter, an ASCII digit or `_`. */
  predicate IsWordChar(c: char) {
    ('a' <= c <= 'z') || ('A' <= c <= 'Z') || IsDigit(c) || c == '_'
  }

  /** No character is both a space and a word character. Stated at a position of `s`, with no
      precondition, so that it can be brought in where other facts already clash. */
  lemma SpaceIsNotWord(s: string, i: int)
    ensures 0 <= i < |s| ==> !(IsSpace(s[i]) && IsWordChar(s[i]))
  {
  }

  /** Every character of `s[i..j]` satisfies `p`. */
  predicate All(s: string, i: nat, j: nat, p: char -> bool)
    requires i <= j <= |s|
  {
    forall k | i <= k < j :: p(s[k])
  }

  /** An identifier as `\w+` captures it. */
  predicate IsIdentifier(s: string) {
    |s| > 0 && All(s, 0, |s|, IsWordChar)
  }

  /** End of the maximal run of `p`-characters starting at `i`: where a greedy `p*` from `i` stops. */
  function RunEnd(s: string, i: nat, p: char -> bool): (j: nat)
    requires i <= |s|
    ensures i <= j <= |s|
    ensures All(s, i, j, p)
    ensures j == |s| || !p(s[j])
    decreases |s| - i
  {
    if i == |s| || !p(s[i]) then i else RunEnd(s, i + 1, p)
  }

  /** Start of the maximal run of `p`-characters ending at `j`. */
  function RunStart(s: string, j: nat, p: char -> bool): (i: nat)
    requires j <= |s|
    ensures i <= j
    ensures All(s, i, j, p)
    ensures i == 0 || !p(s[i - 1])
    decreases j
  {
    if j == 0 || !p(s[j - 1]) then j else RunStart(s, j - 1, p)
  }

  /** The maximal run ending at `j` is determined by where it stops: any `i` with only
      `p`-characters up to `j` and none right before it is `RunStart(s, j, p)`. */
  lemma RunStartIs(s: string, j: nat, p: char -> bool, i: nat)
    requires i <= j <= |s|
    requires All(s, i, j, p) && (i == 0 || !p(s[i - 1]))
    ensures RunStart(s, j, p) == i
  {
  }

  /** The maximal run starting at `i` is determined by where it stops. */
  lemma RunEndIs(s: string, i: nat, p: char -> bool, j: nat)
    requires i <= j <= |s|
    requires All(s, i, j, p) && (j == |s| || !p(s[j]))
    ensures RunEnd(s, i, p) == j
  {
  }

  /** `line.substring(0, pos)`: a position past the end is clamped to the end. */
  function Before(line: string, pos: nat): (r: string)
    ensures |r| == if pos <= |line| then pos else |line|
    ensures r <= line
  {
    if pos <= |line| then line[..pos] else line
  }

  /** `p[k..]` occurs in `s` at `i + k`, compared character by character. */
  predicate SameFrom(s: string, i: nat, p: string, k: nat)
    requires i + |p| <= |s|
    decreases |p| - k
  {
    k >= |p| || (s[i + k] == p[k] && SameFrom(s, i, p, k + 1))
  }

  /** `s.startsWith(p, i)`: `p` occurs in `s` at position `i`. */
  predicate StartsAt(s: string, i: nat, p: string) {
    i + |p| <= |s| && SameFrom(s, i, p, 0)
  }

  /** `String.prototype.trim`. */
  function Trim(s: string): (r: string)
    ensures r == "" <==> All(s, 0, |s|, IsSpace)
    ensures r != "" ==> !IsSpace(r[0]) && !IsSpace(r[|r| - 1])
    ensures exists a :: 0 <= a && a + |r| <= |s| && r == s[a..a + |r|]
              && All(s, 0, a, IsSpace) && All(s, a + |r|, |s|, IsSpace)
  {
    var a := RunEnd(s, 0, IsSpace);
    if a == |s| then
      assert s[a..a] == "";
      ""
    else
      var b := RunStart(s, |s|, IsSpace);
      s[a..b]
  }

  /** ASCII lower-casing of one character. */
  function LowerChar(c: char): (r: char)
    ensures IsWordChar(c) <==> IsWordChar(r)
  {
    if 'A' <= c <= 'Z' then (c as int + 32) as char else c
  }

  /** `toLowerCase` restricted to ASCII letters: exact for the hint texts and `\w` words it is applied to. */
  function Lower(s: string): (r: string)
    ensures |r| == |s|
    ensures forall k | 0 <= k < |s| :: r[k] == LowerChar(s[k])
  {
    seq(|s|, k requires 0 <= k < |s| => LowerChar(s[k]))
  }

  /** `sub` occurs in `s` at some position from `i` on. */
  predicate OccursFrom(s: string, sub: string, i: nat)
    decreases |s| - i
  {
    i + |sub| <= |s| && (StartsAt(s, i, sub) || OccursFrom(s, sub, i + 1))
  }

  /** `s.includes(sub)`. */
  predicate Contains(s: string, sub: string) {
    OccursFrom(s, sub, 0)
  }

  /** An occurrence at `i` is an occurrence from any earlier position on. */
  lemma {:induction false} OccursAtLeadsFrom(s: string, sub: string, j: nat, i: nat)
    requires j <= i && StartsAt(s, i, sub)
    ensures OccursFrom(s, sub, j)
    decreases i - j
  {
    if j < i {
      OccursAtLeadsFrom(s, sub, j + 1, i);
    }
  }

  /** `sub` does not occur from `i` on when no position there starts with its first two characters. */
  lemma {:induction false} AbsentFrom(s: string, sub: string, i: nat)
    requires |sub| >= 2
    requires forall j | i <= j && j + |sub| <= |s| :: s[j] != sub[0] || s[j + 1] != sub[1]
    ensures !OccursFrom(s, sub, i)
    decreases |s| - i
  {
    if i + |sub| <= |s| {
      assert s[i] != sub[0] || s[i + 1] != sub[1];
      assert !SameFrom(s, i, sub, 1) || s[i + 1] == sub[1];
      assert !StartsAt(s, i, sub);
      AbsentFrom(s, sub, i + 1);
    }
  }

  /** `s.lastIndexOf(c)` for a one-character needle: -1 when `c` does not occur. */
  function LastIndexOf(s: string, c: char): (r: int)
    ensures -1 <= r < |s|
    ensures r == -1 <==> c !in s
    ensures r >= 0 ==> s[r] == c && forall k | r < k < |s| :: s[k] != c
    decreases |s|
  {
    if |s| == 0 then -1
    else if s[|s| - 1] == c then |s| - 1
    else
      var r := LastIndexOf(s[..|s| - 1], c);
      assert s == s[..|s| - 1] + [s[|s| - 1]];
      r
  }
}
