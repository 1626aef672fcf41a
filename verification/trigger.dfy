/** When the editor offers hints, and on which identifier: `shouldShowHints`, `getContext`
    and `getCurrentWord`, all computed on the text of the cursor's line before the cursor. */
module Trigger {
  import opened Text
  import opened Resolver

  // ---------------------------------------------------------------------------------------------
  // The patterns, stated directly.

  /** `/\.\s*$/`: a dot followed by nothing but spaces. */
  predicate DotTail(b: string) {
    exists d | 0 <= d < |b| :: b[d] == '.' && All(b, d + 1, |b|, IsSpace)
  }

  /** `/^\s*\w*$/`: spaces, then word characters, then the end; the empty text matches. */
  predicate WordLine(b: string) {
    exists k | 0 <= k <= |b| :: All(b, 0, k, IsSpace) && All(b, k, |b|, IsWordChar)
  }

  /** `/(\w+)\s*\.\s*$/` matched with the word at `b[k..m]` and the dot at `d`. */
  predicate IdentDotAt(b: string, k: nat, m: nat, d: nat) {
    && k < m <= d < |b|
    && All(b, k, m, IsWordChar) && All(b, m, d, IsSpace)
    && b[d] == '.' && All(b, d + 1, |b|, IsSpace)
  }

  /** No word character precedes position `k`: a match of `\w+` cannot start further left. */
  predicate WordStart(b: string, k: nat)
    requires k <= |b|
  {
    k == 0 || !IsWordChar(b[k - 1])
  }

  // ---------------------------------------------------------------------------------------------
  // The computations.

  /** The dot pattern holds exactly when the last non-space character is a dot. */
  lemma DotTailByRun(b: string)
    ensures var e := RunStart(b, |b|, IsSpace); (e > 0 && b[e - 1] == '.') <==> DotTail(b)
  {
    var e := RunStart(b, |b|, IsSpace);
    if DotTail(b) {
      var d :| 0 <= d < |b| && b[d] == '.' && All(b, d + 1, |b|, IsSpace);
      if e < d + 1 {
        assert false;
      } else if e > d + 1 {
        assert false;
      }
    }
  }

  /** The line-start pattern holds exactly when the leading spaces reach the trailing word run. */
  lemma WordLineByRuns(b: string)
    ensures RunEnd(b, 0, IsSpace) >= RunStart(b, |b|, IsWordChar) <==> WordLine(b)
  {
    var a := RunEnd(b, 0, IsSpace);
    var w := RunStart(b, |b|, IsWordChar);
    if a >= w {
      assert All(b, 0, w, IsSpace) && All(b, w, |b|, IsWordChar);
    }
    if WordLine(b) {
      var k :| 0 <= k <= |b| && All(b, 0, k, IsSpace) && All(b, k, |b|, IsWordChar);
      if w > k {
        assert false;
      }
      if a < k {
        assert false;
      }
    }
  }

  /** `shouldShowHints`: hints are offered right after a dot (spaces allowed) or while the line so
      far is only spaces and at most one word. */
  function ShouldShowHints(line: string, pos: nat): (r: bool)
    ensures r <==> DotTail(Before(line, pos)) || WordLine(Before(line, pos))
  {
    var b := Before(line, pos);
    DotTailByRun(b);
    WordLineByRuns(b);
    var e := RunStart(b, |b|, IsSpace);
    (e > 0 && b[e - 1] == '.') || RunEnd(b, 0, IsSpace) >= RunStart(b, |b|, IsWordChar)
  }

  /** The first capture of `/(\w+)\s*\.\s*$/`: the identifier in front of the trailing dot. */
  function DotTarget(b: string): (r: Option<string>)
    ensures r.Some? ==> IsIdentifier(r.value)
    ensures r.Some? ==> exists k: nat, m: nat, d: nat :: IdentDotAt(b, k, m, d) && WordStart(b, k) && r.value == b[k..m]
    ensures r.None? ==> forall k: nat, m: nat, d: nat :: !IdentDotAt(b, k, m, d)
  {
    var e := RunStart(b, |b|, IsSpace);
    if e > 0 && b[e - 1] == '.' then
      var m := RunStart(b, e - 1, IsSpace);
      var k := RunStart(b, m, IsWordChar);
      if k < m then
        assert IdentDotAt(b, k, m, e - 1);
        Some(b[k..m])
      else
        NoIdentDot(b, e - 1, m);
        None
    else
      NoDotNoMatch(b);
      None
  }

  /** Without a dot as the last non-space character nothing matches. */
  lemma NoDotNoMatch(b: string)
    requires var e := RunStart(b, |b|, IsSpace); !(e > 0 && b[e - 1] == '.')
    ensures forall k: nat, m: nat, d: nat :: !IdentDotAt(b, k, m, d)
  {
    DotTailByRun(b);
    assert forall k: nat, m: nat, d: nat :: IdentDotAt(b, k, m, d) ==> DotTail(b);
  }

  /** With the last non-space character a dot at `d` and the spaces before it starting at `m`,
      no word character right before `m` means no match. */
  lemma NoIdentDot(b: string, d: nat, m: nat)
    requires d < |b| && b[d] == '.' && All(b, d + 1, |b|, IsSpace)
    requires m == RunStart(b, d, IsSpace)
    requires RunStart(b, m, IsWordChar) == m
    ensures forall k: nat, m': nat, d': nat :: !IdentDotAt(b, k, m', d')
  {
    forall k: nat, m': nat, d': nat | IdentDotAt(b, k, m', d')
      ensures false
    {
      DotIsLast(b, d, d');
      if m' < m {
        assert false;
      } else if m' > m {
        SpaceIsNotWord(b, m' - 1);
        assert false;
      } else {
        assert false;
      }
    }
  }

  /** Only one position can hold a dot followed by nothing but spaces. */
  lemma DotIsLast(b: string, d: nat, d': nat)
    requires d < |b| && b[d] == '.' && All(b, d + 1, |b|, IsSpace)
    requires d' < |b| && b[d'] == '.' && All(b, d' + 1, |b|, IsSpace)
    ensures d == d'
  {
  }

  /** Every match whose word cannot start further left is the one `DotTarget` reports. */
  lemma DotTargetIsTheMatch(b: string, k: nat, m: nat, d: nat)
    requires IdentDotAt(b, k, m, d) && WordStart(b, k)
    ensures DotTarget(b) == Some(b[k..m])
  {
    RunStartIs(b, |b|, IsSpace, d + 1);
    var e := RunStart(b, |b|, IsSpace);
    assert e > 0 && b[e - 1] == '.';
    SpaceIsNotWord(b, m - 1);
    RunStartIs(b, d, IsSpace, m);
    assert RunStart(b, e - 1, IsSpace) == m;
    RunStartIs(b, m, IsWordChar, k);
  }

  /** `getContext`: the type of the identifier in front of a trailing dot, General otherwise. */
  function ContextOf(lines: seq<string>, row: nat, col: nat): (tag: TypeTag)
    requires row < |lines|
    ensures tag == General <==> DotTarget(Before(lines[row], col)).None?
    ensures tag != General ==> var b := Before(lines[row], col); exists k: nat, m: nat, d: nat :: IdentDotAt(b, k, m, d)
    ensures DotTarget(Before(lines[row], col)).Some? ==>
              tag == Resolve(lines, row, DotTarget(Before(lines[row], col)).value)
  {
    match DotTarget(Before(lines[row], col))
    case Some(name) =>
      ResolveIsSpecific(lines, row, name);
      Resolve(lines, row, name)
    case None => General
  }

  /** `getContext` as the editor runs it, with the declaration search as a loop. */
  method GetContext(lines: seq<string>, row: nat, col: nat) returns (tag: TypeTag)
    requires row < |lines|
    ensures tag == ContextOf(lines, row, col)
  {
    var target := DotTarget(Before(lines[row], col));
    if target.Some? {
      tag := DetermineVariableType(target.value, lines, row);
    } else {
      tag := General;
    }
  }

  /** Whenever an identifier sits in front of a trailing dot, hints are offered, so a context
      other than General never goes unused. */
  lemma DotTargetImpliesHints(line: string, col: nat)
    requires DotTarget(Before(line, col)).Some?
    ensures ShouldShowHints(line, col)
  {
    var b := Before(line, col);
    var k: nat, m: nat, d: nat :| IdentDotAt(b, k, m, d);
    assert DotTail(b);
  }

  /** `getCurrentWord`: the match of `/\w+$/`, or the empty string. */
  function CurrentWord(line: string, col: nat): (w: string)
    ensures var b := Before(line, col);
      && |w| <= |b| && w == b[|b| - |w|..]
      && All(w, 0, |w|, IsWordChar)
      && (|w| == |b| || !IsWordChar(b[|b| - |w| - 1]))
  {
    var b := Before(line, col);
    b[RunStart(b, |b|, IsWordChar)..]
  }
}
