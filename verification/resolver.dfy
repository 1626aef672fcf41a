/** The heuristic type resolver: guesses what kind of value an identifier before a `.` holds,
    from the nearest `const`/`let`/`var` declaration above the cursor or, failing that, from its name. */
module Resolver {
  import opened Text

  /** The seven tags a hint context can carry. */
  datatype TypeTag = Array | String | Number | Object | Function | Boolean | General

  // ---------------------------------------------------------------------------------------------
  // Classification of a value (`determineTypeByValue`); every pattern is anchored at the start.

  /** `^<open>.*<close>$`: delimiters at both ends, no line terminator in between. */
  predicate Delimited(v: string, open: char -> bool, close: char -> bool) {
    |v| >= 2 && open(v[0]) && close(v[|v| - 1]) && All(v, 1, |v| - 1, IsLineChar)
  }

  predicate IsQuote(c: char) {
    c == '\'' || c == '"' || c == '`'
  }

  /** `^\d+(\.\d+)?$` */
  predicate IsNumeral(v: string) {
    var a := RunEnd(v, 0, IsDigit);
    a > 0 && (a == |v| || (v[a] == '.' && a + 1 < |v| && RunEnd(v, a + 1, IsDigit) == |v|))
  }

  /** `^function\s*\(` */
  predicate IsFunctionExpression(v: string) {
    StartsAt(v, 0, "function") && var j := RunEnd(v, 8, IsSpace); j < |v| && v[j] == '('
  }

  /** `^new\s+<wrapper>\(` */
  predicate IsConstruction(v: string, wrapper: string) {
    StartsAt(v, 0, "new") && var j := RunEnd(v, 3, IsSpace); j > 3 && StartsAt(v, j, wrapper + "(")
  }

  /** `determineTypeByValue`: an ordered first-match classifier of a (trimmed) initializer. */
  function ByValue(v: string): (tag: TypeTag)
    ensures tag != General
  {
    if Delimited(v, c => c == '[', c => c == ']') then Array
    else if Delimited(v, IsQuote, IsQuote) then String
    else if IsNumeral(v) then Number
    else if IsFunctionExpression(v) then Function
    else if Delimited(v, c => c == '{', c => c == '}') then Object
    else if v == "true" || v == "false" then Boolean
    else if IsConstruction(v, "Array") then Array
    else if IsConstruction(v, "String") then String
    else if IsConstruction(v, "Number") then Number
    else if IsConstruction(v, "Object") then Object
    else if IsConstruction(v, "Boolean") then Boolean
    else Object
  }

  /** `determineTypeByName`: case-sensitive substring tests in a fixed order. */
  function ByName(name: string): (tag: TypeTag)
    ensures tag != General
  {
    if Contains(name, "array") || Contains(name, "arr") || Contains(name, "list")
       || Contains(name, "items") || Contains(name, "elements") || Contains(name, "data") then Array
    else if Contains(name, "str") || Contains(name, "text") || Contains(name, "message")
       || Contains(name, "name") || Contains(name, "title") || Contains(name, "content") then String
    else if Contains(name, "num") || Contains(name, "count") || Contains(name, "index")
       || Contains(name, "id") || Contains(name, "age") || Contains(name, "price") then Number
    else if Contains(name, "func") || Contains(name, "fn") || Contains(name, "callback") then Function
    else if Contains(name, "bool") || Contains(name, "flag") || Contains(name, "is") then Boolean
    else if Contains(name, "obj") || Contains(name, "user") || Contains(name, "config")
       || Contains(name, "data") || Contains(name, "settings") then Object
    else Object
  }

  /** The `data` test of the Object group is never reached: a name containing `data` is already
      an Array. */
  lemma ObjectDataTestUnreachable(name: string)
    requires Contains(name, "data")
    ensures ByName(name) == Array
  {
  }

  /** The substring tests on a (trimmed) type annotation; None lets the value decide. */
  function ByAnnotation(t: string): (r: Option<TypeTag>)
    ensures r.Some? ==> r.value != General
  {
    if Contains(t, "[]") || Contains(t, "Array<") || Contains(t, "ReadonlyArray<") then Some(Array)
    else if Contains(t, "string") || Contains(t, "String") then Some(String)
    else if Contains(t, "number") || Contains(t, "Number") then Some(Number)
    else if Contains(t, "Function") || Contains(t, "=>") then Some(Function)
    else if Contains(t, "object") || Contains(t, "Object") || Contains(t, "interface") then Some(Object)
    else if Contains(t, "boolean") || Contains(t, "Boolean") then Some(Boolean)
    else None
  }

  // ---------------------------------------------------------------------------------------------
  // The two declaration patterns, matched as a backtracking engine would: the leftmost start
  // position wins and, at a start, alternatives are tried in the engine's order.

  /** `(?:const|let|var)` at `i`: the position after the keyword. */
  function KeywordAt(s: string, i: nat): (r: Option<nat>)
    ensures r.Some? ==> i < r.value <= |s|
  {
    if StartsAt(s, i, "const") then Some(i + 5)
    else if StartsAt(s, i, "let") then Some(i + 3)
    else if StartsAt(s, i, "var") then Some(i + 3)
    else None
  }

  /** `(?:const|let|var)\s+<name>\s*` at `i`: the position after the spaces that follow the name.
      Both space runs are maximal, since the name starts and the next token (`:` or `=`) is not a space. */
  function DeclHead(s: string, i: nat, name: string): (r: Option<nat>)
    ensures r.Some? ==> i < r.value <= |s|
  {
    match KeywordAt(s, i)
    case None => None
    case Some(k) =>
      var w := RunEnd(s, k, IsSpace);
      if w > k && StartsAt(s, w, name) then Some(RunEnd(s, w + |name|, IsSpace)) else None
  }

  /** `\s*(.+)` from `p`: the spaces are given back one by one (from `j` down) until `.+` can start. */
  function TailFrom(s: string, p: nat, j: nat): (r: Option<string>)
    requires p <= j <= |s|
    ensures r.Some? ==> |r.value| > 0
    decreases j
  {
    if j < |s| && IsLineChar(s[j]) then Some(s[j..RunEnd(s, j, IsLineChar)])
    else if j > p then TailFrom(s, p, j - 1)
    else None
  }

  /** The second capture, `(.+)` after `=\s*`, of a match whose `=` sits at `p - 1`. */
  function Tail(s: string, p: nat): Option<string>
    requires p <= |s|
  {
    TailFrom(s, p, RunEnd(s, p, IsSpace))
  }

  /** `(.+?)\s*=\s*(.+)` with the lazy group starting at `g` and currently ending at `e`. */
  function LazyFrom(s: string, g: nat, e: nat): Option<(string, string)>
    requires g < e <= |s|
    decreases |s| - e
  {
    var q := RunEnd(s, e, IsSpace);
    var tail := if q < |s| && s[q] == '=' then Tail(s, q + 1) else None;
    if tail.Some? then Some((s[g..e], tail.value))
    else if e < |s| && IsLineChar(s[e]) then LazyFrom(s, g, e + 1)
    else None
  }

  /** `\s*(.+?)\s*=\s*(.+)` after the `:` at `lo - 1`: the leading `\s*` gives back spaces from `g` down. */
  function TypedGroups(s: string, lo: nat, g: nat): Option<(string, string)>
    requires lo <= g <= |s|
    decreases g
  {
    var r := if g < |s| && IsLineChar(s[g]) then LazyFrom(s, g, g + 1) else None;
    if r.Some? then r
    else if g > lo then TypedGroups(s, lo, g - 1)
    else None
  }

  /** `(?:const|let|var)\s+<name>\s*:\s*(.+?)\s*=\s*(.+)` at `i`: (annotation, value) captures. */
  function TypedAt(s: string, i: nat, name: string): Option<(string, string)> {
    match DeclHead(s, i, name)
    case None => None
    case Some(h) =>
      if h < |s| && s[h] == ':' then TypedGroups(s, h + 1, RunEnd(s, h + 1, IsSpace)) else None
  }

  /** `(?:const|let|var)\s+<name>\s*=\s*(.+)` at `i`: the value capture. */
  function UntypedAt(s: string, i: nat, name: string): Option<string> {
    match DeclHead(s, i, name)
    case None => None
    case Some(h) => if h < |s| && s[h] == '=' then Tail(s, h + 1) else None
  }

  /** The leftmost match of the typed pattern, searching start positions from `i`. */
  function TypedFrom(s: string, name: string, i: nat): Option<(string, string)>
    decreases |s| - i
  {
    if i >= |s| then None
    else if TypedAt(s, i, name).Some? then TypedAt(s, i, name)
    else TypedFrom(s, name, i + 1)
  }

  /** The leftmost match of the untyped pattern, searching start positions from `i`. */
  function UntypedFrom(s: string, name: string, i: nat): Option<string>
    decreases |s| - i
  {
    if i >= |s| then None
    else if UntypedAt(s, i, name).Some? then UntypedAt(s, i, name)
    else UntypedFrom(s, name, i + 1)
  }

  /** What one line says about `name`: the typed form first (annotation, then value as fallback),
      then the untyped form; None when the line declares nothing under that name. */
  function LineTag(line: string, name: string): (r: Option<TypeTag>)
    ensures r.Some? ==> r.value != General
  {
    match TypedFrom(line, name, 0)
    case Some((t, v)) =>
      (match ByAnnotation(Trim(t))
       case Some(tag) => Some(tag)
       case None => Some(ByValue(Trim(v))))
    case None =>
      (match UntypedFrom(line, name, 0)
       case Some(v) => Some(ByValue(Trim(v)))
       case None => None)
  }

  /** What each line of the document says about `name`. */
  function Findings(lines: seq<string>, name: string): (f: seq<Option<TypeTag>>)
    ensures |f| == |lines|
    ensures forall k | 0 <= k < |lines| :: f[k] == LineTag(lines[k], name)
  {
    seq(|lines|, k requires 0 <= k < |lines| => LineTag(lines[k], name))
  }

  /** The first finding met walking from line `i` back to line 0; `fallback` when there is none. */
  function Nearest(found: seq<Option<TypeTag>>, i: nat, fallback: TypeTag): TypeTag
    requires i < |found|
    decreases i
  {
    match found[i]
    case Some(tag) => tag
    case None => if i == 0 then fallback else Nearest(found, i - 1, fallback)
  }

  /** The scan of `determineVariableType` from line `i` back to line 0. */
  function Resolve(lines: seq<string>, i: nat, name: string): TypeTag
    requires i < |lines|
  {
    Nearest(Findings(lines, name), i, ByName(name))
  }

  /** `determineVariableType`: walks the lines from the cursor's line down to line 0 and classifies
      the first declaration of `name` it meets; with none, the name heuristic decides. */
  method DetermineVariableType(name: string, lines: seq<string>, cursorLine: nat) returns (tag: TypeTag)
    requires IsIdentifier(name)
    requires cursorLine < |lines|
    ensures tag == Resolve(lines, cursorLine, name)
  {
    var i: int := cursorLine;
    while i >= 0
      invariant -1 <= i <= cursorLine
      invariant Resolve(lines, cursorLine, name) == if i >= 0 then Resolve(lines, i, name) else ByName(name)
      decreases i
    {
      var found := LineTag(lines[i], name);
      if found.Some? {
        return found.value;
      }
      i := i - 1;
    }
    return ByName(name);
  }

  // ---------------------------------------------------------------------------------------------
  // Properties of the declaration search.

  /** The nearest finding at or above line `i` decides, whatever lies above it. */
  lemma {:induction false} NearestHit(found: seq<Option<TypeTag>>, i: nat, j: nat, fallback: TypeTag)
    requires j <= i < |found|
    requires found[j].Some?
    requires forall k | j < k <= i :: found[k].None?
    ensures Nearest(found, i, fallback) == found[j].value
    decreases i
  {
    if i > j {
      NearestHit(found, i - 1, j, fallback);
    }
  }

  /** With no finding at or above line `i`, the fallback decides. */
  lemma {:induction false} NearestMiss(found: seq<Option<TypeTag>>, i: nat, fallback: TypeTag)
    requires i < |found|
    requires forall k | 0 <= k <= i :: found[k].None?
    ensures Nearest(found, i, fallback) == fallback
    decreases i
  {
    if i > 0 {
      NearestMiss(found, i - 1, fallback);
    }
  }

  /** The result is always one of the findings at or above line `i`, or the fallback. */
  lemma {:induction false} NearestIsAFinding(found: seq<Option<TypeTag>>, i: nat, fallback: TypeTag)
    requires i < |found|
    ensures Nearest(found, i, fallback) == fallback
         || exists k | 0 <= k <= i :: found[k] == Some(Nearest(found, i, fallback))
    decreases i
  {
    if found[i].None? && i > 0 {
      NearestIsAFinding(found, i - 1, fallback);
    }
  }

  /** The scan never yields `General`: neither a line nor the name heuristic produces it. */
  lemma ResolveIsSpecific(lines: seq<string>, row: nat, name: string)
    requires row < |lines|
    ensures Resolve(lines, row, name) != General
  {
    NearestIsAFinding(Findings(lines, name), row, ByName(name));
  }

  /** The nearest declaring line at or above the cursor decides, whatever lies above it. */
  lemma ResolveNearest(lines: seq<string>, row: nat, j: nat, name: string)
    requires j <= row < |lines|
    requires LineTag(lines[j], name).Some?
    requires forall k | j < k <= row :: LineTag(lines[k], name).None?
    ensures Resolve(lines, row, name) == LineTag(lines[j], name).value
  {
    NearestHit(Findings(lines, name), row, j, ByName(name));
  }

  /** With no declaring line at or above the cursor, the name heuristic decides. */
  lemma ResolveFallback(lines: seq<string>, row: nat, name: string)
    requires row < |lines|
    requires forall k | 0 <= k <= row :: LineTag(lines[k], name).None?
    ensures Resolve(lines, row, name) == ByName(name)
  {
    NearestMiss(Findings(lines, name), row, ByName(name));
  }

  /** Lines below the cursor are never read. */
  lemma {:induction false} NearestIgnoresBelow(found: seq<Option<TypeTag>>, more: seq<Option<TypeTag>>, i: nat, fallback: TypeTag)
    requires i < |found|
    ensures Nearest(found + more, i, fallback) == Nearest(found, i, fallback)
    decreases i
  {
    assert (found + more)[i] == found[i];
    if i > 0 {
      NearestIgnoresBelow(found, more, i - 1, fallback);
    }
  }

  /** Lines below the cursor are never read. */
  lemma ResolveIgnoresLinesBelow(lines: seq<string>, more: seq<string>, row: nat, name: string)
    requires row < |lines|
    ensures Resolve(lines + more, row, name) == Resolve(lines, row, name)
  {
    assert Findings(lines + more, name) == Findings(lines, name) + Findings(more, name);
    NearestIgnoresBelow(Findings(lines, name), Findings(more, name), row, ByName(name));
  }

  /** When `p` is the only place from `i` on where a keyword starts, both leftmost searches
      come down to the match attempt at `p`. */
  lemma OnlyCandidate(s: string, name: string, i: nat, p: nat)
    requires i <= p < |s|
    requires forall j | i <= j < |s| && j != p :: KeywordAt(s, j).None?
    ensures TypedFrom(s, name, i) == TypedAt(s, p, name)
    ensures UntypedFrom(s, name, i) == UntypedAt(s, p, name)
  {
    OnlyTypedCandidate(s, name, i, p);
    OnlyUntypedCandidate(s, name, i, p);
  }

  /** The typed half of `OnlyCandidate`. */
  lemma {:induction false} OnlyTypedCandidate(s: string, name: string, i: nat, p: nat)
    requires i <= p < |s|
    requires forall j | i <= j < |s| && j != p :: KeywordAt(s, j).None?
    ensures TypedFrom(s, name, i) == TypedAt(s, p, name)
    decreases |s| - i
  {
    if i < p {
      assert DeclHead(s, i, name).None? by {
        assert KeywordAt(s, i).None?;
      }
      OnlyTypedCandidate(s, name, i + 1, p);
    } else {
      NoCandidate(s, name, p + 1);
    }
  }

  /** The untyped half of `OnlyCandidate`. */
  lemma {:induction false} OnlyUntypedCandidate(s: string, name: string, i: nat, p: nat)
    requires i <= p < |s|
    requires forall j | i <= j < |s| && j != p :: KeywordAt(s, j).None?
    ensures UntypedFrom(s, name, i) == UntypedAt(s, p, name)
    decreases |s| - i
  {
    if i < p {
      assert DeclHead(s, i, name).None? by {
        assert KeywordAt(s, i).None?;
      }
      OnlyUntypedCandidate(s, name, i + 1, p);
    } else {
      NoCandidate(s, name, p + 1);
    }
  }

  /** Without a keyword from `i` on, neither pattern matches from `i` on. */
  lemma {:induction false} NoCandidate(s: string, name: string, i: nat)
    requires forall j | i <= j < |s| :: KeywordAt(s, j).None?
    ensures TypedFrom(s, name, i).None? && UntypedFrom(s, name, i).None?
    decreases |s| - i
  {
    if i < |s| {
      NoCandidate(s, name, i + 1);
    }
  }

  /** The typed search from `i` finds nothing exactly when no start position from `i` on
      matches. */
  lemma {:induction false} TypedFromNone(s: string, name: string, i: nat)
    ensures TypedFrom(s, name, i).None? <==> forall p | i <= p < |s| :: TypedAt(s, p, name).None?
    decreases |s| - i
  {
    if i < |s| && TypedAt(s, i, name).None? {
      TypedFromNone(s, name, i + 1);
    }
  }

  /** The typed search from `i` reports the attempt at the leftmost start position that matches. */
  lemma {:induction false} TypedFromFirst(s: string, name: string, i: nat, p: nat)
    requires i <= p < |s| && TypedAt(s, p, name).Some?
    requires forall q | i <= q < p :: TypedAt(s, q, name).None?
    ensures TypedFrom(s, name, i) == TypedAt(s, p, name)
    decreases p - i
  {
    if i < p {
      TypedFromFirst(s, name, i + 1, p);
    }
  }

  /** The untyped search from `i` finds nothing exactly when no start position from `i` on
      matches. */
  lemma {:induction false} UntypedFromNone(s: string, name: string, i: nat)
    ensures UntypedFrom(s, name, i).None? <==> forall p | i <= p < |s| :: UntypedAt(s, p, name).None?
    decreases |s| - i
  {
    if i < |s| && UntypedAt(s, i, name).None? {
      UntypedFromNone(s, name, i + 1);
    }
  }

  /** The untyped search from `i` reports the attempt at the leftmost start position that matches. */
  lemma {:induction false} UntypedFromFirst(s: string, name: string, i: nat, p: nat)
    requires i <= p < |s| && UntypedAt(s, p, name).Some?
    requires forall q | i <= q < p :: UntypedAt(s, q, name).None?
    ensures UntypedFrom(s, name, i) == UntypedAt(s, p, name)
    decreases p - i
  {
    if i < p {
      UntypedFromFirst(s, name, i + 1, p);
    }
  }

  /** The lazy group grows over characters that are neither spaces nor `=` without matching. */
  lemma {:induction false} LazySkips(s: string, g: nat, e: nat, f: nat)
    requires g < e <= f <= |s|
    requires forall k | e <= k < f :: !IsSpace(s[k]) && s[k] != '=' && IsLineChar(s[k])
    ensures LazyFrom(s, g, e) == LazyFrom(s, g, f)
    decreases f - e
  {
    if e < f {
      assert RunEnd(s, e, IsSpace) == e;
      LazySkips(s, g, e + 1, f);
    }
  }

  /** When the first lazy extension that matches is at `e`, the typed groups starting at `g`
      are the ones found there. */
  lemma GroupsFromLazy(s: string, lo: nat, g: nat, e: nat)
    requires lo <= g < e <= |s|
    requires IsLineChar(s[g])
    requires forall k | g < k < e :: !IsSpace(s[k]) && s[k] != '=' && IsLineChar(s[k])
    requires LazyFrom(s, g, e).Some?
    ensures TypedGroups(s, lo, g) == LazyFrom(s, g, e)
  {
    LazySkips(s, g, g + 1, e);
  }

  /** A keyword can only start at a `c`, an `l` or a `v`. */
  lemma KeywordInitial(s: string, j: nat)
    requires KeywordAt(s, j).Some?
    ensures j < |s| && (s[j] == 'c' || s[j] == 'l' || s[j] == 'v')
  {
  }

  /** The value patterns that must reach the end of the value (`$`) all fail on a trailing `;`,
      so such a value is an Object unless it starts like a function expression or a `new` call. */
  lemma TrailingSemicolonIsObject(v: string)
    requires |v| > 0 && v[|v| - 1] == ';'
    requires !StartsAt(v, 0, "function") && !StartsAt(v, 0, "new")
    ensures ByValue(v) == Object
  {
  }
}
