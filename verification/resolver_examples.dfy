/** Worked examples of the declaration search on concrete documents. */
module ResolverExamples {
  import opened Text
  import opened Resolver

  const ArrLine := "const arr = [1, 2, 3];"
  const DataLine := "const data: string[] = [1, 2];"
  const ShadowLine := "let x = 1; const x: string = y"
  const ArrowLine := "let f: () => void = g"

  /** No keyword starts after the first character of a line whose later characters hold no
      `c`, `l` or `v`. */
  lemma OnlyKeywordAtStart(s: string)
    requires |s| > 0
    requires forall j | 1 <= j < |s| :: s[j] != 'c' && s[j] != 'l' && s[j] != 'v'
    ensures forall j | 0 <= j < |s| && j != 0 :: KeywordAt(s, j).None?
  {
    forall j | 0 <= j < |s| && j != 0
      ensures KeywordAt(s, j).None?
    {
      if KeywordAt(s, j).Some? {
        KeywordInitial(s, j);
      }
    }
  }

  /** A line with no `c`, `l` or `v` declares nothing. */
  lemma NoKeywordNoDeclaration(s: string, name: string)
    requires forall j | 0 <= j < |s| :: s[j] != 'c' && s[j] != 'l' && s[j] != 'v'
    ensures LineTag(s, name).None?
  {
    forall j | 0 <= j < |s|
      ensures KeywordAt(s, j).None?
    {
      if KeywordAt(s, j).Some? {
        KeywordInitial(s, j);
      }
    }
    NoCandidate(s, name, 0);
  }

  lemma ArrHead(s: string)
    requires s == ArrLine
    ensures DeclHead(s, 0, "arr") == Some(10)
  {
    ArrKeyword(s);
    ArrName(s);
    assert RunEnd(s, 9, IsSpace) == 10;
  }

  lemma ArrKeyword(s: string)
    requires s == ArrLine
    ensures KeywordAt(s, 0) == Some(5) && RunEnd(s, 5, IsSpace) == 6
  {
  }

  lemma ArrName(s: string)
    requires s == ArrLine
    ensures StartsAt(s, 6, "arr")
  {
  }

  lemma ArrTail(s: string)
    requires s == ArrLine
    ensures Tail(s, 11) == Some("[1, 2, 3];")
  {
    assert RunEnd(s, 11, IsSpace) == 12;
    assert All(s, 12, |s|, IsLineChar);
    assert TailFrom(s, 11, 12) == Some(s[12..22]);
    assert s[12..22] == "[1, 2, 3];";
  }

  /** On `const arr = [1, 2, 3];` only the untyped form matches, and it captures `[1, 2, 3];`. */
  lemma {:induction false} ArrMatches(s: string)
    requires s == ArrLine
    ensures TypedFrom(s, "arr", 0).None?
    ensures UntypedFrom(s, "arr", 0) == Some("[1, 2, 3];")
  {
    OnlyKeywordAtStart(s);
    OnlyCandidate(s, "arr", 0, 0);
    ArrAttempt(s);
  }

  lemma ArrAttempt(s: string)
    requires s == ArrLine
    ensures TypedAt(s, 0, "arr").None?
    ensures UntypedAt(s, 0, "arr") == Some("[1, 2, 3];")
  {
    ArrHead(s);
    assert s[10] == '=';
    ArrTail(s);
  }

  /** The captured value `[1, 2, 3];` has nothing to trim and classifies as Object. */
  lemma ArrValueIsObject(v: string)
    requires v == "[1, 2, 3];"
    ensures ByValue(Trim(v)) == Object
  {
    assert RunEnd(v, 0, IsSpace) == 0;
    assert RunStart(v, |v|, IsSpace) == |v|;
    assert Trim(v) == v;
    TrailingSemicolonIsObject(v);
  }

  /** `const arr = [1, 2, 3];` declares `arr`, but the `;` kept in the captured value defeats
      every anchored literal pattern, so the value classifies as Object, not Array. */
  lemma {:induction false} ArrDeclarationIsObject(s: string)
    requires s == ArrLine
    ensures LineTag(s, "arr") == Some(Object)
  {
    ArrMatches(s);
    ArrValueIsObject("[1, 2, 3];");
  }

  /** Resolving `arr.` on the line after that declaration gives Object. */
  lemma {:induction false} SemicolonDeclarationResolvesToObject()
    ensures Resolve([ArrLine, "arr."], 1, "arr") == Object
  {
    var lines := [ArrLine, "arr."];
    NoKeywordNoDeclaration(lines[1], "arr");
    ArrDeclarationIsObject(lines[0]);
    ResolveNearest(lines, 1, 0, "arr");
  }

  /** With no declaration in scope, `userList` is classified by its name: the case-sensitive
      tests miss `list` in `List`, and the `is` inside `List` makes it Boolean. */
  lemma {:induction false} UndeclaredUserListIsBoolean(lines: seq<string>)
    requires lines == ["userList."]
    ensures Resolve(lines, 0, "userList") == Boolean
  {
    NoKeywordNoDeclaration(lines[0], "userList");
    ResolveFallback(lines, 0, "userList");
    UserListNameIsBoolean("userList");
  }

  /** The name tests on `userList`: only `is` occurs, and it is in the Boolean group. */
  lemma UserListNameIsBoolean(n: string)
    requires n == "userList"
    ensures ByName(n) == Boolean
  {
    UserListMissesArray(n);
    UserListMissesString(n);
    UserListMissesNumber(n);
    AbsentFrom(n, "func", 0); AbsentFrom(n, "fn", 0); AbsentFrom(n, "callback", 0);
    AbsentFrom(n, "bool", 0); AbsentFrom(n, "flag", 0);
    assert StartsAt(n, 5, "is");
    OccursAtLeadsFrom(n, "is", 0, 5);
  }

  lemma UserListMissesArray(n: string)
    requires n == "userList"
    ensures !(Contains(n, "array") || Contains(n, "arr") || Contains(n, "list")
              || Contains(n, "items") || Contains(n, "elements") || Contains(n, "data"))
  {
    AbsentFrom(n, "array", 0); AbsentFrom(n, "arr", 0); AbsentFrom(n, "list", 0);
    AbsentFrom(n, "items", 0); AbsentFrom(n, "elements", 0); AbsentFrom(n, "data", 0);
  }

  lemma UserListMissesString(n: string)
    requires n == "userList"
    ensures !(Contains(n, "str") || Contains(n, "text") || Contains(n, "message")
              || Contains(n, "name") || Contains(n, "title") || Contains(n, "content"))
  {
    AbsentFrom(n, "str", 0); AbsentFrom(n, "text", 0); AbsentFrom(n, "message", 0);
    AbsentFrom(n, "name", 0); AbsentFrom(n, "title", 0); AbsentFrom(n, "content", 0);
  }

  lemma UserListMissesNumber(n: string)
    requires n == "userList"
    ensures !(Contains(n, "num") || Contains(n, "count") || Contains(n, "index")
              || Contains(n, "id") || Contains(n, "age") || Contains(n, "price"))
  {
    AbsentFrom(n, "num", 0); AbsentFrom(n, "count", 0); AbsentFrom(n, "index", 0);
    AbsentFrom(n, "id", 0); AbsentFrom(n, "age", 0); AbsentFrom(n, "price", 0);
  }

  /** The `data` test of the Array group comes before the one of the Object group. */
  lemma DataNameIsArray()
    ensures ByName("data") == Array
  {
  }

  lemma DataHead(s: string)
    requires s == DataLine
    ensures DeclHead(s, 0, "data") == Some(10)
  {
    DataKeyword(s);
    DataName(s);
    assert RunEnd(s, 10, IsSpace) == 10;
  }

  lemma DataKeyword(s: string)
    requires s == DataLine
    ensures KeywordAt(s, 0) == Some(5) && RunEnd(s, 5, IsSpace) == 6
  {
  }

  lemma DataName(s: string)
    requires s == DataLine
    ensures StartsAt(s, 6, "data")
  {
  }

  /** The lazy annotation group grows from `s` to `string[]`, where ` = ` and a value follow. */
  lemma DataGroups(s: string)
    requires s == DataLine
    ensures TypedGroups(s, 11, 12) == Some(("string[]", "[1, 2];"))
  {
    DataLazy(s);
    DataAnnotationChars(s);
    GroupsFromLazy(s, 11, 12, 20);
  }

  /** `string[]`: no character after the first is a space or `=`. */
  lemma DataAnnotationChars(s: string)
    requires s == DataLine
    ensures IsLineChar(s[12])
    ensures forall k | 13 <= k < 20 :: !IsSpace(s[k]) && s[k] != '=' && IsLineChar(s[k])
  {
  }

  /** Once the lazy group spans `string[]`, ` = ` and the value follow. */
  lemma DataLazy(s: string)
    requires s == DataLine
    ensures LazyFrom(s, 12, 20) == Some(("string[]", "[1, 2];"))
  {
    DataValue(s);
    DataEquals(s);
    DataAnnotation(s);
  }

  lemma DataEquals(s: string)
    requires s == DataLine
    ensures RunEnd(s, 20, IsSpace) == 21 && s[21] == '='
  {
  }

  lemma DataAnnotation(s: string)
    requires s == DataLine
    ensures s[12..20] == "string[]"
  {
  }

  lemma DataValue(s: string)
    requires s == DataLine
    ensures Tail(s, 22) == Some("[1, 2];")
  {
    assert RunEnd(s, 22, IsSpace) == 23;
    assert RunEnd(s, 23, IsLineChar) == 30;
    assert Tail(s, 22) == Some(s[23..30]);
    assert s[23..30] == "[1, 2];";
  }

  /** On `const data: string[] = [1, 2];` the typed form matches with annotation `string[]`. */
  lemma {:induction false} DataMatches(s: string)
    requires s == DataLine
    ensures TypedFrom(s, "data", 0) == Some(("string[]", "[1, 2];"))
  {
    OnlyKeywordAtStart(s);
    OnlyCandidate(s, "data", 0, 0);
    DataTyped(s);
  }

  lemma DataTyped(s: string)
    requires s == DataLine
    ensures TypedAt(s, 0, "data") == Some(("string[]", "[1, 2];"))
  {
    DataHead(s);
    RunEndIs(s, 11, IsSpace, 12);
    DataGroups(s);
  }

  /** The annotation `string[]` contains `[]`: Array. */
  lemma DataAnnotationIsArray(t: string)
    requires t == "string[]"
    ensures ByAnnotation(Trim(t)) == Some(Array)
  {
    assert RunEnd(t, 0, IsSpace) == 0;
    assert RunStart(t, |t|, IsSpace) == |t|;
    assert Trim(t) == t;
    OccursAtLeadsFrom(t, "[]", 0, 6);
  }

  /** An annotated declaration is classified by its annotation, ahead of both its value and the
      name heuristic: `data.` after `const data: string[] = [1, 2];` resolves to Array. */
  lemma {:induction false} AnnotationDecides(lines: seq<string>)
    requires lines == [DataLine, "data."]
    ensures Resolve(lines, 1, "data") == Array
  {
    NoKeywordNoDeclaration(lines[1], "data");
    DataMatches(lines[0]);
    DataAnnotationIsArray("string[]");
    assert LineTag(lines[0], "data") == Some(Array);
    ResolveNearest(lines, 1, 0, "data");
  }

  // ---------------------------------------------------------------------------------------------
  // A line on which both forms match: the untyped one leftmost, the typed one further right.

  /** No keyword starts from `i` on except at `p` when no other character there is a `c`, an
      `l` or a `v`. */
  lemma KeywordsOnlyAt(s: string, i: nat, p: nat)
    requires i <= p < |s|
    requires forall j | i <= j < |s| && j != p :: s[j] != 'c' && s[j] != 'l' && s[j] != 'v'
    ensures forall j | i <= j < |s| && j != p :: KeywordAt(s, j).None?
  {
    forall j | i <= j < |s| && j != p
      ensures KeywordAt(s, j).None?
    {
      if KeywordAt(s, j).Some? {
        KeywordInitial(s, j);
      }
    }
  }

  /** `let x` at 0, with ` = ` after the name. */
  lemma ShadowLetHead(s: string)
    requires s == ShadowLine
    ensures DeclHead(s, 0, "x") == Some(6) && s[6] == '='
  {
    ShadowLetKeyword(s);
    ShadowLetName(s);
  }

  lemma ShadowLetKeyword(s: string)
    requires s == ShadowLine
    ensures KeywordAt(s, 0) == Some(3)
  {
    assert s[0] != 'c';
    assert StartsAt(s, 0, "let");
  }

  lemma ShadowLetName(s: string)
    requires s == ShadowLine
    ensures RunEnd(s, 3, IsSpace) == 4 && StartsAt(s, 4, "x") && RunEnd(s, 5, IsSpace) == 6 && s[6] == '='
  {
    ShadowSpaceAt3(s);
    ShadowSpaceAt5(s);
  }

  lemma ShadowSpaceAt3(s: string)
    requires s == ShadowLine
    ensures RunEnd(s, 3, IsSpace) == 4
  {
    RunEndIs(s, 3, IsSpace, 4);
  }

  lemma ShadowSpaceAt5(s: string)
    requires s == ShadowLine
    ensures RunEnd(s, 5, IsSpace) == 6
  {
    RunEndIs(s, 5, IsSpace, 6);
  }

  /** `const x` at 11, with `:` right after the name. */
  lemma ShadowConstHead(s: string)
    requires s == ShadowLine
    ensures DeclHead(s, 11, "x") == Some(18) && s[18] == ':'
  {
    ShadowConstKeyword(s);
    ShadowConstName(s);
  }

  lemma ShadowConstKeyword(s: string)
    requires s == ShadowLine
    ensures KeywordAt(s, 11) == Some(16)
  {
    assert StartsAt(s, 11, "const");
  }

  lemma ShadowConstName(s: string)
    requires s == ShadowLine
    ensures RunEnd(s, 16, IsSpace) == 17 && StartsAt(s, 17, "x") && RunEnd(s, 18, IsSpace) == 18 && s[18] == ':'
  {
    RunEndIs(s, 16, IsSpace, 17);
    RunEndIs(s, 18, IsSpace, 18);
  }

  /** The characters of the line, and where keywords can start. */
  lemma ShadowKeywords(s: string)
    requires s == ShadowLine
    ensures forall j | 1 <= j < |s| && j != 11 :: KeywordAt(s, j).None?
  {
    KeywordsOnlyAt(s, 1, 11);
  }

  /** The untyped form matches at 0 and captures everything after `= `. */
  lemma ShadowUntyped(s: string)
    requires s == ShadowLine
    ensures UntypedFrom(s, "x", 0) == Some("1; const x: string = y")
  {
    ShadowLetHead(s);
    ShadowUntypedTail(s);
  }

  lemma ShadowUntypedTail(s: string)
    requires s == ShadowLine
    ensures Tail(s, 7) == Some("1; const x: string = y")
  {
    ShadowTailSpan(s);
    ShadowTailText(s);
  }

  lemma ShadowTailSpan(s: string)
    requires s == ShadowLine
    ensures Tail(s, 7) == Some(s[8..30])
  {
    RunEndIs(s, 7, IsSpace, 8);
    ShadowTailChars(s);
    RunEndIs(s, 8, IsLineChar, 30);
  }

  lemma ShadowTailChars(s: string)
    requires s == ShadowLine
    ensures All(s, 8, 30, IsLineChar)
  {
  }

  lemma ShadowTailText(s: string)
    requires s == ShadowLine
    ensures s[8..30] == "1; const x: string = y"
  {
    assert s == "let x = " + "1; const x: string = y";
  }

  /** After `x: `, the lazy group grows to `string`, where ` = y` follows. */
  lemma ShadowLazy(s: string)
    requires s == ShadowLine
    ensures LazyFrom(s, 20, 26) == Some(("string", "y"))
  {
    RunEndIs(s, 26, IsSpace, 27);
    RunEndIs(s, 28, IsSpace, 29);
    RunEndIs(s, 29, IsLineChar, 30);
    assert s[27] == '=' && IsLineChar(s[29]);
    assert Tail(s, 28) == Some(s[29..30]);
    assert s[20..26] == "string" && s[29..30] == "y";
  }

  /** The typed attempt at 11 captures annotation `string` and value `y`. */
  lemma ShadowTypedAt(s: string)
    requires s == ShadowLine
    ensures TypedAt(s, 11, "x") == Some(("string", "y"))
  {
    ShadowConstHead(s);
    RunEndIs(s, 19, IsSpace, 20);
    ShadowLazy(s);
    ShadowAnnotationChars(s);
    GroupsFromLazy(s, 19, 20, 26);
  }

  /** `string`: no character after the first is a space or `=`. */
  lemma ShadowAnnotationChars(s: string)
    requires s == ShadowLine
    ensures IsLineChar(s[20])
    ensures forall k | 20 < k < 26 :: !IsSpace(s[k]) && s[k] != '=' && IsLineChar(s[k])
  {
  }

  /** The typed form does not match at 0 (`=` follows the name, not `:`), and matches at 11. */
  lemma {:induction false} ShadowTyped(s: string)
    requires s == ShadowLine
    ensures TypedFrom(s, "x", 0) == Some(("string", "y"))
  {
    ShadowLetHead(s);
    assert TypedAt(s, 0, "x").None?;
    ShadowKeywords(s);
    OnlyTypedCandidate(s, "x", 1, 11);
    ShadowTypedAt(s);
  }

  /** The untyped capture, read as a value, would give Object. */
  lemma ShadowValueIsObject(v: string)
    requires v == "1; const x: string = y"
    ensures ByValue(Trim(v)) == Object
  {
    ShadowValueTrimmed(v);
    ShadowValueUnmatched(v);
  }

  lemma ShadowValueTrimmed(v: string)
    requires v == "1; const x: string = y"
    ensures Trim(v) == v
  {
    RunEndIs(v, 0, IsSpace, 0);
    RunStartIs(v, |v|, IsSpace, |v|);
  }

  /** `1;` is not a numeral, and the value starts like no other pattern. */
  lemma ShadowValueUnmatched(v: string)
    requires v == "1; const x: string = y"
    ensures ByValue(v) == Object
  {
    RunEndIs(v, 0, IsDigit, 1);
    assert !IsNumeral(v);
  }

  /** The annotation `string` names a String. */
  lemma StringAnnotationIsString(t: string)
    requires t == "string"
    ensures ByAnnotation(Trim(t)) == Some(String)
  {
    assert RunEnd(t, 0, IsSpace) == 0;
    assert RunStart(t, |t|, IsSpace) == |t|;
    assert Trim(t) == t;
    AbsentFrom(t, "[]", 0);
    AbsentFrom(t, "Array<", 0);
    AbsentFrom(t, "ReadonlyArray<", 0);
    assert StartsAt(t, 0, "string");
  }

  /** The typed form takes precedence over the untyped one even when the untyped match starts
      further left and would classify differently: on `let x = 1; const x: string = y` the
      untyped capture `1; const x: string = y` reads as Object, but the line says String. */
  lemma {:induction false} TypedFormTakesPrecedence(s: string)
    requires s == ShadowLine
    ensures UntypedFrom(s, "x", 0).Some? && ByValue(Trim(UntypedFrom(s, "x", 0).value)) == Object
    ensures LineTag(s, "x") == Some(String)
  {
    ShadowUntyped(s);
    ShadowValueIsObject("1; const x: string = y");
    ShadowTyped(s);
    StringAnnotationIsString("string");
  }

  // ---------------------------------------------------------------------------------------------
  // An arrow-function annotation: the lazy group stops at the `=` of `=>`.

  lemma ArrowHead(s: string)
    requires s == ArrowLine
    ensures DeclHead(s, 0, "f") == Some(5) && s[5] == ':'
  {
    ArrowKeyword(s);
    ArrowName(s);
  }

  lemma ArrowKeyword(s: string)
    requires s == ArrowLine
    ensures KeywordAt(s, 0) == Some(3)
  {
    assert s[0] != 'c';
    assert StartsAt(s, 0, "let");
  }

  lemma ArrowName(s: string)
    requires s == ArrowLine
    ensures RunEnd(s, 3, IsSpace) == 4 && StartsAt(s, 4, "f") && RunEnd(s, 5, IsSpace) == 5
  {
    RunEndIs(s, 3, IsSpace, 4);
    RunEndIs(s, 5, IsSpace, 5);
  }

  /** After `(` and `)`, the spaces and `=` that follow make `\s*=\s*(.+)` match, with `>` as
      the first character of the value. */
  lemma ArrowLazy(s: string)
    requires s == ArrowLine
    ensures LazyFrom(s, 7, 9) == Some(("()", "> void = g"))
  {
    RunEndIs(s, 9, IsSpace, 10);
    RunEndIs(s, 11, IsSpace, 11);
    ArrowValueChars(s);
    RunEndIs(s, 11, IsLineChar, 21);
    assert s[10] == '=';
    assert Tail(s, 11) == Some(s[11..21]);
    ArrowTexts(s);
  }

  lemma ArrowValueChars(s: string)
    requires s == ArrowLine
    ensures All(s, 11, 21, IsLineChar)
  {
  }

  lemma ArrowTexts(s: string)
    requires s == ArrowLine
    ensures s[7..9] == "()" && s[11..21] == "> void = g"
  {
    assert s == "let f: " + "()" + " =" + "> void = g";
  }

  /** The typed attempt at 0 captures annotation `()` and value `> void = g`. */
  lemma ArrowTypedAt(s: string)
    requires s == ArrowLine
    ensures TypedAt(s, 0, "f") == Some(("()", "> void = g"))
  {
    ArrowHead(s);
    RunEndIs(s, 6, IsSpace, 7);
    ArrowLazy(s);
    ArrowAnnotationChars(s);
    GroupsFromLazy(s, 6, 7, 9);
  }

  /** `()`: the character after the first is neither a space nor `=`. */
  lemma ArrowAnnotationChars(s: string)
    requires s == ArrowLine
    ensures IsLineChar(s[7])
    ensures forall k | 7 < k < 9 :: !IsSpace(s[k]) && s[k] != '=' && IsLineChar(s[k])
  {
  }

  /** The typed form matches at the first position already. */
  lemma ArrowTyped(s: string)
    requires s == ArrowLine
    ensures TypedFrom(s, "f", 0) == Some(("()", "> void = g"))
  {
    ArrowTypedAt(s);
  }

  /** The annotation `()` passes none of the annotation tests. */
  lemma EmptyParensAnnotationIsNone(t: string)
    requires t == "()"
    ensures ByAnnotation(Trim(t)) == None
  {
    RunEndIs(t, 0, IsSpace, 0);
    RunStartIs(t, |t|, IsSpace, |t|);
    assert Trim(t) == t;
    AbsentFrom(t, "[]", 0);
    AbsentFrom(t, "=>", 0);
  }

  /** The captured value `> void = g` starts like no value pattern. */
  lemma ArrowValueIsObject(v: string)
    requires v == "> void = g"
    ensures ByValue(Trim(v)) == Object
  {
    RunEndIs(v, 0, IsSpace, 0);
    RunStartIs(v, |v|, IsSpace, |v|);
    assert Trim(v) == v;
    RunEndIs(v, 0, IsDigit, 0);
  }

  /** `let f: () => void = g` is classified as Object, not Function: the lazy annotation group
      ends at the first `=` followed by a value, which is the `=` of `=>`, so the annotation is
      `()` and the `=>` test of the annotation chain is never reached. */
  lemma {:induction false} ArrowAnnotationIsLost(s: string)
    requires s == ArrowLine
    ensures TypedFrom(s, "f", 0) == Some(("()", "> void = g"))
    ensures LineTag(s, "f") == Some(Object)
  {
    ArrowTyped(s);
    EmptyParensAnnotationIsNone("()");
    ArrowValueIsObject("> void = g");
  }
}
