/** Worked examples of the catalog, the filter and the icon classifier. */
module CatalogExamples {
  import opened Text
  import opened Catalog

  /** Typing `AP` after a dot on a function keeps exactly `apply()`: the filter ignores case. */
  lemma FunctionFilteredByAp()
    ensures Filter(FunctionMethods, "AP") == [FunctionMethods[1]]
    ensures FunctionMethods[1].text == "apply()"
  {
    LacksAp(FunctionMethods[0]);
    ApplyHasAp(FunctionMethods[1]);
    OthersLackAp();
    KeepOnlySecond(FunctionMethods, "AP");
  }

  /** When only the second entry matches, only the second entry is kept. */
  lemma KeepOnlySecond(hs: seq<Hint>, word: string)
    requires |hs| > 1 && !Matches(hs[0], word) && Matches(hs[1], word)
    requires forall i | 2 <= i < |hs| :: !Matches(hs[i], word)
    ensures Keep(hs, word) == [hs[1]]
  {
    var tail := hs[1..];
    assert forall i | 1 <= i < |tail| :: tail[i] == hs[i + 1];
    KeepNone(tail[1..], word);
  }

  lemma ApplyHasAp(h: Hint)
    requires h.text == "apply()"
    ensures Matches(h, "AP")
  {
    assert Lower("AP") == "ap";
    assert Lower(h.text) == "apply()";
    assert StartsAt(Lower(h.text), 0, "ap");
  }

  /** None of the function entries after `apply()` contains `ap`. */
  lemma OthersLackAp()
    ensures forall i | 2 <= i < |FunctionMethods| :: !Matches(FunctionMethods[i], "AP")
  {
    LacksAp(FunctionMethods[2]);
    LacksAp(FunctionMethods[3]);
    LacksAp(FunctionMethods[4]);
    LacksAp(FunctionMethods[5]);
  }

  /** The Function entries other than `apply()` do not contain `ap` in any case. */
  lemma LacksAp(h: Hint)
    requires h.text in ["call()", "bind()", "toString()", "length", "name"]
    ensures !Matches(h, "AP")
  {
    NoPairIn(h, "AP", 'a', 'p');
  }

  /** A text in which the two letters of `word` never follow each other, in any case, does not
      match `word`. */
  lemma NoPairIn(h: Hint, word: string, a: char, b: char)
    requires Lower(word) == [a, b]
    requires forall j | 0 <= j < |h.text| - 1 :: LowerChar(h.text[j]) != a || LowerChar(h.text[j + 1]) != b
    ensures !Matches(h, word)
  {
    AbsentFrom(Lower(h.text), [a, b], 0);
  }

  /** `typeof` gets the TypeScript icon: it contains `type`. */
  lemma TypeofIsTypeScript()
    ensures HintIconClass("typeof") == "typescript"
  {
  }
}
