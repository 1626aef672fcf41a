/** The inline hint overlay: a session that is either closed or open on the cursor's line with
    up to eight items, one of them active, and the span a committed hint replaces. */
module Overlay {
  import opened Text
  import opened Resolver
  import opened Trigger
  import opened Catalog

  /** How many items the overlay renders (`hints.slice(0, 8)`). */
  const MaxShown := 8

  /** `currentInlineHints` together with the state `addInlineHintsEvents` closes over:
      the rendered items, `activeIndex`, and `startPos.ch` / `endPos.ch` on the cursor's line. */
  datatype Session = Closed | Open(items: seq<Hint>, active: nat, start: nat, end: nat)

  /** The items rendered for a hint list. */
  function Shown(hints: seq<Hint>): (r: seq<Hint>)
    ensures |r| == if |hints| < MaxShown then |hints| else MaxShown
    ensures r <= hints
  {
    hints[..if |hints| < MaxShown then |hints| else MaxShown]
  }

  /** ArrowDown: `(activeIndex + 1) % n`. */
  function Next(i: nat, n: nat): (r: nat)
    requires i < n
    ensures r < n
    ensures r == if i == n - 1 then 0 else i + 1
  {
    (i + 1) % n
  }

  /** ArrowUp: `(activeIndex - 1 + n) % n`. */
  function Prev(i: nat, n: nat): (r: nat)
    requires i < n
    ensures r < n
    ensures r == if i == 0 then n - 1 else i - 1
  {
    (i - 1 + n) % n
  }

  /** ArrowUp undoes ArrowDown and the other way round. */
  lemma NextPrevInverse(i: nat, n: nat)
    requires i < n
    ensures Prev(Next(i, n), n) == i
    ensures Next(Prev(i, n), n) == i
  {
  }

  /** The session `showInlineHints` opens: nothing without a dot before the cursor; otherwise the
      first items, the first one active, spanning from after the last dot to the cursor. */
  function OpenAt(line: string, col: nat, hints: seq<Hint>): (s: Session)
    requires col <= |line|
    ensures s.Open? <==> '.' in line[..col]
    ensures s.Open? ==> s.items == Shown(hints) && s.active == 0 && s.end == col
    ensures s.Open? ==> 0 < s.start <= col && line[s.start - 1] == '.'
                        && forall k | s.start <= k < col :: line[k] != '.'
  {
    var dot := LastIndexOf(line[..col], '.');
    if dot == -1 then Closed else Open(Shown(hints), 0, dot + 1, col)
  }

  /** What `showContextualHints` leaves open once the context is known: hints for the context's
      catalog, filtered by the current word, provided the trigger allows hints and something is left. */
  function SessionFor(line: string, col: nat, context: TypeTag, dialect: Dialect): Session
    requires col <= |line|
  {
    if !ShouldShowHints(line, col) then Closed
    else
      var hints := Filter(CatalogFor(context, dialect), CurrentWord(line, col));
      if |hints| > 0 then OpenAt(line, col, hints) else Closed
  }

  /** What `showContextualHints` leaves open, with the context resolved from the document. */
  function ContextualSession(above: seq<string>, line: string, col: nat, dialect: Dialect): Session
    requires col <= |line|
  {
    SessionFor(line, col, ContextOf(above + [line], |above|, col), dialect)
  }

  /** Hints are allowed and a dot precedes the cursor only when the text before the cursor ends
      in a dot and spaces; then no word is being typed. */
  lemma DotTriggerHasNoWord(line: string, col: nat)
    requires col <= |line|
    requires ShouldShowHints(line, col) && '.' in line[..col]
    ensures CurrentWord(line, col) == ""
  {
    var b := Before(line, col);
    assert b == line[..col];
    var w := CurrentWord(line, col);
    var d :| 0 <= d < |b| && b[d] == '.';
    if WordLine(b) {
      assert false;
    }
    assert DotTail(b);
    var d' :| 0 <= d' < |b| && b[d'] == '.' && All(b, d' + 1, |b|, IsSpace);
    if w != "" {
      SpaceIsNotWord(b, |b| - 1);
      assert false;
    }
  }

  /** When a session opens, the current word is empty, so the filter never narrows the catalog:
      the overlay shows the first items of the context's whole list. */
  lemma SessionShowsWholeCatalog(line: string, col: nat, context: TypeTag, dialect: Dialect)
    requires col <= |line|
    requires SessionFor(line, col, context, dialect).Open?
    ensures CurrentWord(line, col) == ""
    ensures SessionFor(line, col, context, dialect).items == Shown(CatalogFor(context, dialect))
  {
    DotTriggerHasNoWord(line, col);
  }

  /** The overlay and the editor state it works on: the cursor's line, the cursor column, and the
      lines above the cursor, which the type resolver reads. */
  class HintOverlay {
    const above: seq<string>
    var line: string
    var col: nat
    var session: Session

    predicate Valid()
      reads this
    {
      && col <= |line|
      && (session.Open? ==> 0 < |session.items| <= MaxShown && session.active < |session.items|
                            && session.start <= session.end)
    }

    constructor(above: seq<string>, line: string, col: nat)
      requires col <= |line|
      ensures Valid()
      ensures this.above == above && this.line == line && this.col == col && session == Closed
    {
      this.above := above;
      this.line := line;
      this.col := col;
      session := Closed;
    }

    /** `hideInlineHints`: closing a closed session changes nothing. */
    method Hide()
      requires Valid()
      modifies this
      ensures Valid()
      ensures session == Closed && line == old(line) && col == old(col)
    {
      session := Closed;
    }

    /** `showInlineHints`: any open session is closed first, so the result does not depend on it. */
    method ShowInlineHints(hints: seq<Hint>)
      requires Valid() && |hints| > 0
      modifies this
      ensures Valid()
      ensures session == OpenAt(line, col, hints) && line == old(line) && col == old(col)
    {
      Hide();
      var dot := LastIndexOf(Before(line, col), '.');
      if dot == -1 {
        return;
      }
      session := Open(Shown(hints), 0, dot + 1, col);
    }

    /** `showContextualHints`. */
    method ShowContextualHints(dialect: Dialect)
      requires Valid()
      modifies this
      ensures Valid()
      ensures session == ContextualSession(above, line, col, dialect)
      ensures line == old(line) && col == old(col)
    {
      var context := GetContext(above + [line], |above|, col);
      ghost var goal := SessionFor(line, col, context, dialect);
      assert goal == ContextualSession(above, line, col, dialect);
      if !ShouldShowHints(line, col) {
        Hide();
        return;
      }
      var hints := CatalogFor(context, dialect);
      var word := CurrentWord(line, col);
      if word != "" {
        hints := Keep(hints, word);
      }
      assert hints == Filter(CatalogFor(context, dialect), word);
      if |hints| > 0 {
        ShowInlineHints(hints);
      } else {
        Hide();
      }
    }

    /** ArrowDown while a session is open. */
    method ArrowDown()
      requires Valid()
      modifies this
      ensures Valid()
      ensures session == if old(session).Open?
        then old(session).(active := Next(old(session).active, |old(session).items|)) else old(session)
      ensures line == old(line) && col == old(col)
    {
      if session.Open? {
        session := session.(active := Next(session.active, |session.items|));
      }
    }

    /** ArrowUp while a session is open. */
    method ArrowUp()
      requires Valid()
      modifies this
      ensures Valid()
      ensures session == if old(session).Open?
        then old(session).(active := Prev(old(session).active, |old(session).items|)) else old(session)
      ensures line == old(line) && col == old(col)
    {
      if session.Open? {
        session := session.(active := Prev(session.active, |session.items|));
      }
    }

    /** The pointer entering item `index` makes it the active one. */
    method Hover(index: nat)
      requires Valid() && session.Open? && index < |session.items|
      modifies this
      ensures Valid()
      ensures session == old(session).(active := index) && line == old(line) && col == old(col)
    {
      session := session.(active := index);
    }

    /** `insertHint`: `replaceRange(text, start, end)` then `setCursor(start + |text|)`, with the
        editor clipping both positions to the line and ordering the range. */
    method InsertHint(text: string, start: nat, end: nat)
      requires Valid()
      modifies this
      ensures Valid()
      ensures line == Replaced(old(line), text, start, end)
      ensures col == CursorAfter(old(line), text, start, end)
      ensures session == old(session)
    {
      col := CursorAfter(line, text, start, end);
      line := Replaced(line, text, start, end);
    }

    /** Commits item `index` of the open session over its span, then closes the session. */
    method Commit(index: nat)
      requires Valid() && session.Open? && index < |session.items|
      modifies this
      ensures Valid() && session == Closed
      ensures var s := old(session);
        line == Replaced(old(line), s.items[index].text, s.start, s.end)
        && col == CursorAfter(old(line), s.items[index].text, s.start, s.end)
    {
      var s := session;
      InsertHint(s.items[index].text, s.start, s.end);
      Hide();
    }

    /** A click on item `index`. */
    method Click(index: nat)
      requires Valid() && session.Open? && index < |session.items|
      modifies this
      ensures Valid() && session == Closed
      ensures var s := old(session);
        line == Replaced(old(line), s.items[index].text, s.start, s.end)
        && col == CursorAfter(old(line), s.items[index].text, s.start, s.end)
    {
      Commit(index);
    }

    /** Enter or Tab in the overlay's key handler: commit the active item. */
    method Accept()
      requires Valid()
      modifies this
      ensures Valid() && session == Closed
      ensures old(session).Open? ==> var s := old(session);
        line == Replaced(old(line), s.items[s.active].text, s.start, s.end)
        && col == CursorAfter(old(line), s.items[s.active].text, s.start, s.end)
      ensures old(session).Closed? ==> line == old(line) && col == old(col)
    {
      if session.Open? {
        Commit(session.active);
      }
    }

    /** Escape: close the session. */
    method Escape()
      requires Valid()
      modifies this
      ensures Valid() && session == Closed && line == old(line) && col == old(col)
    {
      Hide();
    }

    /** `handleEnter`: with a session open, the active item replaces the text from after the last
        dot before the current cursor up to the cursor; with no such dot nothing is inserted and
        the session stays open. */
    method HandleEnter()
      requires Valid()
      modifies this
      ensures Valid()
      ensures old(session).Closed? ==> session == old(session) && line == old(line) && col == old(col)
      ensures old(session).Open? && '.' !in old(line)[..old(col)] ==>
                session == old(session) && line == old(line) && col == old(col)
      ensures old(session).Open? && '.' in old(line)[..old(col)] ==>
                var s := old(session); var start := LastIndexOf(old(line)[..old(col)], '.') + 1;
                session == Closed
                && line == Replaced(old(line), s.items[s.active].text, start, old(col))
                && col == CursorAfter(old(line), s.items[s.active].text, start, old(col))
    {
      if session.Open? {
        var text := session.items[session.active].text;
        var dot := LastIndexOf(Before(line, col), '.');
        if dot != -1 {
          InsertHint(text, dot + 1, col);
          Hide();
        }
      }
    }

    /** The user edits the line: new text and cursor; an open session keeps its state. */
    method Edit(newLine: string, newCol: nat)
      requires Valid() && newCol <= |newLine|
      modifies this
      ensures Valid()
      ensures line == newLine && col == newCol && session == old(session)
    {
      line := newLine;
      col := newCol;
    }
  }

  /** A position clipped to the line, as the editor clips positions it is given. */
  function Clip(p: nat, n: nat): (r: nat)
    ensures r <= n && (p <= n ==> r == p)
  {
    if p <= n then p else n
  }

  /** The line after `replaceRange(text, start, end)`: both ends clipped, the range ordered. */
  function Replaced(line: string, text: string, start: nat, end: nat): (r: string)
    ensures |r| == |line| + |text| - Dist(Clip(start, |line|), Clip(end, |line|))
  {
    var a := Clip(start, |line|);
    var b := Clip(end, |line|);
    var lo := if a <= b then a else b;
    var hi := if a <= b then b else a;
    line[..lo] + text + line[hi..]
  }

  function Dist(a: nat, b: nat): nat {
    if a <= b then b - a else a - b
  }

  /** `setCursor(start + |text|)`, clipped to the new line. */
  function CursorAfter(line: string, text: string, start: nat, end: nat): (c: nat)
    ensures c <= |Replaced(line, text, start, end)|
  {
    Clip(start + |text|, |Replaced(line, text, start, end)|)
  }

  /** On an ordered span inside the line, a commit replaces exactly that span: the text before it
      and after it is unchanged, the hint sits in between, and the cursor lands right after it. */
  lemma CommitReplacesSpan(line: string, text: string, start: nat, end: nat)
    requires start <= end <= |line|
    ensures var r := Replaced(line, text, start, end);
      && |r| == |line| - (end - start) + |text|
      && r[..start] == line[..start]
      && r[start..start + |text|] == text
      && r[start + |text|..] == line[end..]
      && CursorAfter(line, text, start, end) == start + |text|
  {
    var r := Replaced(line, text, start, end);
    assert r == line[..start] + text + line[end..];
  }
}
