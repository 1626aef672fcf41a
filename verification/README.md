# Code playground: hinting engine and run path

A model of the logic behind a browser code playground (`script.js`, class `CodePlayground`). It covers two parts.

The **inline hinting engine**:
- when hints are offered, and for which identifier;
- how the type of that identifier is guessed from the nearest `const`/`let`/`var` declaration above the cursor, or else from its name;
- which static hint list each guessed type selects;
- how the list is filtered by the word being typed;
- how the overlay session opens, is navigated and commits a hint into the line.

The **run path**:
- the two debounced timers (auto-run after 1000 ms, auto-complete after 300 ms);
- what a run appends to the output panel for every outcome of compilation and execution.

Modules:
- `Text` (text.dfy): character classes written out as predicates (`\s`, `\w`, `.`), maximal runs, `trim`, `substring`, `includes`, `lastIndexOf`.
- `Resolver` (resolver.dfy): the type tags and the value, name and annotation classifiers. It also holds the two declaration patterns, matched in the order a backtracking regex engine tries them (leftmost start; the lazy annotation group grows one character at a time; greedy groups give characters back). The line scan is a specification function `Resolve` plus the loop method `DetermineVariableType` proved against it.
- `Trigger` (trigger.dfy): `shouldShowHints`, the identifier before a trailing dot, `getContext`, `getCurrentWord`. Each regex is stated independently as a predicate with explicit positions, and the computations are proved to agree with it.
- `Catalog` (catalog.dfy): the per-type hint lists, the case-insensitive filter, `getTypeName` and `getHintIconClass`.
- `Overlay` (overlay.dfy): the hint session `Closed | Open(items, active, start, end)`. It sits in a class `HintOverlay` with the cursor's line and column, whose methods change them as the editor does.
- `Scheduler` (scheduler.dfy): the two timeout fields as a class over an abstract clock, plus a trace semantics that states debouncing.
- `Runner` (runner.dfy): the output panel and console state as a class, with each run method proved against a function of its inputs. The compiler's result and the sandboxed execution's result are parameters.
- `ResolverExamples`, `CatalogExamples`: worked examples on concrete lines and lists.

The model follows the code exactly, including these behaviours a reader might not expect:
- **Diagnostics.** TypeScript diagnostics are reported with their message only, with no line or column.
- **`userList`.** Resolving an undeclared `userList` gives Boolean, not Array. The name tests are case-sensitive, so `list` does not occur in `userList`, but `is` does.
- **Auto-run delay.** The delay is always 1000 ms; no 800 ms variant exists in the code.
- **Trailing `;`.** A declaration whose value keeps its trailing `;` (`const arr = [1, 2, 3];`) classifies as Object, because every anchored value pattern fails on the `;`.
- **Typed form first.** When a line matches both declaration patterns, the typed one decides, even if the untyped match starts further left. On `let x = 1; const x: string = y`, the name `x` resolves to String, although the untyped capture `1; const x: string = y` would read as Object.
- **Arrow annotations.** The lazy annotation group `(.+?)` stops at the first `=` followed by a value, and the `=` of `=>` is one. On `let f: () => void = g` the annotation is `()` and the value `> void = g`, so the `=>` test of the annotation chain is never reached and the line classifies as Object, not Function.
- **Filtering.** A session opens only after a dot. At that point the current word is always empty, so the word filter never narrows what an opened session shows.

## Model

| member | source | states |
|---|---|---|
| Text.Trim | script.js:414-415 | `trim()`: the result is empty exactly when the text is all `\s`. Otherwise it is the slice between the leading and trailing `\s` runs, and starts and ends with a non-space. |
| Text.Before | script.js:356 | `substring(0, pos)`: a prefix of the line, of length `pos` clamped to the line's length. |
| Text.LastIndexOf | script.js:229-230 | `lastIndexOf(c)` is -1 exactly when `c` does not occur. Otherwise it is a position holding `c` with no `c` after it. |
| Text.OccursAtLeadsFrom | script.js:489-508 | An occurrence of a needle at a position makes `includes` true from every earlier start. |
| Text.AbsentFrom | script.js:489-508 | A needle does not occur when no position starts with its first two characters. |
| Text.RunStartIs | script.js:383-384 | The start of a maximal run of a character class is unique. |
| Text.RunEndIs | script.js:409-410 | The end of a maximal run of a character class is unique. |
| Trigger.ShouldShowHints | script.js:355-369 | Hints are offered exactly when the text before the cursor matches `\.\s*$` or `^\s*\w*$`; both patterns are stated as independent predicates. |
| Trigger.DotTarget | script.js:383-384 | A reported identifier is a `\w+` that ends a match of `(\w+)\s*\.\s*$` and cannot start further left. Nothing is reported exactly when no match exists. |
| Trigger.DotTargetIsTheMatch | script.js:383-384 | Every match whose word cannot start further left is the one reported (the capture is unique). |
| Trigger.NoIdentDot | script.js:382-384 | When no word character precedes the spaces before the trailing dot, no match exists. |
| Trigger.NoDotNoMatch | script.js:382-384 | Without a dot as the last non-space character, no match exists. |
| Trigger.ContextOf | script.js:378-396 | The context is General exactly when no identifier precedes a trailing dot. Otherwise it is the declaration scan's result for that identifier. |
| Trigger.GetContext | script.js:378-396 | The method returns `ContextOf`, computing the scan with the loop. |
| Trigger.DotTargetImpliesHints | script.js:155-170 | Whenever a non-General context is found, the trigger also allows hints. |
| Trigger.CurrentWord | script.js:515-520 | The current word is a suffix of the text before the cursor. It is all `\w` and maximal: the character before it is not `\w`. |
| Resolver.Resolve | script.js:398-448 | The specification of the scan (no contract of its own): the first finding from the cursor's line down to line 0, else the name heuristic. Its properties are the `Resolve…` lemmas below. |
| Resolver.DetermineVariableType | script.js:398-448 | The backward loop over the lines returns exactly `Resolve`: the first declaring line met from the cursor down to line 0, else the name heuristic. |
| Resolver.ResolveNearest | script.js:405-441 | The nearest declaring line at or above the cursor decides, whatever lies above it. |
| Resolver.ResolveFallback | script.js:446-447 | With no declaring line at or above the cursor, the name heuristic decides. |
| Resolver.ResolveIsSpecific | script.js:398-448 | The scan always yields one of the six specific tags, never General. |
| Resolver.ResolveIgnoresLinesBelow | script.js:405 | Lines below the cursor's line never affect the result. |
| Resolver.NearestHit | script.js:405-441 | The first finding met walking upward is returned. |
| Resolver.NearestMiss | script.js:446-447 | With no finding, the fallback is returned. |
| Resolver.NearestIsAFinding | script.js:405-447 | The result is one of the findings at or above the start line, or the fallback. |
| Resolver.NearestIgnoresBelow | script.js:405 | Findings below the start line are never read. |
| Resolver.TypedFrom | script.js:409 | The search for the typed pattern over start positions, leftmost first (no contract of its own). `TypedFromNone` and `TypedFromFirst` state what it finds. |
| Resolver.UntypedFrom | script.js:410 | The search for the untyped pattern over start positions, leftmost first (no contract of its own). `UntypedFromNone` and `UntypedFromFirst` state what it finds. |
| Resolver.TypedFromNone | script.js:409 | The typed pattern matches nowhere from a position on exactly when the search from there finds nothing. |
| Resolver.TypedFromFirst | script.js:409 | The typed search reports the capture of the leftmost start position at which the pattern matches. |
| Resolver.UntypedFromNone | script.js:410 | The untyped pattern matches nowhere from a position on exactly when the search from there finds nothing. |
| Resolver.UntypedFromFirst | script.js:410 | The untyped search reports the capture of the leftmost start position at which the pattern matches. |
| Resolver.OnlyCandidate | script.js:409-410 | When a keyword starts at one place only, both leftmost searches reduce to the match attempt there. |
| Resolver.NoCandidate | script.js:409-410 | Without a keyword, neither declaration pattern matches. |
| Resolver.LazySkips | script.js:409 | The lazy annotation group `(.+?)` extends over non-space, non-`=` characters without matching. |
| Resolver.GroupsFromLazy | script.js:409 | The typed groups are the ones found at the first extension of the lazy group that matches. |
| Resolver.KeywordInitial | script.js:409-410 | A declaration keyword can start only at a `c`, `l` or `v`. |
| Resolver.LineTag | script.js:409-443 | What one line says about a name is never General. |
| Resolver.ByValue | script.js:450-486 | The value classifier never yields General (the pattern order itself is not in its contract). |
| Resolver.TrailingSemicolonIsObject | script.js:450-486 | A value ending in `;` that does not start like `function` or `new` classifies as Object: every anchored pattern fails on it. |
| Resolver.ByName | script.js:488-513 | The name classifier never yields General (the test order itself is not in its contract). |
| Resolver.ObjectDataTestUnreachable | script.js:489-508 | Any name containing `data` is an Array, so the later `data` test of the Object group is never reached. |
| Resolver.ByAnnotation | script.js:413-433 | An annotation that matches a test yields a specific tag. No match lets the value decide. |
| ResolverExamples.SemicolonDeclarationResolvesToObject | script.js:398-486 | `arr.` on the line after `const arr = [1, 2, 3];` resolves to Object. |
| ResolverExamples.ArrDeclarationIsObject | script.js:436-442 | `const arr = [1, 2, 3];` matches only the untyped form and classifies as Object. |
| ResolverExamples.ArrMatches | script.js:409-410 | On that line, the typed pattern fails and the untyped one captures `[1, 2, 3];`. |
| ResolverExamples.UndeclaredUserListIsBoolean | script.js:488-505 | An undeclared `userList` resolves to Boolean. |
| ResolverExamples.UserListNameIsBoolean | script.js:488-505 | The first four groups of name tests miss `userList`; `is` hits in the Boolean group. |
| ResolverExamples.DataNameIsArray | script.js:489-490 | The name `data` is an Array. |
| ResolverExamples.AnnotationDecides | script.js:409-419 | `data.` after `const data: string[] = [1, 2];` resolves to Array through the annotation. |
| ResolverExamples.DataMatches | script.js:409 | The typed form matches that line with annotation `string[]` and value `[1, 2];`. |
| ResolverExamples.NoKeywordNoDeclaration | script.js:409-410 | A line with no `c`, `l` or `v` declares nothing. |
| ResolverExamples.KeywordsOnlyAt | script.js:409-410 | No keyword starts at a position whose character is not `c`, `l` or `v`. |
| ResolverExamples.ShadowUntyped | script.js:410 | On `let x = 1; const x: string = y` the untyped pattern matches at the start and captures `1; const x: string = y`. |
| ResolverExamples.ShadowTyped | script.js:409 | On the same line the typed pattern fails at the start and matches at `const`, capturing `string` and `y`. |
| ResolverExamples.StringAnnotationIsString | script.js:418-422 | The annotation `string` passes no Array test and gives String. |
| ResolverExamples.TypedFormTakesPrecedence | script.js:409-443 | On that line the untyped capture would read as Object, yet the line says String: the typed form decides first. |
| ResolverExamples.ArrowTyped | script.js:409 | On `let f: () => void = g` the typed pattern captures annotation `()` and value `> void = g`. |
| ResolverExamples.EmptyParensAnnotationIsNone | script.js:418-438 | The annotation `()` passes none of the annotation tests, so the value decides. |
| ResolverExamples.ArrowAnnotationIsLost | script.js:409-438 | That line classifies as Object, not Function: the lazy group stops at the `=` of `=>`. |
| Catalog.CatalogFor | script.js:172-207 | The list chosen for each tag has its fixed size: Array 19, String 22, Object 12, Number 13, Function 6, Boolean 2, General 30 or 55. |
| Catalog.GeneralHints | script.js:626-689 | The TypeScript General list is the JavaScript list followed by the 25 extras. |
| Catalog.DialectOnlyAffectsGeneral | script.js:660-688 | Only the General list depends on the language. |
| Catalog.TypeofTwice | script.js:648-677 | The TypeScript General list offers `typeof` twice, at positions 20 and 44. |
| Catalog.Matches | script.js:212-214 | The filter's callback (no contract of its own): the lower-cased hint text includes the lower-cased word. Its properties are stated by `Keep`, `KeepIgnoresCase` and `EmptyWordMatches`. |
| Catalog.Keep | script.js:210-214 | The filter keeps no more entries than it is given. An entry is kept exactly when it is in the list and matches the word. |
| Catalog.KeepAppend | script.js:210-214 | Filtering a concatenation filters each part and keeps them in order. |
| Catalog.KeepOne | script.js:210-214 | One entry is kept exactly when it matches. |
| Catalog.KeepNone | script.js:210-214 | When nothing matches, nothing is kept. |
| Catalog.Filter | script.js:209-215 | An empty word leaves the list unchanged. Otherwise the list is filtered. |
| Catalog.KeepEmptyWordIsIdentity | script.js:209-215 | Filtering with the empty word would keep every entry anyway. |
| Catalog.KeepIgnoresCase | script.js:211-213 | The filter does not depend on the case of the word's letters. |
| Catalog.EmptyWordMatches | script.js:211-213 | The empty word matches every entry. |
| Catalog.TypeName | script.js:342-353 | `getTypeName`'s label for each tag (no contract of its own); `TypeNameInjective` states that labels differ. |
| Catalog.TypeNameInjective | script.js:342-353 | The header label names each tag differently. |
| Catalog.HintIconClass | script.js:707-720 | `getHintIconClass`'s chain of `includes` tests (no contract of its own); `HintIconClassFollowsRules` states it against the rule table. |
| Catalog.HintIconClassFollowsRules | script.js:707-720 | The icon classifier is the first-match reading of its ordered rule table, defaulting to `general`. |
| Catalog.RuleNeedles | script.js:708-718 | Each rule of the table tests exactly the substrings of its line of the chain. |
| CatalogExamples.FunctionFilteredByAp | script.js:209-215 | Filtering the Function list by `AP` keeps exactly `apply()`: the comparison ignores case. |
| CatalogExamples.KeepOnlySecond | script.js:212-214 | When only the second entry contains the word, the filter keeps that entry alone. |
| CatalogExamples.OthersLackAp | script.js:608-617 | No Function entry after `apply()` contains `ap` in any case. |
| CatalogExamples.LacksAp | script.js:608-617 | Each Function entry other than `apply()` is filtered out by `AP`. |
| CatalogExamples.NoPairIn | script.js:212-214 | A text in which the word's two letters never follow each other, ignoring case, is filtered out. |
| CatalogExamples.TypeofIsTypeScript | script.js:713 | `typeof` gets the `typescript` icon. |
| Overlay.Shown | script.js:246 | The rendered items are the first `min(n, 8)` entries of the list. |
| Overlay.Next | script.js:302 | ArrowDown: the next index, wrapping from the last to 0. |
| Overlay.Prev | script.js:308 | ArrowUp: the previous index, wrapping from 0 to the last. |
| Overlay.NextPrevInverse | script.js:298-311 | ArrowUp undoes ArrowDown, and ArrowDown undoes ArrowUp. |
| Overlay.OpenAt | script.js:224-269 | A session opens exactly when a `.` precedes the cursor. It holds the first items, index 0 active, and spans from after the last dot to the cursor. |
| Overlay.SessionFor | script.js:155-222 | The session `showContextualHints` leaves for a given context (no contract of its own): closed unless hints are allowed and the filtered list is non-empty, else opened at the cursor. `SessionShowsWholeCatalog` states what it shows. |
| Overlay.ContextualSession | script.js:155-222 | `SessionFor` with the context `getContext` finds in the lines above and the cursor's line (no contract of its own); `ShowContextualHints` is proved against it. |
| Overlay.DotTriggerHasNoWord | script.js:155-215 | When hints are allowed and a dot precedes the cursor, the current word is empty. |
| Overlay.SessionShowsWholeCatalog | script.js:155-222 | An opened session always shows the first items of the context's whole list: the filter never narrows it. |
| Overlay.HintOverlay.ShowContextualHints | script.js:155-222 | The session becomes `ContextualSession` of the lines above, the line and the cursor; the line and cursor are unchanged. |
| Overlay.HintOverlay.ShowInlineHints | script.js:224-269 | The prior session is discarded and the session becomes `OpenAt`. |
| Overlay.HintOverlay.Hide | script.js:271-276 | The session is closed and nothing else changes, so hiding twice is hiding once. |
| Overlay.HintOverlay.ArrowDown | script.js:300-305 | In an open session, only the active index moves, by `Next`. |
| Overlay.HintOverlay.ArrowUp | script.js:306-311 | In an open session, only the active index moves, by `Prev`. |
| Overlay.HintOverlay.Hover | script.js:290-294 | Hovering makes the item the active one. |
| Overlay.HintOverlay.InsertHint | script.js:337-340 | The line becomes the replaced line, and the cursor lands after the inserted text. |
| Overlay.HintOverlay.Commit | script.js:312-321 | The item replaces the session's span, and the session closes. |
| Overlay.HintOverlay.Click | script.js:284-288 | A click commits the clicked item. |
| Overlay.HintOverlay.Accept | script.js:312-321 | Enter or Tab in the overlay commits the active item and closes the session. |
| Overlay.HintOverlay.Escape | script.js:322-325 | Escape closes the session. |
| Overlay.HintOverlay.HandleEnter | script.js:126-148 | With a session open and a dot before the cursor, the active item replaces the text from after the last dot to the cursor and the session closes. Without a dot, nothing changes. |
| Overlay.HintOverlay.Edit | script.js:67-70 | Editing the line leaves an open session as it was. |
| Overlay.Replaced | script.js:338 | `replaceRange`: the new length is the old length plus the text's length minus the clipped span's length. |
| Overlay.CommitReplacesSpan | script.js:337-340 | On an ordered span inside the line, the text before and after the span is unchanged and the hint sits in between. The cursor lands right after it. |
| Scheduler.Schedule | script.js:100-102 | A scheduled timer is pending, due exactly `delay` after now. |
| Scheduler.Advance | script.js:100-102 | A due timer runs and is gone; any other timer is unchanged. |
| Scheduler.Firings | script.js:96-124 | The trace semantics of one timer (no contract of its own): the times its callback runs for a sequence of schedule and clear calls. `Debounce`, `BurstFromPending`, `ClearCancels` and `Timers.ReplayChanges` are stated against it. |
| Scheduler.Debounce | script.js:96-117 | Calls less than `delay` apart on an idle timer run the callback exactly once, `delay` after the last call. |
| Scheduler.BurstFromPending | script.js:96-117 | The same holds for a burst arriving while a later deadline is pending. |
| Scheduler.ClearCancels | script.js:105-110 | A clear before the deadline cancels the pending run. |
| Scheduler.Timers.ScheduleAutoRun | script.js:96-103 | With the toggle off nothing changes. Otherwise the pending run is replaced by one due 1000 after now. |
| Scheduler.Timers.ClearAutoRunTimeout | script.js:105-110 | No auto-run is pending afterwards; nothing else changes. |
| Scheduler.Timers.ScheduleAutoComplete | script.js:112-117 | The pending hint request is replaced by one due 300 after now. |
| Scheduler.Timers.ClearAutoCompleteTimeout | script.js:119-124 | No hint request is pending afterwards; nothing else changes. |
| Scheduler.Timers.SetAutoRun | script.js:60-64 | Unchecking clears the pending run; checking schedules nothing. |
| Scheduler.Timers.OnChange | script.js:67-70 | An edit reschedules both timers; with the toggle off, no run is pending. |
| Scheduler.Timers.Elapse | script.js:96-117 | Exactly the due timers fire and are no longer pending. |
| Scheduler.Timers.ReplayChanges | script.js:67-70 | Editor changes replayed through `Elapse` and the change handler run the callbacks at exactly the times `Firings` gives, with the still-pending runs last. A burst of changes on idle timers runs each callback once, a delay after the last change; with auto-run off, no run happens. |
| Runner.ShownIsInjective | script.js:877 | Two panel lines that read the same come from the same entry. |
| Runner.RenderArgs | script.js:868-873 | Rendering the arguments fails exactly when some argument is an object that cannot be serialized. |
| Runner.RenderArgsJoins | script.js:868-873 | When no argument throws, the message is the arguments' texts (`String(arg)` or the serialization) joined by single spaces, per an independent join built from the last part. |
| Runner.RenderArgsFirstFailure | script.js:868-873 | When arguments throw, the error reported is that of the first one that throws. |
| Runner.JoinWithSpacesCons | script.js:873 | Joining a first part to a non-empty rest puts exactly one space between them. |
| Runner.RenderRecords | script.js:854-860 | What the `forEach` over the records appends, and the error that ended it: never more entries than records. `RenderRecordsNext`, `RenderRecordsStops` and `RenderRecordsMirrors` state its behaviour. |
| Runner.RenderRecordsNext | script.js:854-856 | One more record is rendered after the ones before it, unless an earlier one failed. |
| Runner.RenderRecordsStops | script.js:854-860 | Once a record fails to render, later records add nothing. |
| Runner.RenderRecordsMirrors | script.js:854-856 | Records that all render give one entry each, in arrival order, with the record's type. |
| Runner.ExecuteEffect | script.js:780-865 | What `executeCode` appends for an execution outcome, and the error that escapes it (no contract of its own); `QuietRun`, `CapturedRun` and `FailedRun` state its cases. |
| Runner.TypeScriptEffect | script.js:747-774 | What `runTypeScript` appends for a compilation outcome (no contract of its own); `DiagnosticsBlockExecution` states the diagnostics case. |
| Runner.RunEntries | script.js:722-745 | The panel after `runCode` (no contract of its own); `BlankSourceRunsNothing` and the run lemmas state its cases. |
| Runner.DiagnosticEntries | script.js:760-763 | There is one error entry per diagnostic, carrying its message only. |
| Runner.BlankSourceRunsNothing | script.js:726-729 | Blank source gives one info entry, and neither compiler nor sandbox affects the panel. |
| Runner.DiagnosticsBlockExecution | script.js:760-765 | With diagnostics, the panel holds one error per diagnostic and the sandbox's behaviour does not matter. |
| Runner.QuietRun | script.js:851-852 | A run that completes without logging gives one info entry. |
| Runner.CapturedRun | script.js:851-857 | A run that completes mirrors its records one for one, in order, with their types. |
| Runner.FailedRun | script.js:859-860 | A run that throws gives a single error entry, and its records are dropped. |
| Runner.TwoLogs | script.js:854-856 | Two logged strings come out as two LOG entries, in order. |
| Runner.Runner.LogMessage | script.js:867-880 | Renderable arguments append one entry; otherwise the call throws and nothing is appended. |
| Runner.Runner.LogError | script.js:882-884 | One ERROR entry is appended. |
| Runner.Runner.LogInfo | script.js:886-888 | One INFO entry is appended. |
| Runner.Runner.ClearOutput | script.js:911-913 | The panel becomes empty. |
| Runner.Runner.ExecuteCode | script.js:780-865 | The panel grows by `ExecuteEffect` and the escaping error is its second part. The console is restored on every path. |
| Runner.Runner.RunTypeScript | script.js:747-774 | The panel grows by `TypeScriptEffect`, and the console is restored. |
| Runner.Runner.RunCode | script.js:722-745 | The panel ends as `RunEntries` of the source, the compiler's result and the execution's result; the console ends as it began. |

## Left out

- The editor is one line of text, the cursor's line, plus the read-only lines above it, which the declaration scan reads. Multi-line edits and positions on other lines are not modelled.
- The keydown listener's lifecycle is not modelled. It is registered with `{ once: true }` and removed through a `remove` event the DOM never fires. Key transitions are modelled as if each key reached the overlay.
- The interplay with the editor's own key bindings is not modelled. `handleEnter` returns `CodeMirror.Pass` (the newline the editor then inserts is not modelled), and Tab also re-triggers `showContextualHints`.
- DOM rendering is not modelled: the header's type name and count, icon classes in the markup, the overlay's position, and the `hintsElement` itself. Only the session state it reflects is modelled.
- `JSON.stringify` is an input: an object argument arrives already serialized, or with the error it throws.
- `ts.transpileModule` and `ts.flattenDiagnosticMessageText` are not modelled. Compilation is an input: flattened diagnostic messages and output text, or a thrown value.
- `new Function`, `with (sandbox)` and the console interception itself are not modelled. Execution is an input: the records captured, plus completion or the thrown value. Output logged asynchronously after the console is restored is not modelled.
- Real timers and the event loop are not modelled: time is an abstract clock and a timer fires when `Elapse` reaches its deadline. After firing, the source keeps the stale timer id, and clearing it later is a no-op; the model sets the field to idle, which behaves the same.
- The loading indicator, the example programs, `debugContext` and the debug `console.log` calls are not modelled. Neither are the `error` window listener, `switchLanguage` and `clearEditor`.
- Overlapping `runCode` calls (auto-run firing during a run) are not modelled.
- `toLowerCase` is ASCII-only. This is exact for the filter, because the hint texts and `\w` words are ASCII.
- Resolver.ByValue: its own contract states only that the result is a specific tag. The pattern order is its definition, and `TrailingSemicolonIsObject` and the worked examples state consequences of it.
- Resolver.ByName: its own contract states only that the result is a specific tag. `ObjectDataTestUnreachable` and the worked examples state consequences of the test order.
- Resolver.ByAnnotation: its own contract states only that a hit is a specific tag. `AnnotationDecides` shows a hit in use.
- Resolver.LineTag: its own contract states only that a finding is a specific tag. `TypedFormTakesPrecedence` states the typed-before-untyped order on a line where both forms match and disagree.
