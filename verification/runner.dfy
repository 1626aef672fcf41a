/** The run path: what `runCode`, `runTypeScript` and `executeCode` append to the output panel.
    The compiler and the sandboxed execution are inputs: the compiler's result for a source
    text, and the records the intercepted console captured while the code ran, or the value it
    threw. */
module Runner {
  import opened Text
  import opened Catalog

  /** The `type` of a console record and of a panel entry. */
  datatype Severity = Log | Error | Warn | Info

  /** `type.toUpperCase()` */
  function Label(s: Severity): string {
    match s
    case Log => "LOG"
    case Error => "ERROR"
    case Warn => "WARN"
    case Info => "INFO"
  }

  /** One line of the output panel. */
  datatype Entry = Entry(severity: Severity, message: string)

  /** The text the panel shows for an entry: `[TYPE] message`. */
  function Shown(e: Entry): (t: string)
    ensures t == "[" + Label(e.severity) + "] " + e.message
  {
    "[" + Label(e.severity) + "] " + e.message
  }

  /** Two entries that read the same are the same entry: the label's first letter tells the
      severity apart and fixes where the message starts. */
  lemma ShownIsInjective(a: Entry, b: Entry)
    requires Shown(a) == Shown(b)
    ensures a == b
  {
    var p := "[" + Label(a.severity) + "] ";
    var q := "[" + Label(b.severity) + "] ";
    assert Shown(a)[1] == Label(a.severity)[0];
    assert Shown(b)[1] == Label(b.severity)[0];
    assert a.severity == b.severity;
    assert Shown(a)[|p|..] == a.message;
    assert Shown(b)[|q|..] == b.message;
  }

  /** `JSON.stringify(arg, null, 2)` for an object argument: its text, or the error it throws. */
  datatype Json = Serialized(text: string) | Unserializable(error: string)

  /** A console argument: a primitive, rendered by `String(arg)`, or an object. */
  datatype Arg = Prim(text: string) | Obj(json: Json)

  /** What the intercepted console captured for one call. */
  datatype Record = Record(severity: Severity, args: seq<Arg>)

  /** A thrown value, as `error.message` sees it: a message (`undefined` included), or nothing at
      all for `null`/`undefined`, where reading `.message` itself throws. */
  datatype Thrown = WithMessage(message: string) | Nullish(accessError: string)

  /** The sandboxed run: it completed with what it logged, or threw after logging. */
  datatype Execution = Completed(records: seq<Record>) | Failed(records: seq<Record>, thrown: Thrown)

  /** `ts.transpileModule`: diagnostics (already flattened) and output, or a throw. */
  datatype Compilation = Transpiled(diagnostics: seq<string>, output: string) | CompilerThrew(thrown: Thrown)

  /** The message of an argument list, or the error the first unserializable argument throws. */
  datatype Rendering = Rendered(text: string) | RenderFailed(error: string)

  const EmptySource := "Введите код для выполнения"
  const NoOutput := "Код выполнен успешно (нет вывода)"
  const RunFailed := "Ошибка выполнения: "
  const TypeScriptDiagnostic := "TypeScript ошибка: "
  const CompileFailed := "Ошибка компиляции TypeScript: "

  /** `Ошибка выполнения <language>: ` */
  function ExecutionFailed(language: string): string {
    "Ошибка выполнения " + language + ": "
  }

  // ---------------------------------------------------------------------------------------------
  // Rendering of console records (`logMessage`).

  /** An object argument whose serialization throws. */
  predicate Throws(a: Arg) {
    a.Obj? && a.json.Unserializable?
  }

  /** One argument: `String(arg)`, or `JSON.stringify` for objects. */
  function RenderArg(a: Arg): Rendering {
    match a
    case Prim(t) => Rendered(t)
    case Obj(Serialized(t)) => Rendered(t)
    case Obj(Unserializable(e)) => RenderFailed(e)
  }

  /** `args.map(render).join(' ')`: the first failing argument ends the map. */
  function RenderArgs(args: seq<Arg>): (r: Rendering)
    ensures r.RenderFailed? <==> exists i | 0 <= i < |args| :: Throws(args[i])
    decreases |args|
  {
    if args == [] then Rendered("")
    else
      match RenderArg(args[0])
      case RenderFailed(e) => RenderFailed(e)
      case Rendered(t) =>
        if |args| == 1 then Rendered(t)
        else
          match RenderArgs(args[1..])
          case RenderFailed(e) =>
            assert forall i | 0 <= i < |args| - 1 :: args[1..][i] == args[i + 1];
            RenderFailed(e)
          case Rendered(rest) =>
            assert forall i | 0 <= i < |args| - 1 :: args[1..][i] == args[i + 1];
            Rendered(t + " " + rest)
  }

  /** The text of an argument that does not throw: `String(arg)`, or its serialization. */
  function ArgText(a: Arg): string
    requires !Throws(a)
  {
    if a.Prim? then a.text else a.json.text
  }

  /** The texts of arguments none of which throws, in order. */
  function ArgTexts(args: seq<Arg>): (ts: seq<string>)
    requires forall i | 0 <= i < |args| :: !Throws(args[i])
    ensures |ts| == |args|
    ensures forall i | 0 <= i < |args| :: ts[i] == ArgText(args[i])
  {
    seq(|args|, i requires 0 <= i < |args| => ArgText(args[i]))
  }

  /** `join(' ')`: the parts with a single space between neighbours, built from the last part. */
  function JoinWithSpaces(parts: seq<string>): string
    decreases |parts|
  {
    if |parts| == 0 then ""
    else if |parts| == 1 then parts[0]
    else JoinWithSpaces(parts[..|parts| - 1]) + " " + parts[|parts| - 1]
  }

  /** Joining a first part to a non-empty rest puts one space between them. */
  lemma {:induction false} JoinWithSpacesCons(t: string, rest: seq<string>)
    requires |rest| > 0
    ensures JoinWithSpaces([t] + rest) == t + " " + JoinWithSpaces(rest)
    decreases |rest|
  {
    var parts := [t] + rest;
    if |rest| > 1 {
      assert parts[..|parts| - 1] == [t] + rest[..|rest| - 1];
      JoinWithSpacesCons(t, rest[..|rest| - 1]);
    }
  }

  /** When no argument throws, the message is the arguments' texts joined by single spaces. */
  lemma {:induction false} RenderArgsJoins(args: seq<Arg>)
    requires forall i | 0 <= i < |args| :: !Throws(args[i])
    ensures RenderArgs(args) == Rendered(JoinWithSpaces(ArgTexts(args)))
    decreases |args|
  {
    if |args| == 1 {
      assert ArgTexts(args) == [ArgText(args[0])];
    } else if |args| > 1 {
      var tail := args[1..];
      assert forall i | 0 <= i < |tail| :: !Throws(tail[i]) by {
        assert forall i | 0 <= i < |tail| :: tail[i] == args[i + 1];
      }
      RenderArgsJoins(tail);
      RenderArgsCons(args);
      ArgTextsCons(args);
      JoinWithSpacesCons(ArgText(args[0]), ArgTexts(tail));
    }
  }

  /** A first argument that renders, followed by others that render. */
  lemma RenderArgsCons(args: seq<Arg>)
    requires |args| > 1 && !Throws(args[0]) && RenderArgs(args[1..]).Rendered?
    ensures RenderArgs(args) == Rendered(ArgText(args[0]) + " " + RenderArgs(args[1..]).text)
  {
    assert RenderArg(args[0]) == Rendered(ArgText(args[0]));
  }

  lemma ArgTextsCons(args: seq<Arg>)
    requires |args| > 0 && forall i | 0 <= i < |args| :: !Throws(args[i])
    ensures forall i | 0 <= i < |args| - 1 :: !Throws(args[1..][i])
    ensures ArgTexts(args) == [ArgText(args[0])] + ArgTexts(args[1..])
  {
    assert forall i | 0 <= i < |args| - 1 :: args[1..][i] == args[i + 1];
  }

  /** When some argument throws, the error reported is the first such argument's. */
  lemma {:induction false} RenderArgsFirstFailure(args: seq<Arg>, k: nat)
    requires k < |args| && Throws(args[k])
    requires forall i | 0 <= i < k :: !Throws(args[i])
    ensures RenderArgs(args) == RenderFailed(args[k].json.error)
    decreases k
  {
    if k > 0 {
      var tail := args[1..];
      assert forall i | 0 <= i < |tail| :: tail[i] == args[i + 1];
      RenderArgsFirstFailure(tail, k - 1);
    }
  }

  /** No argument is an object that fails to serialize. */
  predicate Renderable(r: Record) {
    forall i | 0 <= i < |r.args| :: !Throws(r.args[i])
  }

  /** The entries `logs.forEach(logMessage)` appends, and the error that stopped it, if any:
      records are rendered in order until one fails. */
  function RenderRecords(records: seq<Record>): (r: (seq<Entry>, Option<string>))
    ensures |r.0| <= |records|
    decreases |records|
  {
    if records == [] then ([], None)
    else
      var done := RenderRecords(records[..|records| - 1]);
      var last := records[|records| - 1];
      if done.1.Some? then done
      else
        match RenderArgs(last.args)
        case Rendered(t) => (done.0 + [Entry(last.severity, t)], None)
        case RenderFailed(e) => (done.0, Some(e))
  }

  /** One more record, rendered after the ones before it. */
  lemma RenderRecordsNext(done: seq<Record>, last: Record)
    ensures RenderRecords(done + [last])
         == if RenderRecords(done).1.Some? then RenderRecords(done)
            else match RenderArgs(last.args)
              case Rendered(t) => (RenderRecords(done).0 + [Entry(last.severity, t)], None)
              case RenderFailed(e) => (RenderRecords(done).0, Some(e))
  {
    assert (done + [last])[..|done|] == done;
  }

  /** Once a record fails to render, later records add nothing. */
  lemma {:induction false} RenderRecordsStops(a: seq<Record>, b: seq<Record>)
    requires RenderRecords(a).1.Some?
    ensures RenderRecords(a + b) == RenderRecords(a)
    decreases |b|
  {
    if b != [] {
      var ab := a + b;
      assert ab[..|ab| - 1] == a + b[..|b| - 1];
      assert RenderRecords(a + b[..|b| - 1]) == RenderRecords(a) by {
        RenderRecordsStops(a, b[..|b| - 1]);
      }
    } else {
      assert a + b == a;
    }
  }

  /** Records that all render are mirrored one for one, in arrival order, with their severities. */
  lemma {:induction false} RenderRecordsMirrors(records: seq<Record>)
    requires forall i | 0 <= i < |records| :: Renderable(records[i])
    ensures RenderRecords(records).1.None?
    ensures |RenderRecords(records).0| == |records|
    ensures forall i | 0 <= i < |records| ::
              && RenderArgs(records[i].args).Rendered?
              && RenderRecords(records).0[i] == Entry(records[i].severity, RenderArgs(records[i].args).text)
    decreases |records|
  {
    if records != [] {
      var init := records[..|records| - 1];
      RenderRecordsMirrors(init);
    }
  }

  // ---------------------------------------------------------------------------------------------
  // The outcome of a run.

  /** What `executeCode` appends for an execution, and the error that escapes it: a
      `null`/`undefined` throw makes `error.message` throw inside the catch block. */
  function ExecuteEffect(ex: Execution, language: string): (r: (seq<Entry>, Option<string>))
  {
    match ex
    case Completed(records) =>
      if records == [] then ([Entry(Info, NoOutput)], None)
      else
        var rendered := RenderRecords(records);
        if rendered.1.Some? then (rendered.0 + [Entry(Error, ExecutionFailed(language) + rendered.1.value)], None)
        else (rendered.0, None)
    case Failed(_, WithMessage(m)) => ([Entry(Error, ExecutionFailed(language) + m)], None)
    case Failed(_, Nullish(e)) => ([], Some(e))
  }

  /** What `runTypeScript` appends for already-compiled source, and the error that escapes it. */
  function TypeScriptEffect(c: Compilation, execute: string -> Execution): (r: (seq<Entry>, Option<string>))
  {
    match c
    case CompilerThrew(WithMessage(m)) => ([Entry(Error, CompileFailed + m)], None)
    case CompilerThrew(Nullish(e)) => ([], Some(e))
    case Transpiled(diagnostics, output) =>
      if |diagnostics| > 0 then (DiagnosticEntries(diagnostics), None)
      else
        var run := ExecuteEffect(execute(output), "TypeScript");
        if run.1.Some? then (run.0 + [Entry(Error, CompileFailed + run.1.value)], None)
        else run
  }

  /** One error entry per diagnostic, message only. */
  function DiagnosticEntries(diagnostics: seq<string>): (r: seq<Entry>)
    ensures |r| == |diagnostics|
    ensures forall i | 0 <= i < |r| :: r[i] == Entry(Error, TypeScriptDiagnostic + diagnostics[i])
  {
    seq(|diagnostics|, i requires 0 <= i < |diagnostics| => Entry(Error, TypeScriptDiagnostic + diagnostics[i]))
  }

  /** The panel after `runCode` on `code`. */
  function RunEntries(code: string, dialect: Dialect, compile: string -> Compilation,
                      execute: string -> Execution): seq<Entry>
  {
    if Trim(code) == "" then [Entry(Info, EmptySource)]
    else
      var r := if dialect == TypeScript then TypeScriptEffect(compile(code), execute)
               else ExecuteEffect(execute(code), "JavaScript");
      if r.1.Some? then r.0 + [Entry(Error, RunFailed + r.1.value)] else r.0
  }

  /** Blank source: one info entry, and neither the compiler nor the sandbox is consulted. */
  lemma BlankSourceRunsNothing(code: string, dialect: Dialect, compile: string -> Compilation,
                               execute: string -> Execution, compile': string -> Compilation,
                               execute': string -> Execution)
    requires All(code, 0, |code|, IsSpace)
    ensures RunEntries(code, dialect, compile, execute) == [Entry(Info, EmptySource)]
    ensures RunEntries(code, dialect, compile, execute) == RunEntries(code, dialect, compile', execute')
  {
  }

  /** TypeScript diagnostics: one error entry each, and the sandbox is not consulted. */
  lemma DiagnosticsBlockExecution(code: string, compile: string -> Compilation,
                                  execute: string -> Execution, execute': string -> Execution)
    requires !All(code, 0, |code|, IsSpace)
    requires compile(code).Transpiled? && |compile(code).diagnostics| > 0
    ensures RunEntries(code, TypeScript, compile, execute) == DiagnosticEntries(compile(code).diagnostics)
    ensures RunEntries(code, TypeScript, compile, execute) == RunEntries(code, TypeScript, compile, execute')
  {
  }

  /** The code the sandbox runs: the source itself, or the compiler's output. */
  function Executed(code: string, dialect: Dialect, compile: string -> Compilation): Option<string> {
    if dialect == JavaScript then Some(code)
    else match compile(code)
      case Transpiled(diagnostics, output) => if |diagnostics| == 0 then Some(output) else None
      case CompilerThrew(_) => None
  }

  /** The language name an execution error carries. */
  function LanguageName(dialect: Dialect): string {
    if dialect == TypeScript then "TypeScript" else "JavaScript"
  }

  /** A run that logs nothing and completes gives one info entry. */
  lemma QuietRun(code: string, dialect: Dialect, compile: string -> Compilation, execute: string -> Execution)
    requires !All(code, 0, |code|, IsSpace)
    requires Executed(code, dialect, compile).Some?
    requires execute(Executed(code, dialect, compile).value) == Completed([])
    ensures RunEntries(code, dialect, compile, execute) == [Entry(Info, NoOutput)]
  {
  }

  /** A run that completes mirrors what it logged: one entry per record, in arrival order, with
      the record's severity. */
  lemma CapturedRun(code: string, dialect: Dialect, compile: string -> Compilation, execute: string -> Execution)
    requires !All(code, 0, |code|, IsSpace)
    requires Executed(code, dialect, compile).Some?
    requires var ex := execute(Executed(code, dialect, compile).value);
      ex.Completed? && |ex.records| > 0 && forall i | 0 <= i < |ex.records| :: Renderable(ex.records[i])
    ensures var records := execute(Executed(code, dialect, compile).value).records;
      var entries := RunEntries(code, dialect, compile, execute);
      && |entries| == |records|
      && forall i | 0 <= i < |records| ::
           && RenderArgs(records[i].args).Rendered?
           && entries[i] == Entry(records[i].severity, RenderArgs(records[i].args).text)
  {
    RenderRecordsMirrors(execute(Executed(code, dialect, compile).value).records);
  }

  /** A run that throws an error gives a single error entry; what it logged before is dropped. */
  lemma FailedRun(code: string, dialect: Dialect, compile: string -> Compilation, execute: string -> Execution)
    requires !All(code, 0, |code|, IsSpace)
    requires Executed(code, dialect, compile).Some?
    requires var ex := execute(Executed(code, dialect, compile).value);
      ex.Failed? && ex.thrown.WithMessage?
    ensures RunEntries(code, dialect, compile, execute)
         == [Entry(Error, ExecutionFailed(LanguageName(dialect))
                          + execute(Executed(code, dialect, compile).value).thrown.message)]
  {
  }

  /** Two logged strings come out as two LOG entries, in order. */
  lemma TwoLogs(code: string, compile: string -> Compilation, execute: string -> Execution)
    requires !All(code, 0, |code|, IsSpace)
    requires execute(code) == Completed([Record(Log, [Prim("a")]), Record(Log, [Prim("b")])])
    ensures RunEntries(code, JavaScript, compile, execute) == [Entry(Log, "a"), Entry(Log, "b")]
  {
    var a, b := Record(Log, [Prim("a")]), Record(Log, [Prim("b")]);
    assert RenderArgs(a.args) == Rendered("a");
    assert RenderArgs(b.args) == Rendered("b");
    RenderRecordsNext([], a);
    assert [] + [a] == [a];
    RenderRecordsNext([a], b);
  }

  // ---------------------------------------------------------------------------------------------
  // The panel and the console, as the page changes them.

  /** Whether the console methods are the page's own or the capturing replacements. */
  datatype Console = Original | Capturing

  class Runner {
    var panel: seq<Entry>
    var console: Console

    constructor()
      ensures panel == [] && console == Original
    {
      panel := [];
      console := Original;
    }

    /** `clearOutput` */
    method ClearOutput()
      modifies this
      ensures panel == [] && console == old(console)
    {
      panel := [];
    }

    /** `logMessage`: appends the rendered entry, or throws (appending nothing) when an
        argument fails to serialize. */
    method LogMessage(severity: Severity, args: seq<Arg>) returns (thrown: Option<string>)
      modifies this
      ensures RenderArgs(args).Rendered? ==>
                thrown == None && panel == old(panel) + [Entry(severity, RenderArgs(args).text)]
      ensures RenderArgs(args).RenderFailed? ==>
                thrown == Some(RenderArgs(args).error) && panel == old(panel)
      ensures console == old(console)
    {
      var r := RenderArgs(args);
      if r.RenderFailed? {
        return Some(r.error);
      }
      panel := panel + [Entry(severity, r.text)];
      return None;
    }

    /** `logError` */
    method LogError(message: string)
      modifies this
      ensures panel == old(panel) + [Entry(Error, message)] && console == old(console)
    {
      panel := panel + [Entry(Error, message)];
    }

    /** `logInfo` */
    method LogInfo(message: string)
      modifies this
      ensures panel == old(panel) + [Entry(Info, message)] && console == old(console)
    {
      panel := panel + [Entry(Info, message)];
    }

    /** `executeCode`: the console is captured while the code runs and restored on every path,
        including the one where an error escapes. */
    method ExecuteCode(code: string, language: string, execute: string -> Execution)
      returns (escaped: Option<string>)
      requires console == Original
      modifies this
      ensures console == Original
      ensures panel == old(panel) + ExecuteEffect(execute(code), language).0
      ensures escaped == ExecuteEffect(execute(code), language).1
    {
      console := Capturing;
      var ex := execute(code);
      escaped := None;
      match ex {
        case Completed(records) =>
          if records == [] {
            LogInfo(NoOutput);
          } else {
            var i := 0;
            var failure: Option<string> := None;
            assert records[..0] == [];
            while i < |records| && failure.None?
              invariant 0 <= i <= |records|
              invariant panel == old(panel) + RenderRecords(records[..i]).0
              invariant failure == RenderRecords(records[..i]).1
              invariant console == Capturing
              decreases |records| - i, if failure.None? then 1 else 0
            {
              assert records[..i + 1][..i] == records[..i];
              failure := LogMessage(records[i].severity, records[i].args);
              i := i + 1;
            }
            if failure.Some? {
              RenderRecordsStops(records[..i], records[i..]);
              assert records[..i] + records[i..] == records;
              LogError(ExecutionFailed(language) + failure.value);
            } else {
              assert records[..i] == records;
            }
          }
        case Failed(_, WithMessage(m)) =>
          LogError(ExecutionFailed(language) + m);
        case Failed(_, Nullish(e)) =>
          escaped := Some(e);
      }
      console := Original;
    }

    /** `runTypeScript` on an already-transpiled result. */
    method RunTypeScript(c: Compilation, execute: string -> Execution) returns (escaped: Option<string>)
      requires console == Original
      modifies this
      ensures console == Original
      ensures panel == old(panel) + TypeScriptEffect(c, execute).0
      ensures escaped == TypeScriptEffect(c, execute).1
    {
      escaped := None;
      match c {
        case CompilerThrew(WithMessage(m)) =>
          LogError(CompileFailed + m);
        case CompilerThrew(Nullish(e)) =>
          escaped := Some(e);
        case Transpiled(diagnostics, output) =>
          if |diagnostics| > 0 {
            var i := 0;
            while i < |diagnostics|
              invariant 0 <= i <= |diagnostics|
              invariant panel == old(panel) + DiagnosticEntries(diagnostics)[..i]
              invariant console == Original
            {
              LogError(TypeScriptDiagnostic + diagnostics[i]);
              i := i + 1;
            }
            assert DiagnosticEntries(diagnostics)[..i] == DiagnosticEntries(diagnostics);
          } else {
            var inner := ExecuteCode(output, "TypeScript", execute);
            if inner.Some? {
              LogError(CompileFailed + inner.value);
            }
          }
      }
    }

    /** `runCode`: the panel is cleared, then filled as `RunEntries` says; the console ends as it began. */
    method RunCode(code: string, dialect: Dialect, compile: string -> Compilation, execute: string -> Execution)
      requires console == Original
      modifies this
      ensures console == Original
      ensures panel == RunEntries(code, dialect, compile, execute)
    {
      ClearOutput();
      if Trim(code) == "" {
        LogInfo(EmptySource);
        return;
      }
      var escaped: Option<string>;
      if dialect == TypeScript {
        escaped := RunTypeScript(compile(code), execute);
      } else {
        escaped := ExecuteCode(code, "JavaScript", execute);
      }
      if escaped.Some? {
        LogError(RunFailed + escaped.value);
      }
    }
  }
}
