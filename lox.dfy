// lib/rlox.rb: the driver. One interpreter lives for the whole session;
// each run scans, parses, and only when no static error has been reported
// resolves, and again only when none has been reported interprets. Reading
// the script file and standard input is left to the caller: the script's
// text and the prompt's lines are parameters, as is the clock reading.
module Lox {
  import opened Wrappers
  import opened Tokens
  import opened Errors
  import opened Ast
  import S = Scanner
  import P = Parser
  import R = Resolver
  import I = Interpreter
  import V = Values

  /** The exit status `run_file` ends with: 65 after a static error, else
      70 after a runtime error, else 0. */
  function ExitStatus(hadError: bool, hadRuntimeError: bool): (status: nat)
    ensures status == 65 <==> hadError
    ensures status == 70 <==> !hadError && hadRuntimeError
    ensures status == 0 <==> !hadError && !hadRuntimeError
  {
    if hadError then 65 else if hadRuntimeError then 70 else 0
  }

  const UsageStatus: nat := 64
  const Usage: string := "Usage: rlox [script]"

  /** The statements of a parse in which every declaration succeeded. */
  function Present(parsed: seq<Option<Stmt>>): (statements: seq<Stmt>)
    requires None !in parsed
    ensures |statements| == |parsed|
    ensures forall i :: 0 <= i < |parsed| ==> parsed[i] == Some(statements[i])
  {
    if parsed == [] then []
    else
      assert parsed[0] in parsed && forall o | o in parsed[1..] :: o in parsed;
      [parsed[0].value] + Present(parsed[1..])
  }

  /** What the driver keeps from run to run: the next syntax-node id, the
      reporter's flags and lines, the interpreter's side table and its
      state. */
  datatype Session = Session(nextNode: nat, hadError: bool, hadRuntimeError: bool, log: seq<string>,
                             locals: map<NodeId, nat>, state: I.State)

  /** A run's result (None when it stopped before interpreting) and the
      session it leaves. */
  datatype Ran = Ran(result: Option<I.Outcome>, after: Session)

  /** The static-error half of `run`: scan, then parse from the next free
      node id, the scan's reports logged first. */
  function FrontEndOf(source: string, s: Session): (r: P.Declared<seq<Option<Stmt>>>)
    ensures !r.after.hadError ==> None !in r.value && !s.hadError
    ensures s.nextNode <= r.after.nextId
  {
    var scanned := S.Scan(source);
    S.ScanOfSourceEndsWithEof(source);
    P.ParseProgram(scanned.tokens, P.Cursor(0, s.nextNode, s.hadError || scanned.errors != [], s.log + S.ErrorLines(scanned.errors)))
  }

  /** The session after the front end. */
  function AfterFrontEnd(s: Session, front: P.Declared<seq<Option<Stmt>>>): Session
  {
    s.(nextNode := front.after.nextId, hadError := front.after.hadError, log := front.after.log)
  }

  /** The rest of `run`, on the statements of a parse without error: a
      fresh resolver runs over them from global scope, adding to the side
      table; if it reported an error the run stops, otherwise the
      statements are interpreted against that side table, in environment
      `env`, and a runtime error is reported instead of escaping. */
  function BackEndOf(statements: seq<Stmt>, s: Session, env: nat, clock: real, fuel: nat): (r: Ran)
    requires env < |s.state.envs|
    ensures r.result.None? <==> r.after.hadError
    ensures r.result.None? ==> r.after.state == s.state
    ensures s.hadError ==> r.result.None?
    ensures I.Grows(s.state, r.after.state)
    ensures r.after.nextNode == s.nextNode
    ensures s.hadRuntimeError ==> r.after.hadRuntimeError
  {
    var resolved := R.StmtsResolved(R.Resolution([], s.locals, s.hadError, s.log), statements);
    var checked := s.(locals := resolved.locals, hadError := resolved.hadError, log := resolved.log);
    if checked.hadError then Ran(None, checked)
    else
      var run := I.ExecSeq(statements, env, s.state, I.Context(resolved.locals, clock), fuel);
      var raised := run.outcome.Raised?;
      Ran(Some(if raised then I.Normal(V.Nil) else run.outcome),
          checked.(state := run.state,
                   log := checked.log + (if raised then [RuntimeErrorText(run.outcome.error)] else []),
                   hadRuntimeError := checked.hadRuntimeError || raised))
  }

  /** `run` on one source text, with `env` the interpreter's current
      environment: it stops with no result when the front end has
      reported a static error, in this source or before it, and otherwise
      goes on as BackEndOf says. */
  function RunOf(source: string, s: Session, env: nat, clock: real, fuel: nat): (r: Ran)
    requires env < |s.state.envs|
    ensures r.result.None? <==> r.after.hadError
    ensures r.result.None? ==> r.after.state == s.state
    ensures s.hadError ==> r.result.None?
    ensures I.Grows(s.state, r.after.state)
    ensures s.nextNode <= r.after.nextNode
    ensures s.hadRuntimeError ==> r.after.hadRuntimeError
  {
    var front := FrontEndOf(source, s);
    var parsed := AfterFrontEnd(s, front);
    if parsed.hadError then Ran(None, parsed)
    else BackEndOf(Present(front.value), parsed, env, clock, fuel)
  }

  /** `run_prompt` over `lines`: each line is run on the session the line
      before left, and the static-error flag is put down after it. */
  function PromptOf(lines: seq<string>, s: Session, env: nat, clock: real, fuel: nat): (r: Session)
    requires env < |s.state.envs|
    ensures env < |r.state.envs| && I.Grows(s.state, r.state)
    ensures lines != [] ==> !r.hadError
    ensures lines == [] ==> r == s
    ensures s.nextNode <= r.nextNode
    ensures s.hadRuntimeError ==> r.hadRuntimeError
  {
    if lines == [] then s
    else
      var before := PromptOf(lines[..|lines| - 1], s, env, clock, fuel);
      var r := RunOf(lines[|lines| - 1], before, env, clock, fuel).after.(hadError := false);
      r
  }

  // What the driver promises, stated about RunOf and PromptOf.

  /** A static error reported earlier in the session stops every later
      run before it resolves or interprets anything: the interpreter's
      state and side table are untouched. */
  lemma StaticErrorStopsRun(source: string, s: Session, env: nat, clock: real, fuel: nat)
    requires env < |s.state.envs| && s.hadError
    ensures var r := RunOf(source, s, env, clock, fuel);
      r.result.None? && r.after.state == s.state && r.after.locals == s.locals
  {
  }

  /** A run that gets past the front end resolves from global scope, so
      each expression statement at the top of the source is left to the
      globals: it adds nothing to the side table. */
  lemma TopLevelExpressionRecordsNothing(source: string, s: Session, env: nat, clock: real, fuel: nat, e: Expr)
    requires env < |s.state.envs|
    requires var front := FrontEndOf(source, s); !front.after.hadError && front.value == [Some(Stmt.Expression(e))]
    ensures RunOf(source, s, env, clock, fuel).after.locals == s.locals
  {
    var front := FrontEndOf(source, s);
    var parsed := AfterFrontEnd(s, front);
    var statements := [Stmt.Expression(e)];
    assert Present(front.value) == statements;
    assert RunOf(source, s, env, clock, fuel) == BackEndOf(statements, parsed, env, clock, fuel);
    var st := R.Resolution([], s.locals, false, parsed.log);
    assert R.StmtsResolved(st, statements) == R.StmtResolved(st, statements[0]) by {
      assert statements[..0] == [];
    }
    R.GlobalExpressionStatementsRecordNothing(st, e);
  }

  /** In the prompt a static error is forgotten after its line: a line
      that follows one with a static error runs exactly as it would in a
      session without that error. */
  lemma PromptForgetsStaticError(lines: seq<string>, line: string, s: Session, env: nat, clock: real, fuel: nat)
    requires env < |s.state.envs| && lines != []
    ensures var before := PromptOf(lines, s, env, clock, fuel);
      RunOf(line, before, env, clock, fuel) == RunOf(line, before.(hadError := false), env, clock, fuel)
      && PromptOf(lines + [line], s, env, clock, fuel) == RunOf(line, before, env, clock, fuel).after.(hadError := false)
  {
    assert (lines + [line])[..|lines|] == lines;
  }

  class Lox {
    const reporter: Reporter
    const interpreter: I.Interpreter
    /** The next syntax-node id, carried from run to run. */
    var nextNode: nat

    ghost predicate Valid()
      reads this, interpreter
    {
      interpreter.Valid() && interpreter.reporter == reporter
    }

    /** The session as a value. */
    function Snapshot(): Session
      reads this, reporter, interpreter
    {
      Session(nextNode, reporter.hadError, reporter.hadRuntimeError, reporter.log, interpreter.locals, interpreter.state)
    }

    /** `main`'s shared interpreter, with a fresh error state. */
    constructor ()
      ensures Valid() && fresh(reporter) && fresh(interpreter)
      ensures interpreter.state == I.InitialState() && interpreter.locals == map[]
      ensures !reporter.hadError && !reporter.hadRuntimeError && reporter.log == []
    {
      var r := new Reporter();
      reporter := r;
      interpreter := new I.Interpreter(r);
      nextNode := 0;
    }

    /** `run`: the result is None when the run stopped before interpreting. */
    method Run(source: string, clock: real, fuel: nat) returns (result: Option<I.Outcome>)
      requires Valid()
      modifies this`nextNode, reporter, interpreter`state, interpreter`locals
      ensures Valid()
      ensures Ran(result, Snapshot()) == RunOf(source, old(Snapshot()), interpreter.environment, clock, fuel)
    {
      ghost var start := Snapshot();
      var statements := FrontEnd(source);
      if statements.None? {
        return None;
      }
      result := ResolveAndInterpret(statements.value, clock, fuel);
      assert RunOf(source, start, interpreter.environment, clock, fuel)
          == BackEndOf(statements.value, AfterFrontEnd(start, FrontEndOf(source, start)), interpreter.environment, clock, fuel);
    }

    /** The first half of `run`: scan and parse. The statements come back
        exactly when no static error has been reported, in this source or
        before it; the interpreter is not touched. */
    method FrontEnd(source: string) returns (statements: Option<seq<Stmt>>)
      requires Valid()
      modifies this`nextNode, reporter
      ensures Valid()
      ensures var front := FrontEndOf(source, old(Snapshot()));
        && Snapshot() == AfterFrontEnd(old(Snapshot()), front)
        && (statements.None? <==> front.after.hadError)
        && (statements.Some? ==> None !in front.value && statements.value == Present(front.value))
    {
      var tokens := ScanSource(source);
      S.ScanOfSourceEndsWithEof(source);
      var parsed := ParseTokens(tokens);
      if reporter.hadError {
        return None;
      }
      return Some(Present(parsed));
    }

    /** `scan_tokens` on a fresh scanner sharing the reporter. */
    method ScanSource(source: string) returns (tokens: seq<Token>)
      requires Valid()
      modifies reporter
      ensures Valid()
      ensures var scanned := S.Scan(source);
        && tokens == scanned.tokens
        && Snapshot() == old(Snapshot()).(hadError := old(reporter.hadError) || scanned.errors != [],
                                          log := old(reporter.log) + S.ErrorLines(scanned.errors))
    {
      var scanner := new S.Scanner(source, reporter);
      tokens := scanner.ScanTokens();
    }

    /** `parse` on a fresh parser sharing the reporter, numbering nodes from
        the next free id. */
    method ParseTokens(tokens: seq<Token>) returns (parsed: seq<Option<Stmt>>)
      requires Valid() && P.ValidTokens(tokens)
      modifies this`nextNode, reporter
      ensures Valid()
      ensures var front := P.ParseProgram(tokens, P.Cursor(0, old(nextNode), old(reporter.hadError), old(reporter.log)));
        && parsed == front.value
        && Snapshot() == AfterFrontEnd(old(Snapshot()), front)
    {
      var parser := new P.Parser(tokens, reporter, nextNode);
      parsed := parser.Parse();
      nextNode := parser.nextId;
    }

    /** The second half of `run`, once the source has parsed without error:
        resolve with a fresh resolver, and interpret unless resolving
        reported an error. */
    method ResolveAndInterpret(statements: seq<Stmt>, clock: real, fuel: nat) returns (result: Option<I.Outcome>)
      requires Valid() && !reporter.hadError
      modifies reporter, interpreter`state, interpreter`locals
      ensures Valid()
      ensures Ran(result, Snapshot()) == BackEndOf(statements, old(Snapshot()), interpreter.environment, clock, fuel)
    {
      var resolver := new R.Resolver(interpreter, reporter);
      resolver.Resolve(statements);
      if reporter.hadError {
        return None;
      }
      var escaped := interpreter.Interpret(statements, clock, fuel);
      return Some(escaped);
    }

    /** `run_file`: one run of the script's text, and the exit status its
        error flags call for. */
    method RunFile(script: string, clock: real, fuel: nat) returns (status: nat)
      requires Valid()
      modifies this`nextNode, reporter, interpreter`state, interpreter`locals
      ensures Valid()
      ensures var r := RunOf(script, old(Snapshot()), interpreter.environment, clock, fuel);
        && Snapshot() == r.after
        && status == ExitStatus(r.after.hadError, r.after.hadRuntimeError)
        && (status == 65 <==> r.result.None?)
    {
      var result := Run(script, clock, fuel);
      status := ExitStatus(reporter.hadError, reporter.hadRuntimeError);
    }

    /** `run_prompt`: each line is run in turn against the same
        interpreter; a static error is forgotten after its line. */
    method RunPrompt(lines: seq<string>, clock: real, fuel: nat)
      requires Valid()
      modifies this`nextNode, reporter, interpreter`state, interpreter`locals
      ensures Valid()
      ensures Snapshot() == PromptOf(lines, old(Snapshot()), interpreter.environment, clock, fuel)
    {
      var i := 0;
      while i < |lines|
        invariant i <= |lines| && Valid()
        invariant interpreter.environment == old(interpreter.environment)
        invariant Snapshot() == PromptOf(lines[..i], old(Snapshot()), interpreter.environment, clock, fuel)
      {
        assert lines[..i + 1][..i] == lines[..i];
        var result := Run(lines[i], clock, fuel);
        reporter.ClearError();
        i := i + 1;
      }
      assert lines[..i] == lines;
    }

    /** `main`: a script path runs the file, no argument runs the prompt,
        and more arguments are a usage error with status 64. `script` is
        the named file's text; `lines` are the prompt's input lines. */
    method RunCommandLine(argumentCount: nat, script: string, lines: seq<string>, clock: real, fuel: nat)
      returns (status: nat)
      requires Valid()
      modifies this`nextNode, reporter, interpreter`state, interpreter`locals
      ensures Valid()
      ensures argumentCount == 1 ==>
        var r := RunOf(script, old(Snapshot()), interpreter.environment, clock, fuel);
        Snapshot() == r.after && status == ExitStatus(r.after.hadError, r.after.hadRuntimeError)
      ensures argumentCount == 0 ==>
        status == 0 && Snapshot() == PromptOf(lines, old(Snapshot()), interpreter.environment, clock, fuel)
      ensures argumentCount > 1 ==>
        status == UsageStatus && Snapshot() == old(Snapshot()).(log := old(reporter.log) + [Usage])
    {
      if argumentCount == 1 {
        status := RunFile(script, clock, fuel);
      } else if argumentCount == 0 {
        RunPrompt(lines, clock, fuel);
        status := 0;
      } else {
        reporter.Warn(Usage);
        status := UsageStatus;
      }
    }
  }
}
