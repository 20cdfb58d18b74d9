// Error values and the process-wide error reporter of lib/rlox.rb: the
// RuntimeError class, `error`, `report` and `runtime_error`, with the
// had-error flags. Writing to standard error is modelled as appending a
// line to `log`.
module Errors {
  import opened Tokens

  /** RLox::RuntimeError: a message together with the offending token. */
  datatype LoxError = LoxError(token: Token, message: string)

  /** Where a static error is reported: a bare line, or a token. */
  datatype Site = AtLine(line: nat) | AtToken(token: Token)

  function DigitChar(d: nat): char
    requires d < 10
  {
    ('0' as int + d) as char
  }

  predicate IsDecimal(s: string)
  {
    forall i :: 0 <= i < |s| ==> '0' <= s[i] <= '9'
  }

  /** Decimal text of a natural number, as Ruby interpolation writes an Integer. */
  function NatText(n: nat): (r: string)
    ensures |r| > 0
    decreases n
  {
    if n < 10 then [DigitChar(n)] else NatText(n / 10) + [DigitChar(n % 10)]
  }

  /** The value of a string of decimal digits. */
  function DigitsValue(s: string): nat
    requires IsDecimal(s)
  {
    if s == [] then 0
    else DigitsValue(s[..|s| - 1]) * 10 + (s[|s| - 1] as int - '0' as int)
  }

  /** NatText loses nothing: its digits read back as the number written. */
  lemma {:induction false} NatTextRoundTrip(n: nat)
    ensures IsDecimal(NatText(n)) && DigitsValue(NatText(n)) == n
    decreases n
  {
    if n >= 10 {
      NatTextRoundTrip(n / 10);
      var s := NatText(n);
      assert s[..|s| - 1] == NatText(n / 10);
    }
  }

  lemma NatTextInjective(m: nat, n: nat)
    requires NatText(m) == NatText(n)
    ensures m == n
  {
    NatTextRoundTrip(m);
    NatTextRoundTrip(n);
  }

  /** The `where` part of a report: " at end" for the end-of-input token,
      " at '<lexeme>'" for any other token, and nothing for a bare line. */
  function Where(site: Site): string
  {
    match site
    case AtLine(_) => ""
    case AtToken(t) => if t.kind == Eof then " at end" else " at '" + t.lexeme + "'"
  }

  function SiteLine(site: Site): nat
  {
    match site
    case AtLine(l) => l
    case AtToken(t) => t.line
  }

  /** The line `report` writes. */
  function ReportText(line: nat, where: string, message: string): string
  {
    "[line " + NatText(line) + "] Error" + where + ": " + message
  }

  /** The text `runtime_error` writes: the message, a newline, then the line. */
  function RuntimeErrorText(e: LoxError): string
  {
    e.message + "\n[line " + NatText(e.token.line) + "]"
  }

  /** A report always names its line first and ends with the message, so the
      message can be read back from the text. */
  lemma ReportTextShape(line: nat, where: string, message: string)
    ensures var r := ReportText(line, where, message);
      |r| >= |message| && r[|r| - |message|..] == message
      && r[..6 + |NatText(line)|] == "[line " + NatText(line)
  {
  }

  class Reporter {
    var hadError: bool
    var hadRuntimeError: bool
    var log: seq<string>

    constructor ()
      ensures !hadError && !hadRuntimeError && log == []
    {
      hadError, hadRuntimeError, log := false, false, [];
    }

    /** RLox.error: reports a static error at a token or at a bare line. */
    method Error(message: string, site: Site)
      modifies this`hadError, this`log
      ensures log == old(log) + [ReportText(SiteLine(site), Where(site), message)]
      ensures hadError && hadRuntimeError == old(hadRuntimeError)
    {
      match site
      case AtToken(t) =>
        if t.kind == Eof {
          Report(t.line, " at end", message);
        } else {
          Report(t.line, " at '" + t.lexeme + "'", message);
        }
      case AtLine(l) =>
        Report(l, "", message);
    }

    method Report(line: nat, where: string, message: string)
      modifies this`hadError, this`log
      ensures log == old(log) + [ReportText(line, where, message)]
      ensures hadError && hadRuntimeError == old(hadRuntimeError)
    {
      log := log + [ReportText(line, where, message)];
      hadError := true;
    }

    /** `warn` of a plain message, as `main` does for its usage line. */
    method Warn(message: string)
      modifies this`log
      ensures log == old(log) + [message]
      ensures hadError == old(hadError) && hadRuntimeError == old(hadRuntimeError)
    {
      log := log + [message];
    }

    /** RLox.runtime_error: reports an error that aborted `interpret`. */
    method RuntimeError(error: LoxError)
      modifies this`hadRuntimeError, this`log
      ensures log == old(log) + [RuntimeErrorText(error)]
      ensures hadRuntimeError && hadError == old(hadError)
    {
      log := log + [RuntimeErrorText(error)];
      hadRuntimeError := true;
    }

    /** What the prompt loop does after each line: only had_error is cleared. */
    method ClearError()
      modifies this`hadError
      ensures !hadError && hadRuntimeError == old(hadRuntimeError) && log == old(log)
    {
      hadError := false;
    }
  }
}
