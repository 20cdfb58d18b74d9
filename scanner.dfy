// The scanner of lib/rlox/scanner.rb. The class Scanner advances its
// cursor fields over the source and pushes tokens, exactly as the Ruby
// does; every method is proved against the functions Step and ScanFrom,
// which say token by token what the scan produces, and the properties of
// the scan are lemmas about those functions.
module Scanner {
  import opened Wrappers
  import opened Tokens
  import opened Errors

  predicate IsDigit(c: char) { '0' <= c <= '9' }

  predicate IsAlpha(c: char) { ('a' <= c <= 'z') || ('A' <= c <= 'Z') || c == '_' }

  predicate IsAlphaNumeric(c: char) { IsAlpha(c) || IsDigit(c) }

  predicate NotNewline(c: char) { c != '\n' }

  predicate NotQuote(c: char) { c != '"' }

  /** The reserved words and their token kinds. */
  const Keywords: map<string, TokenType> :=
    map[
      "and" := And, "class" := Class, "else" := Else, "false" := False,
      "for" := For, "fun" := Fun, "if" := If, "nil" := Nil, "or" := Or,
      "print" := Print, "return" := Return, "super" := Super, "this" := This,
      "true" := True, "var" := Var, "while" := While
    ]

  function KeywordOrIdentifier(text: string): TokenType
  {
    if text in Keywords then Keywords[text] else Identifier
  }

  function CountNewlines(s: string): nat
  {
    if s == [] then 0 else CountNewlines(s[..|s| - 1]) + (if s[|s| - 1] == '\n' then 1 else 0)
  }

  lemma {:induction false} CountNewlinesAppend(a: string, b: string)
    ensures CountNewlines(a + b) == CountNewlines(a) + CountNewlines(b)
    decreases |b|
  {
    if b != [] {
      var b' := b[..|b| - 1];
      var ab := a + b;
      assert ab[..|ab| - 1] == a + b';
      assert ab[|ab| - 1] == b[|b| - 1];
      CountNewlinesAppend(a, b');
      assert CountNewlines(ab) == CountNewlines(a + b') + (if b[|b| - 1] == '\n' then 1 else 0);
    } else {
      assert a + b == a;
    }
  }

  lemma {:induction false} CountNewlinesNone(s: string)
    requires forall k :: 0 <= k < |s| ==> s[k] != '\n'
    ensures CountNewlines(s) == 0
    decreases |s|
  {
    if s != [] {
      CountNewlinesNone(s[..|s| - 1]);
    }
  }

  /** The first index at or after `i` whose character does not satisfy `keep`,
      or the end of the source: what a Ruby `advance while keep(peek)` reaches. */
  function SkipWhile(source: string, i: nat, keep: char -> bool): (j: nat)
    requires i <= |source|
    ensures i <= j <= |source|
    ensures forall k :: i <= k < j ==> keep(source[k])
    ensures j == |source| || !keep(source[j])
    decreases |source| - i
  {
    if i == |source| || !keep(source[i]) then i else SkipWhile(source, i + 1, keep)
  }

  /** A static error found by the scanner: a line and a message. */
  datatype ScanError = ScanError(line: nat, message: string)

  /** The effect of one scan_token call started at `start`: where the cursor
      ends, the new line count, the token added (if any) and the error
      reported (if any). */
  datatype Lexed = Lexed(next: nat, line: nat, token: Option<Token>, error: Option<ScanError>)

  function Emit(source: string, start: nat, next: nat, line: nat, kind: TokenType, literal: TokenLiteral): Lexed
    requires start <= next <= |source|
  {
    Lexed(next, line, Some(Token(kind, source[start..next], literal, line)), None)
  }

  /** `match?('=')` after an operator character: true when the next character is '='. */
  function FollowedByEqual(source: string, cur: nat): bool
  {
    cur < |source| && source[cur] == '='
  }

  function StringStep(source: string, start: nat, line: nat): Lexed
    requires start < |source|
  {
    var j := SkipWhile(source, start + 1, NotQuote);
    var line' := line + CountNewlines(source[start + 1..j]);
    if j == |source| then Lexed(j, line', None, Some(ScanError(line', "Unterminated string.")))
    else Emit(source, start, j + 1, line', String, StringLiteral(source[start + 1..j]))
  }

  function NumberStep(source: string, start: nat, line: nat): Lexed
    requires start < |source|
  {
    var j := SkipWhile(source, start + 1, IsDigit);
    var k := if j + 1 < |source| && source[j] == '.' && IsDigit(source[j + 1])
             then SkipWhile(source, j + 1, IsDigit) else j;
    Emit(source, start, k, line, Number, NumberLiteral(source[start..k]))
  }

  function IdentifierStep(source: string, start: nat, line: nat): Lexed
    requires start < |source|
  {
    var j := SkipWhile(source, start + 1, IsAlphaNumeric);
    Emit(source, start, j, line, KeywordOrIdentifier(source[start..j]), NoLiteral)
  }

  /** The characters that begin a punctuation or operator token (or a comment). */
  predicate IsOperatorChar(c: char)
  {
    c == '(' || c == ')' || c == '{' || c == '}' || c == ',' || c == '.' || c == '-' || c == '+'
    || c == ';' || c == '*' || c == '!' || c == '=' || c == '<' || c == '>' || c == '/'
  }

  /** scan_token on a punctuation or operator character. */
  function OperatorStep(source: string, start: nat, line: nat): (r: Lexed)
    requires start < |source| && IsOperatorChar(source[start])
    ensures start < r.next <= |source| && r.error.None? && r.line == line
    ensures source[start] != '/' ==> r.token.Some? && r.next <= start + 2
  {
    var cur := start + 1;
    match source[start]
    case '(' => Emit(source, start, cur, line, LeftParen, NoLiteral)
    case ')' => Emit(source, start, cur, line, RightParen, NoLiteral)
    case '{' => Emit(source, start, cur, line, LeftBrace, NoLiteral)
    case '}' => Emit(source, start, cur, line, RightBrace, NoLiteral)
    case ',' => Emit(source, start, cur, line, Comma, NoLiteral)
    case '.' => Emit(source, start, cur, line, Dot, NoLiteral)
    case '-' => Emit(source, start, cur, line, Minus, NoLiteral)
    case '+' => Emit(source, start, cur, line, Plus, NoLiteral)
    case ';' => Emit(source, start, cur, line, Semicolon, NoLiteral)
    case '*' => Emit(source, start, cur, line, Star, NoLiteral)
    case '!' =>
      if FollowedByEqual(source, cur) then Emit(source, start, cur + 1, line, BangEqual, NoLiteral)
      else Emit(source, start, cur, line, Bang, NoLiteral)
    case '=' =>
      if FollowedByEqual(source, cur) then Emit(source, start, cur + 1, line, EqualEqual, NoLiteral)
      else Emit(source, start, cur, line, Equal, NoLiteral)
    case '<' =>
      if FollowedByEqual(source, cur) then Emit(source, start, cur + 1, line, LessEqual, NoLiteral)
      else Emit(source, start, cur, line, Less, NoLiteral)
    case '>' =>
      if FollowedByEqual(source, cur) then Emit(source, start, cur + 1, line, GreaterEqual, NoLiteral)
      else Emit(source, start, cur, line, Greater, NoLiteral)
    case '/' =>
      if cur < |source| && source[cur] == '/' then Lexed(SkipWhile(source, cur + 1, NotNewline), line, None, None)
      else Emit(source, start, cur, line, Slash, NoLiteral)
  }

  /** One call of scan_token at `start`. */
  function Step(source: string, start: nat, line: nat): (r: Lexed)
    requires start < |source|
    ensures start < r.next <= |source|
  {
    var cur := start + 1;
    if IsOperatorChar(source[start]) then OperatorStep(source, start, line)
    else
      match source[start]
      case ' ' => Lexed(cur, line, None, None)
      case '\r' => Lexed(cur, line, None, None)
      case '\t' => Lexed(cur, line, None, None)
      case '\n' => Lexed(cur, line + 1, None, None)
      case '"' => StringStep(source, start, line)
      case c =>
        if IsDigit(c) then NumberStep(source, start, line)
        else if IsAlpha(c) then IdentifierStep(source, start, line)
        else Lexed(cur, line, None, Some(ScanError(line, "Unexpected character.")))
  }

  /** What scan_tokens produces from cursor `pos` onwards with line count `line`. */
  datatype Scanned = Scanned(tokens: seq<Token>, errors: seq<ScanError>)

  function ScanFrom(source: string, pos: nat, line: nat): Scanned
    requires pos <= |source|
    decreases |source| - pos
  {
    if pos == |source| then Scanned([Token(Eof, "", NoLiteral, line)], [])
    else
      var s := Step(source, pos, line);
      var rest := ScanFrom(source, s.next, s.line);
      Scanned(OptionToSeq(s.token) + rest.tokens, OptionToSeq(s.error) + rest.errors)
  }

  lemma ScanFromStep(source: string, pos: nat, line: nat)
    requires pos < |source|
    ensures var s := Step(source, pos, line);
      var rest := ScanFrom(source, s.next, s.line);
      ScanFrom(source, pos, line) == Scanned(OptionToSeq(s.token) + rest.tokens, OptionToSeq(s.error) + rest.errors)
  {
  }

  /** What the scanner has pushed so far, followed by what it will push from
      `pos`, is the whole scan. */
  ghost predicate ScanSoFar(source: string, done: seq<Token>, errs: seq<ScanError>, pos: nat, line: nat,
                            allTokens: seq<Token>, allErrors: seq<ScanError>)
  {
    pos <= |source|
    && var rest := ScanFrom(source, pos, line);
       done + rest.tokens == allTokens && errs + rest.errors == allErrors
  }

  lemma ScanSoFarStep(source: string, done: seq<Token>, errs: seq<ScanError>, pos: nat, line: nat,
                      allTokens: seq<Token>, allErrors: seq<ScanError>)
    requires pos < |source| && ScanSoFar(source, done, errs, pos, line, allTokens, allErrors)
    ensures var s := Step(source, pos, line);
      ScanSoFar(source, done + OptionToSeq(s.token), errs + OptionToSeq(s.error), s.next, s.line, allTokens, allErrors)
  {
    var s := Step(source, pos, line);
    var rest := ScanFrom(source, s.next, s.line);
    ScanFromStep(source, pos, line);
    assert done + OptionToSeq(s.token) + rest.tokens == done + (OptionToSeq(s.token) + rest.tokens);
    assert errs + OptionToSeq(s.error) + rest.errors == errs + (OptionToSeq(s.error) + rest.errors);
  }

  lemma ScanSoFarEnd(source: string, done: seq<Token>, errs: seq<ScanError>, pos: nat, line: nat,
                     allTokens: seq<Token>, allErrors: seq<ScanError>)
    requires pos >= |source| && ScanSoFar(source, done, errs, pos, line, allTokens, allErrors)
    ensures done + [Token(Eof, "", NoLiteral, line)] == allTokens && errs == allErrors
  {
    assert errs + [] == errs;
  }

  /** The whole scan of a source text, from a fresh scanner. */
  function Scan(source: string): Scanned
  {
    ScanFrom(source, 0, 1)
  }

  /** The lines the scanner's errors add to the error log. */
  function ErrorLines(errs: seq<ScanError>): seq<string>
  {
    if errs == [] then [] else [ReportText(errs[0].line, "", errs[0].message)] + ErrorLines(errs[1..])
  }

  lemma {:induction false} ErrorLinesAppend(a: seq<ScanError>, b: seq<ScanError>)
    ensures ErrorLines(a + b) == ErrorLines(a) + ErrorLines(b)
    decreases |a|
  {
    if a != [] {
      var ab := a + b;
      assert ab[1..] == a[1..] + b;
      assert ab[0] == a[0];
      ErrorLinesAppend(a[1..], b);
      assert ErrorLines(ab) == [ReportText(a[0].line, "", a[0].message)] + ErrorLines(a[1..] + b);
    } else {
      assert a + b == b;
    }
  }

  // ---------------------------------------------------------------------
  // Properties of the scan.

  /** The token list ends with exactly one EOF token, which has an empty
      lexeme and the final line number: the starting line plus every newline
      in the rest of the source. */
  lemma {:induction false} ScanEndsWithEof(source: string, pos: nat, line: nat)
    requires pos <= |source|
    ensures var ts := ScanFrom(source, pos, line).tokens;
      |ts| > 0
      && ts[|ts| - 1] == Token(Eof, "", NoLiteral, line + CountNewlines(source[pos..]))
      && forall i :: 0 <= i < |ts| - 1 ==> ts[i].kind != Eof
    decreases |source| - pos
  {
    if pos < |source| {
      var s := Step(source, pos, line);
      ScanFromStep(source, pos, line);
      StepLines(source, pos, line);
      StepNeverEof(source, pos, line);
      ScanEndsWithEof(source, s.next, s.line);
      EndsWithEofStep(source, pos, line, s.next, s.line, s.token,
                      ScanFrom(source, s.next, s.line).tokens, ScanFrom(source, pos, line).tokens);
    } else {
      assert source[pos..] == [];
    }
  }

  /** The inductive step of ScanEndsWithEof, stated without the scan itself. */
  lemma EndsWithEofStep(source: string, pos: nat, line: nat, next: nat, line': nat,
                        token: Option<Token>, rest: seq<Token>, total: seq<Token>)
    requires pos < next <= |source| && total == OptionToSeq(token) + rest
    requires line' == line + CountNewlines(source[pos..next])
    requires token.Some? ==> token.value.kind != Eof
    requires |rest| > 0 && rest[|rest| - 1] == Token(Eof, "", NoLiteral, line' + CountNewlines(source[next..]))
    requires forall i :: 0 <= i < |rest| - 1 ==> rest[i].kind != Eof
    ensures |total| > 0
      && total[|total| - 1] == Token(Eof, "", NoLiteral, line + CountNewlines(source[pos..]))
      && forall i :: 0 <= i < |total| - 1 ==> total[i].kind != Eof
  {
    EofOnlyLast(OptionToSeq(token), rest);
    assert source[pos..] == source[pos..next] + source[next..];
    CountNewlinesAppend(source[pos..next], source[next..]);
  }

  /** Prepending tokens that are not EOF keeps EOF last and only last. */
  lemma EofOnlyLast(head: seq<Token>, rest: seq<Token>)
    requires |rest| > 0 && forall i :: 0 <= i < |rest| - 1 ==> rest[i].kind != Eof
    requires forall i :: 0 <= i < |head| ==> head[i].kind != Eof
    ensures var ts := head + rest;
      ts[|ts| - 1] == rest[|rest| - 1] && forall i :: 0 <= i < |ts| - 1 ==> ts[i].kind != Eof
  {
    var ts := head + rest;
    assert forall i :: |head| <= i < |ts| ==> ts[i] == rest[i - |head|];
  }

  lemma ScanOfSourceEndsWithEof(source: string)
    ensures var ts := Scan(source).tokens;
      |ts| > 0 && ts[|ts| - 1] == Token(Eof, "", NoLiteral, 1 + CountNewlines(source))
      && forall i :: 0 <= i < |ts| - 1 ==> ts[i].kind != Eof
  {
    ScanEndsWithEof(source, 0, 1);
    assert source[0..] == source;
  }

  /** scan_token never adds an EOF token. */
  lemma StepNeverEof(source: string, start: nat, line: nat)
    requires start < |source|
    ensures var s := Step(source, start, line); s.token.Some? ==> s.token.value.kind != Eof
  {
  }

  /** The line counter rises by exactly one per newline consumed, including
      the newlines inside a string literal. */
  lemma StepLines(source: string, start: nat, line: nat)
    requires start < |source|
    ensures var s := Step(source, start, line);
      s.line == line + CountNewlines(source[start..s.next])
  {
    var s := Step(source, start, line);
    var c := source[start];
    if c == '"' {
      StringStepLines(source, start, line);
    } else if c == '\n' {
      assert source[start..s.next] == [c];
      assert [c][..0] == [];
    } else {
      StepNoNewline(source, start, line);
      CountNewlinesNone(source[start..s.next]);
    }
  }

  lemma StepNoNewline(source: string, start: nat, line: nat)
    requires start < |source| && source[start] != '"' && source[start] != '\n'
    ensures var s := Step(source, start, line);
      s.line == line && forall k :: start <= k < s.next ==> source[k] != '\n'
  {
  }

  lemma StringStepLines(source: string, start: nat, line: nat)
    requires start < |source| && source[start] == '"'
    ensures var s := StringStep(source, start, line);
      s.line == line + CountNewlines(source[start..s.next])
  {
    var c := source[start];
    var j := SkipWhile(source, start + 1, NotQuote);
    assert source[start..j] == [c] + source[start + 1..j];
    CountNewlinesAppend([c], source[start + 1..j]);
    assert CountNewlines([c]) == 0 by { assert [c][..0] == []; }
    if j < |source| {
      assert source[start..j + 1] == source[start..j] + [source[j]];
      CountNewlinesAppend(source[start..j], [source[j]]);
      assert CountNewlines([source[j]]) == 0 by { assert [source[j]][..0] == []; }
    }
  }

  /** Every token's lexeme is exactly the text consumed for it. */
  lemma StepLexeme(source: string, start: nat, line: nat)
    requires start < |source|
    ensures var s := Step(source, start, line);
      s.token.Some? ==> s.token.value.lexeme == source[start..s.next]
  {
  }

  /** `!`, `=`, `<`, `>` make the two-character token exactly when followed by `=`. */
  lemma TwoCharOperators(source: string, start: nat, line: nat)
    requires start < |source| && source[start] in "!=<>"
    ensures var s := Step(source, start, line);
      var two := start + 1 < |source| && source[start + 1] == '=';
      s.error.None? && s.token.Some? && s.next == (if two then start + 2 else start + 1)
      && s.token.value.kind ==
         (match source[start]
          case '!' => if two then BangEqual else Bang
          case '=' => if two then EqualEqual else Equal
          case '<' => if two then LessEqual else Less
          case _ => if two then GreaterEqual else Greater)
  {
  }

  /** `//` skips up to (not including) the next newline and adds no token;
      a lone `/` adds SLASH. */
  lemma Comments(source: string, start: nat, line: nat)
    requires start < |source| && source[start] == '/'
    ensures var s := Step(source, start, line);
      if start + 1 < |source| && source[start + 1] == '/' then
        s.token.None? && s.error.None? && s.line == line
        && (s.next == |source| || source[s.next] == '\n')
        && forall k :: start <= k < s.next ==> source[k] != '\n'
      else
        s.token == Some(Token(Slash, "/", NoLiteral, line)) && s.next == start + 1
  {
    var s := Step(source, start, line);
    if !(start + 1 < |source| && source[start + 1] == '/') {
      assert source[start..start + 1] == "/";
    }
  }

  /** A string token's literal is the text strictly between the quotes, which
      holds no quote; an unterminated string reports an error and adds nothing. */
  lemma Strings(source: string, start: nat, line: nat)
    requires start < |source| && source[start] == '"'
    ensures var s := Step(source, start, line);
      if forall k :: start < k < |source| ==> source[k] != '"' then
        s.token.None? && s.next == |source|
        && s.error == Some(ScanError(s.line, "Unterminated string."))
      else
        s.error.None? && s.token.Some? && s.token.value.kind == String
        && source[s.next - 1] == '"'
        && s.token.value.literal == StringLiteral(source[start + 1..s.next - 1])
        && forall k :: start < k < s.next - 1 ==> source[k] != '"'
  {
  }

  /** A number is a run of digits, with a fractional part only when '.' is
      followed by a digit, so a trailing '.' is left for the next token. */
  lemma Numbers(source: string, start: nat, line: nat)
    requires start < |source| && IsDigit(source[start])
    ensures var s := Step(source, start, line);
      var text := source[start..s.next];
      s.token == Some(Token(Number, text, NumberLiteral(text), line))
      && (s.next == |source| || !IsDigit(source[s.next]))
      && (forall k :: 0 <= k < |text| ==> IsDigit(text[k]) || text[k] == '.')
      && (forall k1, k2 :: 0 <= k1 < |text| && 0 <= k2 < |text| && text[k1] == '.' && text[k2] == '.' ==> k1 == k2)
      && IsDigit(text[0]) && IsDigit(text[|text| - 1])
      && ((forall k :: 0 <= k < |text| ==> text[k] != '.') ==>
            !(s.next + 1 < |source| && source[s.next] == '.' && IsDigit(source[s.next + 1])))
  {
  }

  /** An identifier is the maximal run of letters, digits and `_`; an exact
      reserved word gets its keyword kind and everything else IDENTIFIER. */
  lemma Identifiers(source: string, start: nat, line: nat)
    requires start < |source| && IsAlpha(source[start])
    ensures var s := Step(source, start, line);
      var text := source[start..s.next];
      s.token.Some? && s.token.value.lexeme == text
      && (forall k :: start <= k < s.next ==> IsAlphaNumeric(source[k]))
      && (s.next == |source| || !IsAlphaNumeric(source[s.next]))
      && (text in Keywords <==> s.token.value.kind != Identifier)
      && (text in Keywords ==> s.token.value.kind == Keywords[text])
  {
  }

  // ---------------------------------------------------------------------
  // The scanner object.

  class Scanner {
    const source: string
    const reporter: Reporter
    var tokens: seq<Token>
    var start: nat
    var current: nat
    var line: nat

    ghost predicate Valid()
      reads this
    {
      start <= current <= |source|
    }

    constructor (source: string, reporter: Reporter)
      ensures Valid()
      ensures this.source == source && this.reporter == reporter
      ensures tokens == [] && start == 0 && current == 0 && line == 1
    {
      this.source := source;
      this.reporter := reporter;
      tokens, start, current, line := [], 0, 0, 1;
    }

    /** scan_tokens: scans what is left of the source, then adds the EOF token. */
    method ScanTokens() returns (result: seq<Token>)
      requires Valid()
      modifies this, reporter
      ensures Valid()
      ensures var r := ScanFrom(source, old(current), old(line));
        result == tokens == old(tokens) + r.tokens
        && reporter.log == old(reporter.log) + ErrorLines(r.errors)
        && reporter.hadError == (old(reporter.hadError) || r.errors != [])
        && reporter.hadRuntimeError == old(reporter.hadRuntimeError)
    {
      ghost var errs: seq<ScanError> := [];
      ghost var goal := ScanFrom(source, current, line);
      while current < |source|
        invariant Valid()
        invariant ScanSoFar(source, tokens, errs, current, line, old(tokens) + goal.tokens, goal.errors)
        invariant reporter.log == old(reporter.log) + ErrorLines(errs)
        invariant reporter.hadError == (old(reporter.hadError) || errs != [])
        invariant reporter.hadRuntimeError == old(reporter.hadRuntimeError)
        decreases |source| - current
      {
        // We are at the beginning of the next lexeme.
        start := current;
        ghost var s := Step(source, current, line);
        ScanSoFarStep(source, tokens, errs, current, line, old(tokens) + goal.tokens, goal.errors);
        ScanToken();
        ErrorLinesAppend(errs, OptionToSeq(s.error));
        errs := errs + OptionToSeq(s.error);
      }
      ScanSoFarEnd(source, tokens, errs, current, line, old(tokens) + goal.tokens, goal.errors);
      tokens := tokens + [Token(Eof, "", NoLiteral, line)];
      result := tokens;
    }

    /** scan_token: consumes one lexeme starting at `start`. */
    method ScanToken()
      requires Valid() && start == current < |source|
      modifies this, reporter
      ensures Valid() && start == old(start)
      ensures var s := Step(source, old(current), old(line));
        current == s.next && line == s.line
        && tokens == old(tokens) + OptionToSeq(s.token)
        && reporter.log == old(reporter.log) + ErrorLines(OptionToSeq(s.error))
        && reporter.hadError == (old(reporter.hadError) || s.error.Some?)
        && reporter.hadRuntimeError == old(reporter.hadRuntimeError)
    {
      var c := Advance();
      if IsOperatorChar(c) {
        ScanOperator(c);
        return;
      }
      match c
      case ' ' =>
      case '\r' =>
      case '\t' =>
      case '\n' => line := line + 1;
      case '"' => ScanString();
      case _ =>
        if IsDigit(c) {
          ScanNumber();
        } else if IsAlpha(c) {
          ScanIdentifier();
        } else {
          reporter.Error("Unexpected character.", AtLine(line));
        }
    }

    /** The punctuation and operator cases of scan_token. */
    method ScanOperator(c: char)
      requires Valid() && start < current == start + 1 <= |source| && c == source[start] && IsOperatorChar(c)
      modifies this`current, this`tokens
      ensures Valid() && start == old(start)
      ensures var s := OperatorStep(source, start, line);
        current == s.next && tokens == old(tokens) + OptionToSeq(s.token) && s.error.None?
    {
      match c
      case '(' => AddToken(LeftParen, NoLiteral);
      case ')' => AddToken(RightParen, NoLiteral);
      case '{' => AddToken(LeftBrace, NoLiteral);
      case '}' => AddToken(RightBrace, NoLiteral);
      case ',' => AddToken(Comma, NoLiteral);
      case '.' => AddToken(Dot, NoLiteral);
      case '-' => AddToken(Minus, NoLiteral);
      case '+' => AddToken(Plus, NoLiteral);
      case ';' => AddToken(Semicolon, NoLiteral);
      case '*' => AddToken(Star, NoLiteral);
      case '!' => ScanEqualSuffixed(c);
      case '=' => ScanEqualSuffixed(c);
      case '<' => ScanEqualSuffixed(c);
      case '>' => ScanEqualSuffixed(c);
      case '/' => ScanSlash();
    }

    /** `!`, `=`, `<` and `>`, with `match?('=')` choosing the two-character kind. */
    method ScanEqualSuffixed(c: char)
      requires Valid() && start < current == start + 1 <= |source| && c == source[start] && c in "!=<>"
      modifies this`current, this`tokens
      ensures Valid() && start == old(start)
      ensures var s := OperatorStep(source, start, line);
        current == s.next && tokens == old(tokens) + OptionToSeq(s.token) && s.error.None?
    {
      var two := Match('=');
      var kind :=
        match c
        case '!' => if two then BangEqual else Bang
        case '=' => if two then EqualEqual else Equal
        case '<' => if two then LessEqual else Less
        case _ => if two then GreaterEqual else Greater;
      AddToken(kind, NoLiteral);
    }

    /** `/`: a comment up to the end of the line, or SLASH. */
    method ScanSlash()
      requires Valid() && start < current == start + 1 <= |source| && source[start] == '/'
      modifies this`current, this`tokens
      ensures Valid() && start == old(start)
      ensures var s := OperatorStep(source, start, line);
        current == s.next && tokens == old(tokens) + OptionToSeq(s.token) && s.error.None?
    {
      var comment := Match('/');
      if comment {
        // Ignore comments.
        SkipComment();
      } else {
        AddToken(Slash, NoLiteral);
      }
    }

    method Advance() returns (c: char)
      requires Valid() && current < |source|
      modifies this`current
      ensures Valid() && current == old(current) + 1 && c == source[old(current)]
    {
      c := source[current];
      current := current + 1;
    }

    method AddToken(kind: TokenType, literal: TokenLiteral)
      requires Valid()
      modifies this`tokens
      ensures tokens == old(tokens) + [Token(kind, source[start..current], literal, line)]
    {
      var text := source[start..current];
      tokens := tokens + [Token(kind, text, literal, line)];
    }

    /** match?: consumes `expected` when it is the next character. */
    method Match(expected: char) returns (matched: bool)
      requires Valid()
      modifies this`current
      ensures Valid()
      ensures matched == (old(current) < |source| && source[old(current)] == expected)
      ensures current == if matched then old(current) + 1 else old(current)
    {
      if current >= |source| {
        return false;
      }
      if source[current] != expected {
        return false;
      }
      current := current + 1;
      matched := true;
    }

    /** peek: the next character, or NUL at the end. */
    method Peek() returns (c: char)
      requires Valid()
      ensures c == if current < |source| then source[current] else '\0'
    {
      if current >= |source| {
        return '\0';
      }
      c := source[current];
    }

    /** peek_next: the character after the next one, or NUL past the end. */
    method PeekNext() returns (c: char)
      requires Valid()
      ensures c == if current + 1 < |source| then source[current + 1] else '\0'
    {
      if current + 1 >= |source| {
        return '\0';
      }
      c := source[current + 1];
    }

    method SkipComment()
      requires Valid()
      modifies this`current
      ensures Valid() && current == SkipWhile(source, old(current), NotNewline)
    {
      ghost var goal := SkipWhile(source, current, NotNewline);
      while true
        invariant Valid() && SkipWhile(source, current, NotNewline) == goal
        decreases |source| - current
      {
        var c := Peek();
        if c == '\n' || current >= |source| {
          break;
        }
        var _ := Advance();
      }
    }

    method ScanString()
      requires Valid() && start < current == start + 1 <= |source| && source[start] == '"'
      modifies this, reporter
      ensures Valid() && start == old(start)
      ensures var s := StringStep(source, start, old(line));
        current == s.next && line == s.line
        && tokens == old(tokens) + OptionToSeq(s.token)
        && reporter.log == old(reporter.log) + ErrorLines(OptionToSeq(s.error))
        && reporter.hadError == (old(reporter.hadError) || s.error.Some?)
        && reporter.hadRuntimeError == old(reporter.hadRuntimeError)
    {
      SkipStringBody();

      if current >= |source| {
        reporter.Error("Unterminated string.", AtLine(line));
        return;
      }

      // The closing ".
      var _ := Advance();

      // Trim the surrounding quotes.
      var value := source[start + 1..current - 1];
      AddToken(String, StringLiteral(value));
    }

    /** The loop of `string`: up to the closing quote, counting newlines. */
    method SkipStringBody()
      requires Valid() && start < current
      modifies this`current, this`line
      ensures Valid() && current == SkipWhile(source, old(current), NotQuote)
      ensures line == old(line) + CountNewlines(source[old(current)..current])
    {
      ghost var from := current;
      ghost var goal := SkipWhile(source, current, NotQuote);
      while true
        invariant Valid() && from <= current
        invariant SkipWhile(source, current, NotQuote) == goal
        invariant line == old(line) + CountNewlines(source[from..current])
        decreases |source| - current
      {
        var c := Peek();
        if c == '"' || current >= |source| {
          break;
        }
        if c == '\n' {
          line := line + 1;
        }
        var _ := Advance();
        assert c == source[current - 1];
        assert source[from..current] == source[from..current - 1] + [c];
        CountNewlinesAppend(source[from..current - 1], [c]);
        assert [c][..0] == [];
      }
    }

    method ScanDigits()
      requires Valid()
      modifies this`current
      ensures Valid() && current == SkipWhile(source, old(current), IsDigit)
    {
      ghost var goal := SkipWhile(source, current, IsDigit);
      while true
        invariant Valid() && SkipWhile(source, current, IsDigit) == goal
        decreases |source| - current
      {
        var c := Peek();
        if !IsDigit(c) {
          break;
        }
        var _ := Advance();
      }
    }

    method ScanNumber()
      requires Valid() && start < current == start + 1 <= |source|
      modifies this`current, this`tokens
      ensures Valid()
      ensures var s := NumberStep(source, start, line);
        current == s.next && tokens == old(tokens) + OptionToSeq(s.token)
    {
      ScanDigits();

      // Look for a fractional part.
      var c := Peek();
      var d := PeekNext();
      if c == '.' && IsDigit(d) {
        // Consume the ".".
        var _ := Advance();
        ScanDigits();
      }

      AddToken(Number, NumberLiteral(source[start..current]));
    }

    method ScanIdentifier()
      requires Valid() && start < current == start + 1 <= |source|
      modifies this`current, this`tokens
      ensures Valid()
      ensures var s := IdentifierStep(source, start, line);
        current == s.next && tokens == old(tokens) + OptionToSeq(s.token)
    {
      ghost var goal := SkipWhile(source, current, IsAlphaNumeric);
      while true
        invariant Valid() && start < current && SkipWhile(source, current, IsAlphaNumeric) == goal
        invariant tokens == old(tokens)
        decreases |source| - current
      {
        var c := Peek();
        if !IsAlphaNumeric(c) {
          break;
        }
        var _ := Advance();
      }

      assert current == goal;
      var text := source[start..current];
      var kind := KeywordOrIdentifier(text);
      AddToken(kind, NoLiteral);
    }
  }
}
