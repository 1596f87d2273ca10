/** The scanner of bin/scanner.js: the characters of a source text become tokens, one
    `scanToken` step at a time, ending with an end-of-file token. The pure functions
    below say what one step and a whole scan produce; the class `Scanner` performs the
    same scan by updating its fields, and each of its methods is proved to agree with
    those functions. */
module Scanning {
  import opened Wrappers
  import opened Tokens

  // ---------------------------------------------------------------------------
  // Character classes

  predicate IsDigit(c: char) { '0' <= c <= '9' }

  predicate IsAlpha(c: char) { ('a' <= c <= 'z') || ('A' <= c <= 'Z') || c == '_' }

  predicate IsAlphaNumeric(c: char) { IsAlpha(c) || IsDigit(c) }

  predicate NotNewline(c: char) { c != '\n' }

  predicate NotQuote(c: char) { c != '"' }

  /** The reserved words. `break` has a token kind but no entry, so it scans as an
      identifier. */
  const Keywords: map<string, TokenType> := map[
    "and" := And, "class" := Class, "else" := Else, "false" := False,
    "for" := For, "fun" := Fun, "if" := If, "nil" := Nil,
    "or" := Or, "print" := Print, "return" := Return, "super" := Super,
    "this" := This, "true" := True, "var" := Var, "while" := While]

  /** The kind of a token that is always one character long. */
  function SingleCharKind(c: char): Option<TokenType>
  {
    match c
    case '(' => Some(LeftParen)
    case ')' => Some(RightParen)
    case '{' => Some(LeftBrace)
    case '}' => Some(RightBrace)
    case ',' => Some(Comma)
    case '.' => Some(Dot)
    case '-' => Some(Minus)
    case '+' => Some(Plus)
    case ';' => Some(Semicolon)
    case '*' => Some(Star)
    case _ => None
  }

  /** For a character that may be followed by `=`: the kind alone and the kind with `=`. */
  function PairKind(c: char): Option<(TokenType, TokenType)>
  {
    match c
    case '!' => Some((Bang, BangEqual))
    case '=' => Some((Equal, EqualEqual))
    case '<' => Some((Less, LessEqual))
    case '>' => Some((Greater, GreaterEqual))
    case _ => None
  }

  /** The case of `scanToken` that a first character selects. */
  datatype CharClass =
    | Single(kind: TokenType)
    | Pair(alone: TokenType, withEqual: TokenType)
    | SlashOrComment
    | Blank
    | LineBreak
    | Quote
    | DigitStart
    | WordStart
    | Other

  function Classify(c: char): CharClass
  {
    if SingleCharKind(c).Some? then Single(SingleCharKind(c).value)
    else if PairKind(c).Some? then Pair(PairKind(c).value.0, PairKind(c).value.1)
    else if c == '/' then SlashOrComment
    else if c == ' ' || c == '\r' || c == '\t' then Blank
    else if c == '\n' then LineBreak
    else if c == '"' then Quote
    else if IsDigit(c) then DigitStart
    else if IsAlpha(c) then WordStart
    else Other
  }

  /** A character no case of `scanToken` accepts. */
  predicate Unexpected(c: char)
  {
    Classify(c) == Other
  }

  // ---------------------------------------------------------------------------
  // Runs of characters, line counts and the value of a digit string

  /** The end of the longest run of characters satisfying `inRun` that starts at `i`. */
  function RunEnd(src: string, i: nat, inRun: char -> bool): (j: nat)
    requires i <= |src|
    ensures i <= j <= |src|
    ensures forall k :: i <= k < j ==> inRun(src[k])
    ensures j == |src| || !inRun(src[j])
    decreases |src| - i
  {
    if i < |src| && inRun(src[i]) then RunEnd(src, i + 1, inRun) else i
  }

  /** A run is determined by where it stops. */
  lemma {:induction false} RunEndExact(src: string, i: nat, j: nat, inRun: char -> bool)
    requires i <= j <= |src|
    requires forall k :: i <= k < j ==> inRun(src[k])
    requires j == |src| || !inRun(src[j])
    ensures RunEnd(src, i, inRun) == j
    decreases j - i
  {
    if i < j {
      RunEndExact(src, i + 1, j, inRun);
    }
  }

  /** The number of line breaks in `s`. */
  function NewlinesIn(s: string): nat
  {
    multiset(s)['\n']
  }

  predicate AllDigits(s: string)
  {
    forall k :: 0 <= k < |s| ==> IsDigit(s[k])
  }

  /** The number a string of decimal digits denotes (`parseFloat` of an integer text). */
  function DigitsValue(s: string): nat
    requires AllDigits(s)
  {
    if s == [] then 0 else DigitsValue(s[..|s| - 1]) * 10 + (s[|s| - 1] as int - '0' as int)
  }

  /** Reading back a number's decimal text gives the number. */
  lemma {:induction false} DigitsValueOfNatText(n: nat)
    ensures AllDigits(NatText(n))
    ensures DigitsValue(NatText(n)) == n
    decreases n
  {
    var s := NatText(n);
    if n >= 10 {
      DigitsValueOfNatText(n / 10);
      assert s[..|s| - 1] == NatText(n / 10);
    }
  }

  /** A digit string with a non-zero first digit has a non-zero value. */
  lemma {:induction false} DigitsValuePositive(s: string)
    requires AllDigits(s) && |s| > 0 && s[0] != '0'
    ensures DigitsValue(s) > 0
    decreases |s|
  {
    if |s| > 1 {
      DigitsValuePositive(s[..|s| - 1]);
    }
  }

  /** The decimal text of a digit string's value is the string itself, unless the
      string has a redundant leading zero. */
  lemma {:induction false} NatTextOfDigitsValue(s: string)
    requires AllDigits(s) && |s| > 0
    requires s[0] == '0' ==> |s| == 1
    ensures NatText(DigitsValue(s)) == s
    decreases |s|
  {
    var p := s[..|s| - 1];
    var d := s[|s| - 1] as int - '0' as int;
    if |s| > 1 {
      NatTextOfDigitsValue(p);
      DigitsValuePositive(p);
      var n := DigitsValue(s);
      assert n == DigitsValue(p) * 10 + d;
      assert n / 10 == DigitsValue(p) && n % 10 == d;
      assert s == p + [s[|s| - 1]];
    }
  }

  // ---------------------------------------------------------------------------
  // One step of the scan

  /** What `report` is given. */
  datatype ScanError = ScanError(line: nat, message: string)

  /** The outcome of one `scanToken` call begun at `start` on line `line`: where the
      next token starts, the line reached, the token added and the error reported.
      `Threw` is a JavaScript exception escaping from the step. */
  datatype Step =
    | Scanned(next: nat, line: nat, token: Option<Token>, error: Option<ScanError>)
    | Threw

  /** `addToken`: a token whose lexeme is the text from `start` to `next`. */
  function Emit(src: string, start: nat, next: nat, kind: TokenType, literal: Value, line: nat): (r: Step)
    requires start <= next <= |src|
    ensures r.Scanned? && r.next == next
  {
    Scanned(next, line, Some(Token(kind, src[start..next], literal, line)), None)
  }

  /** A one- or two-character operator, or `!`, `=`, `<`, `>` followed by `=`. */
  function OperatorStep(src: string, start: nat, alone: TokenType, withEqual: TokenType, line: nat): (r: Step)
    requires start < |src|
    ensures r.Scanned? && start < r.next <= |src|
  {
    var two := start + 1 < |src| && src[start + 1] == '=';
    Emit(src, start, if two then start + 2 else start + 1, if two then withEqual else alone, Undefined, line)
  }

  /** `/` alone, or a comment running to the end of the line (the line break is left
      for the next step). */
  function SlashStep(src: string, start: nat, line: nat): (r: Step)
    requires start < |src|
    ensures r.Scanned? && start < r.next <= |src|
  {
    if start + 1 < |src| && src[start + 1] == '/' then Scanned(RunEnd(src, start + 2, NotNewline), line, None, None)
    else Emit(src, start, start + 1, Slash, Undefined, line)
  }

  /** `string`: the text up to the closing quote, which may span lines; the token is on
      the line of the closing quote. */
  function StringStep(src: string, start: nat, line: nat): (r: Step)
    requires start < |src|
    ensures r.Scanned? && start < r.next <= |src|
  {
    var close := RunEnd(src, start + 1, NotQuote);
    var reached := line + NewlinesIn(src[start + 1..close]);
    if close == |src| then Scanned(close, reached, None, Some(ScanError(reached, "Unterminated string.")))
    else Emit(src, start, close + 1, String, Str(src[start + 1..close]), reached)
  }

  /** `number`: a run of digits. A `.` right after the digits makes the source call a
      `peekNext` that is not in scope, which throws. */
  function NumberStep(src: string, start: nat, line: nat): (r: Step)
    requires start < |src| && IsDigit(src[start])
    ensures r.Scanned? ==> start < r.next <= |src|
  {
    var stop := RunEnd(src, start + 1, IsDigit);
    if stop < |src| && src[stop] == '.' then Threw
    else Emit(src, start, stop, Number, Num(DigitsValue(src[start..stop])), line)
  }

  /** The kind of a scanned word: the keyword the table names, or an identifier. */
  function WordKind(text: string): (k: TokenType)
    ensures k != Eof
  {
    if text in Keywords then Keywords[text] else Identifier
  }

  /** `identifier`: a run of letters, digits and underscores. */
  function WordStep(src: string, start: nat, line: nat): (r: Step)
    requires start < |src|
    ensures r.Scanned? && start < r.next <= |src|
  {
    var stop := RunEnd(src, start + 1, IsAlphaNumeric);
    Emit(src, start, stop, WordKind(src[start..stop]), Undefined, line)
  }

  /** `scanToken` begun at `start`, with an unexpected character reported on the
      current line and skipped. */
  function ScanStep(src: string, start: nat, line: nat): (r: Step)
    requires start < |src|
    ensures r.Scanned? ==> start < r.next <= |src|
  {
    match Classify(src[start])
    case Single(kind) => Emit(src, start, start + 1, kind, Undefined, line)
    case Pair(alone, withEqual) => OperatorStep(src, start, alone, withEqual, line)
    case SlashOrComment => SlashStep(src, start, line)
    case Blank => Scanned(start + 1, line, None, None)
    case LineBreak => Scanned(start + 1, line + 1, None, None)
    case Quote => StringStep(src, start, line)
    case DigitStart => NumberStep(src, start, line)
    case WordStart => WordStep(src, start, line)
    case Other => Scanned(start + 1, line, None, Some(ScanError(line, "Unexpected character " + [src[start]] + ".")))
  }

  /** What every completed step satisfies: the line advances by the line breaks in the
      consumed text, a token's lexeme is exactly that text and the token is on the line
      reached, never an end-of-file token, and an error comes without a token. */
  ghost predicate Consumes(src: string, start: nat, line: nat, r: Step)
    requires start < |src|
  {
    r.Scanned? ==>
      && start < r.next <= |src|
      && r.line == line + NewlinesIn(src[start..r.next])
      && (r.token.Some? ==> r.token.value.lexeme == src[start..r.next]
                            && r.token.value.line == r.line && r.token.value.kind != Eof)
      && (r.error.Some? ==> r.error.value.line == r.line && r.token.None?)
  }

  lemma NoNewlines(s: string)
    requires forall k :: 0 <= k < |s| ==> s[k] != '\n'
    ensures NewlinesIn(s) == 0
  {
    assert '\n' !in s;
  }

  lemma StringConsumes(src: string, start: nat, line: nat)
    requires start < |src| && src[start] == '"'
    ensures Consumes(src, start, line, StringStep(src, start, line))
  {
    var close := RunEnd(src, start + 1, NotQuote);
    QuotedNewlines(src, start, close);
  }

  /** The quotes around a string literal hold no newline. */
  lemma QuotedNewlines(src: string, start: nat, close: nat)
    requires start < close <= |src| && src[start] == '"'
    ensures NewlinesIn(src[start..close]) == NewlinesIn(src[start + 1..close])
    ensures close < |src| && src[close] == '"' ==>
      NewlinesIn(src[start..close + 1]) == NewlinesIn(src[start + 1..close])
  {
    var inner := src[start + 1..close];
    assert src[start..close] == [src[start]] + inner;
    NewlinesConcat([src[start]], inner);
    NoNewlines([src[start]]);
    if close < |src| && src[close] == '"' {
      assert src[start..close + 1] == src[start..close] + [src[close]];
      NewlinesConcat(src[start..close], [src[close]]);
      NoNewlines([src[close]]);
    }
  }

  lemma NewlinesConcat(a: string, b: string)
    ensures NewlinesIn(a + b) == NewlinesIn(a) + NewlinesIn(b)
  {
    assert multiset(a + b) == multiset(a) + multiset(b);
  }

  lemma RunConsumes(src: string, start: nat, inRun: char -> bool)
    requires start < |src| && src[start] != '\n'
    requires forall c :: inRun(c) ==> c != '\n'
    ensures NewlinesIn(src[start..RunEnd(src, start + 1, inRun)]) == 0
  {
    NoNewlines(src[start..RunEnd(src, start + 1, inRun)]);
  }

  lemma SlashConsumes(src: string, start: nat, line: nat)
    requires start < |src| && src[start] == '/'
    ensures Consumes(src, start, line, SlashStep(src, start, line))
  {
    if start + 1 < |src| && src[start + 1] == '/' {
      NoNewlines(src[start..RunEnd(src, start + 2, NotNewline)]);
    } else {
      NoNewlines(src[start..start + 1]);
    }
  }

  /** Every step satisfies `Consumes`. */
  lemma ScanStepConsumes(src: string, start: nat, line: nat)
    requires start < |src|
    ensures Consumes(src, start, line, ScanStep(src, start, line))
  {
    match Classify(src[start])
    case Single(kind) =>
      assert kind != Eof;
      NoNewlines(src[start..start + 1]);
    case Pair(alone, withEqual) =>
      assert alone != Eof && withEqual != Eof;
      NoNewlines(src[start..OperatorStep(src, start, alone, withEqual, line).next]);
    case SlashOrComment => SlashConsumes(src, start, line);
    case Blank => NoNewlines(src[start..start + 1]);
    case LineBreak => assert src[start..start + 1] == ['\n'];
    case Quote => StringConsumes(src, start, line);
    case DigitStart => RunConsumes(src, start, IsDigit);
    case WordStart => RunConsumes(src, start, IsAlphaNumeric);
    case Other => NoNewlines(src[start..start + 1]);
  }

  /** `scanToken` exactly as written: its report of an unexpected character reads a
      variable `line` that is not in scope, so that case throws. */
  function ScanStepAsWritten(src: string, start: nat, line: nat): Step
    requires start < |src|
  {
    if Unexpected(src[start]) then Threw else ScanStep(src, start, line)
  }

  // ---------------------------------------------------------------------------
  // The whole scan

  /** The tokens returned and the errors reported, or a JavaScript exception. */
  datatype Outcome = Complete(tokens: seq<Token>, errors: seq<ScanError>) | Thrown

  function Listed<T>(o: Option<T>): seq<T>
  {
    if o.Some? then [o.value] else []
  }

  /** `tokens` and `errors` already gathered, followed by the outcome of the rest. */
  function Prepend(tokens: seq<Token>, errors: seq<ScanError>, rest: Outcome): Outcome
  {
    match rest
    case Thrown => Thrown
    case Complete(ts, es) => Complete(tokens + ts, errors + es)
  }

  /** The `scanTokens` loop from `current` on line `line` to the end of the source. */
  function ScanFrom(src: string, current: nat, line: nat): Outcome
    requires current <= |src|
    decreases |src| - current
  {
    if current >= |src| then Complete([Token(Eof, "", Undefined, line)], [])
    else match ScanStep(src, current, line)
      case Threw => Thrown
      case Scanned(next, reached, token, error) =>
        Prepend(Listed(token), Listed(error), ScanFrom(src, next, reached))
  }

  /** `scanTokens` on a fresh scanner. */
  function ScanTokens(src: string): Outcome
  {
    ScanFrom(src, 0, 1)
  }

  /** A completed scan ends with exactly one end-of-file token, with an empty lexeme, on
      the line reached after every line break of the text that was scanned. */
  lemma {:induction false} ScanFromEndsWithEof(src: string, current: nat, line: nat)
    requires current <= |src|
    ensures var r := ScanFrom(src, current, line);
      r.Complete? ==>
        && |r.tokens| > 0
        && r.tokens[|r.tokens| - 1] == Token(Eof, "", Undefined, line + NewlinesIn(src[current..]))
        && forall k :: 0 <= k < |r.tokens| - 1 ==> r.tokens[k].kind != Eof
    decreases |src| - current, 1
  {
    if current < |src| && ScanStep(src, current, line).Scanned? {
      EndsWithEofStep(src, current, line);
    }
  }

  /** The step of `ScanFromEndsWithEof` for a step that does not throw. */
  lemma EndsWithEofStep(src: string, current: nat, line: nat)
    requires current < |src| && ScanStep(src, current, line).Scanned?
    ensures var r := ScanFrom(src, current, line);
      r.Complete? ==>
        && |r.tokens| > 0
        && r.tokens[|r.tokens| - 1] == Token(Eof, "", Undefined, line + NewlinesIn(src[current..]))
        && forall k :: 0 <= k < |r.tokens| - 1 ==> r.tokens[k].kind != Eof
    decreases |src| - current, 0
  {
    var s := ScanStep(src, current, line);
    ScanStepConsumes(src, current, line);
    ScanFromEndsWithEof(src, s.next, s.line);
    assert src[current..] == src[current..s.next] + src[s.next..];
    NewlinesConcat(src[current..s.next], src[s.next..]);
    PrependKeepsLast(Listed(s.token), Listed(s.error), ScanFrom(src, s.next, s.line));
  }

  /** Tokens other than end-of-file put in front of a completed scan keep its last
      token last, and no other token is end-of-file. */
  lemma PrependKeepsLast(tokens: seq<Token>, errors: seq<ScanError>, rest: Outcome)
    requires forall k :: 0 <= k < |tokens| ==> tokens[k].kind != Eof
    requires rest.Complete? ==>
      |rest.tokens| > 0 && forall k :: 0 <= k < |rest.tokens| - 1 ==> rest.tokens[k].kind != Eof
    ensures var r := Prepend(tokens, errors, rest);
      r.Complete? ==>
        && |r.tokens| > 0 && r.tokens[|r.tokens| - 1] == rest.tokens[|rest.tokens| - 1]
        && forall k :: 0 <= k < |r.tokens| - 1 ==> r.tokens[k].kind != Eof
  {
  }

  /** The tokens of a completed scan are in line order, none before the line the scan
      began on. */
  lemma {:induction false} ScanFromLinesOrdered(src: string, current: nat, line: nat)
    requires current <= |src|
    ensures var r := ScanFrom(src, current, line);
      r.Complete? ==>
        && (forall k :: 0 <= k < |r.tokens| ==> line <= r.tokens[k].line)
        && (forall k, m :: 0 <= k < m < |r.tokens| ==> r.tokens[k].line <= r.tokens[m].line)
    decreases |src| - current
  {
    if current < |src| {
      var s := ScanStep(src, current, line);
      if s.Scanned? {
        ScanStepConsumes(src, current, line);
        ScanFromLinesOrdered(src, s.next, s.line);
      }
    }
  }

  /** A step throws only on a run of digits followed by `.`. */
  lemma StepThrowsOnlyAtFraction(src: string, start: nat, line: nat)
    requires start < |src| && ScanStep(src, start, line).Threw?
    ensures IsDigit(src[start])
    ensures var stop := RunEnd(src, start + 1, IsDigit); stop < |src| && src[stop] == '.'
  {
  }

  /** A text without `.` after the scan position is scanned to the end without an
      exception. */
  lemma {:induction false} ScanWithoutDotCompletes(src: string, current: nat, line: nat)
    requires current <= |src|
    requires forall k :: current <= k < |src| ==> src[k] != '.'
    ensures ScanFrom(src, current, line).Complete?
    decreases |src| - current
  {
    if current < |src| {
      var s := ScanStep(src, current, line);
      if s.Threw? {
        StepThrowsOnlyAtFraction(src, current, line);
        assert false;
      } else {
        ScanWithoutDotCompletes(src, s.next, s.line);
      }
    }
  }

  /** The end-of-file token of a whole scan is on line one plus the number of line
      breaks in the source. */
  lemma EofLine(src: string)
    ensures var r := ScanTokens(src);
      r.Complete? ==> |r.tokens| > 0 && r.tokens[|r.tokens| - 1].line == 1 + NewlinesIn(src)
  {
    ScanFromEndsWithEof(src, 0, 1);
    assert src[0..] == src;
  }

  // ---------------------------------------------------------------------------
  // What a step makes of particular texts

  /** `!`, `=`, `<` and `>` followed by `=` make one two-character operator token, and
      otherwise a one-character token. */
  lemma OperatorTokens(src: string, start: nat, line: nat)
    requires start < |src| && PairKind(src[start]).Some?
    ensures var two := start + 1 < |src| && src[start + 1] == '=';
      ScanStep(src, start, line)
      == Scanned(if two then start + 2 else start + 1, line,
                 Some(Token(if two then PairKind(src[start]).value.1 else PairKind(src[start]).value.0,
                            if two then [src[start], '='] else [src[start]], Undefined, line)),
                 None)
  {
    if start + 1 < |src| && src[start + 1] == '=' {
      assert src[start..start + 2] == [src[start], '='];
    } else {
      assert src[start..start + 1] == [src[start]];
    }
  }

  /** A `//` comment runs to the end of its line, which it does not consume, and makes
      no token. */
  lemma CommentSkipped(src: string, start: nat, body: string, line: nat)
    requires start + 2 + |body| <= |src| && src[start..start + 2] == "//"
    requires src[start + 2..start + 2 + |body|] == body && '\n' !in body
    requires start + 2 + |body| == |src| || src[start + 2 + |body|] == '\n'
    ensures ScanStep(src, start, line) == Scanned(start + 2 + |body|, line, None, None)
  {
    assert src[start] == "//"[0] && src[start + 1] == "//"[1];
    assert forall k :: start + 2 <= k < start + 2 + |body| ==> src[k] == body[k - start - 2];
    RunEndExact(src, start + 2, start + 2 + |body|, NotNewline);
  }

  /** A word is scanned whole, as the keyword the table names or as an identifier. */
  lemma WordToken(word: string, rest: string, line: nat)
    requires |word| > 0 && IsAlpha(word[0])
    requires forall k :: 0 <= k < |word| ==> IsAlphaNumeric(word[k])
    requires rest == [] || !IsAlphaNumeric(rest[0])
    ensures ScanStep(word + rest, 0, line)
         == Scanned(|word|, line, Some(Token(if word in Keywords then Keywords[word] else Identifier,
                                              word, Undefined, line)), None)
  {
    var src := word + rest;
    assert forall k :: 0 <= k < |word| ==> src[k] == word[k];
    assert Classify(src[0]) == WordStart;
    RunEndExact(src, 1, |word|, IsAlphaNumeric);
    assert src[0..|word|] == word;
  }

  /** `break` is not in the keyword table, so it scans as an identifier. */
  lemma BreakIsIdentifier(rest: string, line: nat)
    requires rest == [] || !IsAlphaNumeric(rest[0])
    ensures ScanStep("break" + rest, 0, line)
         == Scanned(5, line, Some(Token(Identifier, "break", Undefined, line)), None)
  {
    assert "break" !in Keywords;
    WordToken("break", rest, line);
  }

  /** A run of decimal digits, leading zeros included, scans as one NUMBER token whose
      value is the number the digits denote, provided no digit and no `.` follows it. */
  lemma NumberToken(digits: string, rest: string, line: nat)
    requires |digits| > 0 && AllDigits(digits)
    requires rest == [] || (!IsDigit(rest[0]) && rest[0] != '.')
    ensures ScanStep(digits + rest, 0, line)
         == Scanned(|digits|, line, Some(Token(Number, digits, Num(DigitsValue(digits)), line)), None)
  {
    var src := digits + rest;
    assert src[..|digits|] == digits;
    assert forall k :: 0 <= k < |digits| ==> IsDigit(src[k]) by {
      forall k | 0 <= k < |digits| ensures IsDigit(src[k]) {
        assert src[k] == digits[k];
      }
    }
    assert |digits| == |src| || src[|digits|] == rest[0];
    NumberRun(src, |digits|, line);
  }

  /** A source whose first `n` characters are digits, followed by the end or by a
      character that is neither a digit nor `.`, starts with that number. */
  lemma NumberRun(src: string, n: nat, line: nat)
    requires 0 < n <= |src|
    requires forall k :: 0 <= k < n ==> IsDigit(src[k])
    requires n == |src| || (!IsDigit(src[n]) && src[n] != '.')
    ensures AllDigits(src[..n])
    ensures ScanStep(src, 0, line) == Emit(src, 0, n, Number, Num(DigitsValue(src[..n])), line)
  {
    assert src[0..n] == src[..n];
    RunEndExact(src, 1, n, IsDigit);
    DigitStarts(src[0]);
  }

  /** A digit starts a number. */
  lemma DigitStarts(c: char)
    requires IsDigit(c)
    ensures Classify(c) == DigitStart
  { }

  /** The decimal text of a number scans back to that number. */
  lemma NumberTextToken(n: nat, rest: string, line: nat)
    requires rest == [] || (!IsDigit(rest[0]) && rest[0] != '.')
    ensures ScanStep(NatText(n) + rest, 0, line)
         == Scanned(|NatText(n)|, line, Some(Token(Number, NatText(n), Num(n), line)), None)
  {
    DigitsValueOfNatText(n);
    NumberToken(NatText(n), rest, line);
  }

  /** Digits followed by `.` end the scan with an exception. */
  lemma FractionThrows(digits: string, rest: string, line: nat)
    requires |digits| > 0 && AllDigits(digits)
    ensures ScanStep(digits + "." + rest, 0, line) == Threw
  {
    var src := digits + "." + rest;
    assert forall k :: 0 <= k < |digits| ==> src[k] == digits[k];
    assert Classify(src[0]) == DigitStart;
    assert src[|digits|] == '.';
    RunEndExact(src, 1, |digits|, IsDigit);
  }

  /** A quoted text makes a string token whose literal is the text between the quotes;
      the token is on the line of the closing quote. */
  lemma StringToken(body: string, rest: string, line: nat)
    requires '"' !in body
    ensures ScanStep("\"" + body + "\"" + rest, 0, line)
         == Scanned(|body| + 2, line + NewlinesIn(body),
                    Some(Token(String, "\"" + body + "\"", Str(body), line + NewlinesIn(body))), None)
  {
    var src := "\"" + body + "\"" + rest;
    assert Classify(src[0]) == Quote;
    assert forall k :: 1 <= k < |body| + 1 ==> src[k] == body[k - 1];
    assert src[|body| + 1] == '"';
    RunEndExact(src, 1, |body| + 1, NotQuote);
    assert src[1..|body| + 1] == body;
    assert src[0..|body| + 2] == "\"" + body + "\"";
  }

  /** A quote that is never closed consumes the rest of the source and is reported, on
      the last line, as an unterminated string. */
  lemma UnterminatedString(body: string, line: nat)
    requires '"' !in body
    ensures ScanStep("\"" + body, 0, line)
         == Scanned(|body| + 1, line + NewlinesIn(body), None,
                    Some(ScanError(line + NewlinesIn(body), "Unterminated string.")))
  {
    var src := "\"" + body;
    assert Classify(src[0]) == Quote;
    assert forall k :: 1 <= k < |body| + 1 ==> src[k] == body[k - 1];
    RunEndExact(src, 1, |body| + 1, NotQuote);
    assert src[1..|body| + 1] == body;
  }

  /** A space, carriage return or tab emits nothing; a line break emits nothing and
      moves to the next line. */
  lemma BlanksSkipped(src: string, start: nat, line: nat)
    requires start < |src| && src[start] in {' ', '\r', '\t', '\n'}
    ensures ScanStep(src, start, line)
         == Scanned(start + 1, if src[start] == '\n' then line + 1 else line, None, None)
  {
  }

  /** An unexpected character is reported on the current line and skipped; as written,
      the source throws instead. */
  lemma UnexpectedCharacter(src: string, start: nat, line: nat)
    requires start < |src| && Unexpected(src[start])
    ensures ScanStep(src, start, line)
         == Scanned(start + 1, line, None, Some(ScanError(line, "Unexpected character " + [src[start]] + ".")))
    ensures ScanStepAsWritten(src, start, line) == Threw
  {
  }

  /** Concretely: `@` throws in the source as written. */
  lemma AtSignThrowsAsWritten()
    ensures ScanStepAsWritten("@", 0, 1) == Threw
    ensures ScanStep("@", 0, 1) == Scanned(1, 1, None, Some(ScanError(1, "Unexpected character @.")))
  {
    assert Unexpected("@"[0]);
    assert "Unexpected character " + ["@"[0]] + "." == "Unexpected character @.";
  }

  /** `current`, `line`, `tokens` and `errors` are the state after step `s`, begun with
      `tokens0` and `errors0` gathered. */
  predicate Performed(s: Step, tokens0: seq<Token>, errors0: seq<ScanError>,
                      current: nat, line: nat, tokens: seq<Token>, errors: seq<ScanError>)
  {
    s.Scanned? && current == s.next && line == s.line
    && tokens == tokens0 + Listed(s.token) && errors == errors0 + Listed(s.error)
  }

  /** Gathered tokens and errors can be prepended in one go or in two. */
  lemma PrependTwice(t1: seq<Token>, e1: seq<ScanError>, t2: seq<Token>, e2: seq<ScanError>, rest: Outcome)
    ensures Prepend(t1, e1, Prepend(t2, e2, rest)) == Prepend(t1 + t2, e1 + e2, rest)
  {
    if rest.Complete? {
      assert t1 + (t2 + rest.tokens) == (t1 + t2) + rest.tokens;
      assert e1 + (e2 + rest.errors) == (e1 + e2) + rest.errors;
    }
  }

  // ---------------------------------------------------------------------------
  // The scanner object

  /** `Scanner`: the source, the tokens added so far, the errors reported so far, and
      the cursor: where the current token starts, the next character and the line. */
  class Scanner {
    const source: string
    var tokens: seq<Token>
    var errors: seq<ScanError>
    var start: nat
    var current: nat
    var line: nat

    ghost predicate Valid()
      reads this
    {
      start <= current <= |source|
    }

    /** The new scanner is at the first character of line 1, with nothing gathered. */
    constructor(source: string)
      ensures Valid() && this.source == source
      ensures tokens == [] && errors == [] && start == 0 && current == 0 && line == 1
    {
      this.source := source;
      tokens := [];
      errors := [];
      start := 0;
      current := 0;
      line := 1;
    }

    function AtEnd(): bool
      reads this
    {
      current >= |source|
    }

    /** `peek`: the next character, or NUL past the end. */
    function Peek(): char
      reads this
    {
      if current < |source| then source[current] else '\0'
    }

    /** `advance`: consume and return the next character. */
    method Advance() returns (c: char)
      requires Valid() && current < |source|
      modifies this`current
      ensures current == old(current) + 1 && c == source[old(current)]
    {
      current := current + 1;
      c := source[current - 1];
    }

    /** `addToken`: add a token whose lexeme is the text of the current token. */
    method AddToken(kind: TokenType, literal: Value)
      requires Valid()
      modifies this`tokens
      ensures tokens == old(tokens) + [Token(kind, source[start..current], literal, line)]
    {
      tokens := tokens + [Token(kind, source[start..current], literal, line)];
    }

    /** `match`: consume the next character when it is `expected`. */
    method Match(expected: char) returns (matched: bool)
      requires Valid()
      modifies this`current
      ensures matched <==> old(current) < |source| && source[old(current)] == expected
      ensures current == if matched then old(current) + 1 else old(current)
    {
      if AtEnd() {
        return false;
      }
      if source[current] != expected {
        return false;
      }
      current := current + 1;
      return true;
    }

    /** `report`, recorded: an error on the current line. */
    method Report(message: string)
      modifies this`errors
      ensures errors == old(errors) + [ScanError(line, message)]
    {
      errors := errors + [ScanError(line, message)];
    }

    /** The loop of `string`: consume the text up to the closing quote or the end,
        counting its line breaks. */
    method SkipStringBody()
      requires Valid() && start < |source| && current == start + 1
      modifies this`current, this`line
      ensures Valid() && current == RunEnd(source, start + 1, NotQuote)
      ensures line == old(line) + NewlinesIn(source[start + 1..current])
    {
      while Peek() != '"' && !AtEnd()
        invariant start + 1 <= current <= |source|
        invariant forall k :: start + 1 <= k < current ==> source[k] != '"'
        invariant line == old(line) + NewlinesIn(source[start + 1..current])
        decreases |source| - current
      {
        assert source[start + 1..current + 1] == source[start + 1..current] + [source[current]];
        if Peek() == '\n' {
          line := line + 1;
        }
        var skipped := Advance();
      }
      RunEndExact(source, start + 1, current, NotQuote);
    }

    /** `string`, called after the opening quote. */
    method ScanString()
      requires Valid() && start < |source| && source[start] == '"' && current == start + 1
      modifies this`current, this`line, this`tokens, this`errors
      ensures Valid()
      ensures Performed(StringStep(source, start, old(line)), old(tokens), old(errors), current, line, tokens, errors)
    {
      SkipStringBody();
      if AtEnd() {
        Report("Unterminated string.");
        return;
      }
      var closing := Advance();
      AddToken(String, Str(source[start + 1..current - 1]));
    }

    /** `number`, called after the first digit; `ok` is false where the number step throws. */
    method ScanNumber() returns (ok: bool)
      requires Valid() && start < |source| && IsDigit(source[start]) && current == start + 1
      modifies this`current, this`tokens
      ensures Valid()
      ensures ok <==> NumberStep(source, start, line).Scanned?
      ensures ok ==> Performed(NumberStep(source, start, line), old(tokens), errors, current, line, tokens, errors)
    {
      while IsDigit(Peek())
        invariant start + 1 <= current <= |source|
        invariant forall k :: start <= k < current ==> IsDigit(source[k])
        invariant tokens == old(tokens)
        decreases |source| - current
      {
        var digit := Advance();
      }
      RunEndExact(source, start + 1, current, IsDigit);
      assert AllDigits(source[start..current]);
      if Peek() == '.' {
        // the source goes on to call `peekNext` unqualified, which throws
        return false;
      }
      AddToken(Number, Num(DigitsValue(source[start..current])));
      return true;
    }

    /** `identifier`, called after the first letter. */
    method ScanIdentifier()
      requires Valid() && start < |source| && IsAlpha(source[start]) && current == start + 1
      modifies this`current, this`tokens
      ensures Valid()
      ensures Performed(WordStep(source, start, line), old(tokens), errors, current, line, tokens, errors)
    {
      while IsAlphaNumeric(Peek())
        invariant start + 1 <= current <= |source|
        invariant forall k :: start + 1 <= k < current ==> IsAlphaNumeric(source[k])
        invariant tokens == old(tokens)
        decreases |source| - current
      {
        var letter := Advance();
      }
      RunEndExact(source, start + 1, current, IsAlphaNumeric);
      AddToken(WordKind(source[start..current]), Undefined);
    }

    /** An operator that may be followed by `=`, called after its first character. */
    method ScanOperator(alone: TokenType, withEqual: TokenType)
      requires Valid() && start < |source| && current == start + 1 && source[start] != '\n'
      requires alone != Eof && withEqual != Eof
      modifies this`current, this`tokens
      ensures Valid()
      ensures Performed(OperatorStep(source, start, alone, withEqual, line), old(tokens), errors, current, line, tokens, errors)
    {
      var two := Match('=');
      AddToken(if two then withEqual else alone, Undefined);
    }

    /** `/`, called after it: a comment when another `/` follows, else a slash token. */
    method ScanSlash()
      requires Valid() && start < |source| && current == start + 1 && source[start] == '/'
      modifies this`current, this`tokens
      ensures Valid()
      ensures Performed(SlashStep(source, start, line), old(tokens), errors, current, line, tokens, errors)
    {
      var comment := Match('/');
      if comment {
        SkipComment();
      } else {
        AddToken(Slash, Undefined);
      }
    }

    /** A `//` comment, called after both slashes: skip to the end of the line. */
    method SkipComment()
      requires Valid() && start + 2 == current
      modifies this`current
      ensures Valid() && current == RunEnd(source, start + 2, NotNewline)
    {
      while Peek() != '\n' && !AtEnd()
        invariant start + 2 <= current <= |source|
        invariant forall k :: start + 2 <= k < current ==> source[k] != '\n'
        decreases |source| - current
      {
        var skipped := Advance();
      }
      RunEndExact(source, start + 2, current, NotNewline);
    }

    /** `scanToken`, with the unexpected character reported; `ok` is false where the number
        step throws. */
    method ScanToken() returns (ok: bool)
      requires Valid() && start == current && current < |source|
      modifies this`current, this`line, this`tokens, this`errors
      ensures Valid()
      ensures ok <==> ScanStep(source, old(current), old(line)).Scanned?
      ensures ok ==> Performed(ScanStep(source, old(current), old(line)), old(tokens), old(errors), current, line, tokens, errors)
    {
      var c := Advance();
      ok := true;
      match Classify(c)
      case Single(kind) => AddToken(kind, Undefined);
      case Pair(alone, withEqual) => ScanOperator(alone, withEqual);
      case SlashOrComment => ScanSlash();
      case Blank =>
      case LineBreak => line := line + 1;
      case Quote => ScanString();
      case DigitStart => ok := ScanNumber();
      case WordStart => ScanIdentifier();
      case Other => Report("Unexpected character " + [c] + ".");
    }

    /** `scanTokens`: scan to the end of the source and add the end-of-file token; the
      result is the outcome `ScanFrom` gives for the rest of the source, after what was
      already gathered. */
    method ScanTokens() returns (r: Outcome)
      requires Valid()
      modifies this`start, this`current, this`line, this`tokens, this`errors
      ensures r == Prepend(old(tokens), old(errors), ScanFrom(source, old(current), old(line)))
      ensures r.Complete? ==> r.tokens == tokens && r.errors == errors
    {
      while !AtEnd()
        invariant Valid()
        invariant Prepend(tokens, errors, ScanFrom(source, current, line))
               == Prepend(old(tokens), old(errors), ScanFrom(source, old(current), old(line)))
        decreases |source| - current
      {
        ghost var before := ScanFrom(source, current, line);
        ghost var tokens0, errors0 := tokens, errors;
        start := current;
        var ok := ScanToken();
        if !ok {
          return Thrown;
        }
        PrependTwice(tokens0, errors0, tokens[|tokens0|..], errors[|errors0|..], ScanFrom(source, current, line));
        assert tokens0 + tokens[|tokens0|..] == tokens && errors0 + errors[|errors0|..] == errors;
      }
      tokens := tokens + [Token(Eof, "", Undefined, line)];
      r := Complete(tokens, errors);
    }
  }
}
