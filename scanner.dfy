/**
 * The scanner: one left-to-right pass that turns source text into tokens.
 *
 * `LexOne` says what one call of `scanToken` does at a given cursor, `ScanFrom`
 * what the whole pass produces; the `Scanner` class is the imperative pass with
 * the three cursor fields, proved to do exactly that.
 */
module Scanning {
  import opened Lexicon

  /** The reserved words and their token kinds. */
  const Keywords: map<string, TokenType> := map[
    "and" := And, "class" := Class, "else" := Else, "false" := False,
    "for" := For, "fun" := Fun, "if" := If, "nil" := TokenType.Nil,
    "or" := Or, "print" := Print, "return" := Return, "super" := TokenType.Super,
    "this" := TokenType.This, "true" := True, "var" := Var, "while" := While]

  /** The scanner's two error messages. */
  const UnterminatedString := "Unterminated String."
  const UnexpectedCharacter := "Unexpected Character: "

  /** Every entry of the keyword table is a keyword kind. */
  lemma KeywordTableSound()
    ensures forall w | w in Keywords :: IsKeyword(Keywords[w])
  {
  }

  const DecimalDigits := "0123456789"
  /** The 26 letters of the alphabet from `first` on. */
  function Alphabet(first: char): (letters: seq<char>)
    requires (first as int) + 26 < 0xD800
    ensures |letters| == 26
  {
    seq(26, i requires 0 <= i < 26 => ((first as int) + i) as char)
  }

  const Letters := Alphabet('a') + Alphabet('A')

  predicate IsDigit(c: char) { '0' <= c <= '9' }

  /** Identifiers are ASCII only: a character beyond ASCII never starts one, and no digit does. */
  predicate IsAlpha(c: char)
    ensures IsAlpha(c) ==> (c as int) < 128 && !IsDigit(c)
  {
    'a' <= c <= 'z' || 'A' <= c <= 'Z' || c == '_'
  }

  /** The NUL that `peek` gives at the end neither continues an identifier nor a number. */
  predicate IsAlphaNumeric(c: char)
    ensures IsAlphaNumeric(c) ==> (c as int) < 128 && c != '\0'
  {
    IsAlpha(c) || IsDigit(c)
  }

  /**
   * The character classes, against their enumerations: the ten digits, the 52
   * letters and '_' start identifiers, and these together continue them.
   */
  lemma CharacterClasses(c: char)
    ensures IsDigit(c) <==> c in DecimalDigits
    ensures IsAlpha(c) <==> c in Letters || c == '_'
    ensures IsAlphaNumeric(c) <==> c in Letters + DecimalDigits || c == '_'
  {
    if 'a' <= c <= 'z' {
      assert Alphabet('a')[(c as int) - ('a' as int)] == c;
    } else if 'A' <= c <= 'Z' {
      assert Alphabet('A')[(c as int) - ('A' as int)] == c;
    }
  }

  /** The character runs the scanner consumes in a loop. */
  datatype Run = Digits | Word | CommentText | StringText

  /** Whether `c` continues a run of the given kind. */
  predicate Continues(run: Run, c: char)
  {
    match run
    case Digits => IsDigit(c)
    case Word => IsAlphaNumeric(c)
    case CommentText => c != '\n'
    case StringText => c != '"'
  }

  /** The kind of an identifier-shaped lexeme: its keyword if it has one, else Identifier. */
  function IdentifierKind(text: string): (k: TokenType)
    ensures text in Keywords ==> k == Keywords[text]
    ensures text !in Keywords ==> k == Identifier
  {
    if text in Keywords then Keywords[text] else Identifier
  }

  /** The end of the longest run of characters satisfying `p` that starts at `i`. */
  function RunEnd(src: string, i: nat, run: Run): (j: nat)
    requires i <= |src|
    ensures i <= j <= |src|
    ensures forall k | i <= k < j :: Continues(run, src[k])
    ensures j == |src| || !Continues(run, src[j])
    decreases |src| - i
  {
    if i < |src| && Continues(run, src[i]) then RunEnd(src, i + 1, run) else i
  }

  /** The number of line breaks in a text. */
  function Newlines(s: string): nat
  {
    if s == [] then 0 else Newlines(s[..|s| - 1]) + (if s[|s| - 1] == '\n' then 1 else 0)
  }

  lemma {:induction false} NewlinesAppend(a: string, b: string)
    ensures Newlines(a + b) == Newlines(a) + Newlines(b)
    decreases |b|
  {
    if b != [] {
      assert (a + b)[..|a + b| - 1] == a + b[..|b| - 1];
      NewlinesAppend(a, b[..|b| - 1]);
    } else {
      assert a + b == a;
    }
  }

  lemma NewlinesStep(s: string, i: nat, j: nat)
    requires i <= j < |s|
    ensures Newlines(s[i..j + 1]) == Newlines(s[i..j]) + (if s[j] == '\n' then 1 else 0)
  {
    assert s[i..j + 1][..j - i] == s[i..j];
  }

  lemma NewlinesFree(s: string)
    requires forall k | 0 <= k < |s| :: s[k] != '\n'
    ensures Newlines(s) == 0
  {
    if s != [] {
      NewlinesFree(s[..|s| - 1]);
    }
  }

  /** The end of a number lexeme whose first digit ends at `i`: a digit run, with a fraction only when '.' is followed by a digit. */
  function NumberEnd(src: string, i: nat): (j: nat)
    requires i <= |src|
    ensures i <= j <= |src|
  {
    var d := RunEnd(src, i, Digits);
    if d + 1 < |src| && src[d] == '.' && IsDigit(src[d + 1]) then RunEnd(src, d + 1, Digits) else d
  }

  function DigitValue(c: char): nat
  {
    if IsDigit(c) then (c as int) - ('0' as int) else 0
  }

  /** A digit run read as a decimal integer. */
  function DigitsValue(s: string): nat
  {
    if s == [] then 0 else DigitsValue(s[..|s| - 1]) * 10 + DigitValue(s[|s| - 1])
  }

  /** `x` divided by ten `n` times: the place value of a fraction of `n` digits. */
  function Shift(x: real, n: nat): real
  {
    if n == 0 then x else Shift(x, n - 1) / 10.0
  }

  /** The exact decimal value of a number lexeme (the Double rounding of `toDouble` is not modelled). */
  function NumberValue(lexeme: string): real
  {
    var d := RunEnd(lexeme, 0, Digits);
    if d < |lexeme| then
      (DigitsValue(lexeme[..d]) as real) + Shift(DigitsValue(lexeme[d + 1..]) as real, |lexeme| - d - 1)
    else
      DigitsValue(lexeme) as real
  }

  /** The token kinds written as one character that never starts a longer token. */
  function PunctuationKind(c: char): Option<TokenType>
  {
    match c
    case '(' => Some(LeftParen) case ')' => Some(RightParen)
    case '{' => Some(LeftBrace) case '}' => Some(RightBrace)
    case ',' => Some(Comma) case '.' => Some(Dot) case '-' => Some(Minus)
    case '+' => Some(Plus) case ';' => Some(Semicolon) case '*' => Some(Star)
    case _ => None
  }

  /** The kind of `c` alone and of `c` followed by '=' for the operators '!', '=', '<', '>'. */
  function OperatorKind(c: char, followedByEqual: bool): TokenType
    requires c == '!' || c == '=' || c == '<' || c == '>'
  {
    match c
    case '!' => if followedByEqual then BangEqual else Bang
    case '=' => if followedByEqual then EqualEqual else Equal
    case '<' => if followedByEqual then LessEqual else Less
    case '>' => if followedByEqual then GreaterEqual else Greater
  }

  /** What one scanning step does with the character at `start`. */
  datatype Lexed =
    | Emit(kind: TokenType, literal: Value, end: nat, line: nat)   // a token with lexeme src[start..end]
    | Skip(end: nat, line: nat)                                    // whitespace, a line break or a comment
    | Unexpected(end: nat, error: Diagnostic)                      // an unknown character, reported and skipped
    | Unterminated(error: Diagnostic)                              // reported, then the pass crashes

  /**
   * One call of `scanToken` with the cursor at `start` on line `line`. The character
   * classes of the branches are disjoint, so the order of the tests is immaterial.
   */
  function LexOne(src: string, start: nat, line: nat): (r: Lexed)
    requires start < |src|
    ensures !r.Unterminated? ==> start < r.end <= |src|
    ensures r.Unterminated? ==> r.error.message == UnterminatedString
  {
    var c := src[start];
    if c == '"' then LexString(src, start, line)
    else if IsDigit(c) then LexNumber(src, start, line)
    else if IsAlpha(c) then LexIdentifier(src, start, line)
    else LexSymbol(src, start, line)
  }

  /** The remaining branches of `scanToken`: punctuation, operators, blanks, line breaks, comments and unknown characters. */
  function LexSymbol(src: string, start: nat, line: nat): (r: Lexed)
    requires start < |src|
    ensures !r.Unterminated? && start < r.end <= |src|
  {
    var c := src[start];
    var next := start + 1;
    if PunctuationKind(c).Some? then
      Emit(PunctuationKind(c).value, Value.Nil, next, line)
    else if c == '!' || c == '=' || c == '<' || c == '>' then
      var two := next < |src| && src[next] == '=';
      Emit(OperatorKind(c, two), Value.Nil, if two then next + 1 else next, line)
    else if c == ' ' || c == '\r' || c == '\t' then
      Skip(next, line)
    else if c == '\n' then
      Skip(next, line + 1)
    else if c == '/' then
      if next < |src| && src[next] == '/' then Skip(RunEnd(src, next + 1, CommentText), line)
      else Emit(Slash, Value.Nil, next, line)
    else
      Unexpected(next, ErrorAtLine(line, UnexpectedCharacter + [c]))
  }

  /** The string branch of `scanToken`: the text up to the next quote, or a crash when there is none. */
  function LexString(src: string, start: nat, line: nat): (r: Lexed)
    requires start < |src|
    ensures r.Emit? || r.Unterminated?
    ensures r.Emit? ==> start < r.end <= |src|
    ensures r.Unterminated? ==> r.error.message == UnterminatedString
  {
    var close := RunEnd(src, start + 1, StringText);
    var closeLine := line + Newlines(src[start + 1..close]);
    if close == |src| then Unterminated(ErrorAtLine(closeLine, UnterminatedString))
    else Emit(String, Str(src[start + 1..close]), close + 1, closeLine)
  }

  /** The number branch of `scanToken`. */
  function LexNumber(src: string, start: nat, line: nat): (r: Lexed)
    requires start < |src|
    ensures r.Emit? && r.kind == Number && start < r.end <= |src| && r.line == line
  {
    var e := NumberEnd(src, start + 1);
    Emit(Number, Num(NumberValue(src[start..e])), e, line)
  }

  /** The identifier branch of `scanToken`: a keyword or an identifier. */
  function LexIdentifier(src: string, start: nat, line: nat): (r: Lexed)
    requires start < |src|
    ensures r.Emit? && start < r.end <= |src| && r.line == line && r.literal == Value.Nil
  {
    var e := RunEnd(src, start + 1, Word);
    Emit(IdentifierKind(src[start..e]), Value.Nil, e, line)
  }

  /** The outcome of the whole pass: the tokens and the reported errors, or a crash after the reported errors. */
  datatype ScanResult = Scanned(tokens: seq<Token>, errors: seq<Diagnostic>) | Aborted(errors: seq<Diagnostic>)

  function Prepend(ts: seq<Token>, ds: seq<Diagnostic>, r: ScanResult): ScanResult
  {
    match r
    case Scanned(t, d) => Scanned(ts + t, ds + d)
    case Aborted(d) => Aborted(ds + d)
  }

  lemma PrependTwice(ts: seq<Token>, ds: seq<Diagnostic>, ts': seq<Token>, ds': seq<Diagnostic>, r: ScanResult)
    ensures Prepend(ts, ds, Prepend(ts', ds', r)) == Prepend(ts + ts', ds + ds', r)
  {
    assert ts + (ts' + []) == (ts + ts') + [];
    match r
    case Scanned(t, d) =>
      assert ts + (ts' + t) == (ts + ts') + t;
      assert ds + (ds' + d) == (ds + ds') + d;
    case Aborted(d) =>
      assert ds + (ds' + d) == (ds + ds') + d;
  }

  /** The token a step adds: one when it emits, none otherwise. */
  function Emitted(src: string, pos: nat, r: Lexed): (ts: seq<Token>)
    requires r.Emit? ==> pos <= r.end <= |src|
    ensures |ts| == if r.Emit? then 1 else 0
  {
    if r.Emit? then [Token(r.kind, src[pos..r.end], r.literal, r.line)] else []
  }

  /** The error a step reports: one for an unexpected character, none otherwise. */
  function Reported(r: Lexed): (ds: seq<Diagnostic>)
    ensures |ds| == if r.Unexpected? then 1 else 0
  {
    if r.Unexpected? then [r.error] else []
  }

  /** The line counter after a step that does not crash. */
  function LineAfter(r: Lexed, line: nat): nat
    requires !r.Unterminated?
  {
    if r.Unexpected? then line else r.line
  }

  /** The whole pass from cursor `pos` on line `line`: `scanTokens`' loop, then the EOF token. */
  function ScanFrom(src: string, pos: nat, line: nat): ScanResult
    requires pos <= |src|
    decreases |src| - pos
  {
    if pos == |src| then Scanned([Token(Eof, "", Value.Nil, line)], [])
    else
      var r := LexOne(src, pos, line);
      if r.Unterminated? then Aborted([r.error])
      else Prepend(Emitted(src, pos, r), Reported(r), ScanFrom(src, r.end, LineAfter(r, line)))
  }

  /** One step of the pass, seen from the tokens and errors gathered so far. */
  lemma ScanFromStep(src: string, pos: nat, line: nat, ts: seq<Token>, ds: seq<Diagnostic>)
    requires pos < |src| && !LexOne(src, pos, line).Unterminated?
    ensures var r := LexOne(src, pos, line);
      Prepend(ts, ds, ScanFrom(src, pos, line)) ==
        Prepend(ts + Emitted(src, pos, r), ds + Reported(r), ScanFrom(src, r.end, LineAfter(r, line)))
  {
    var r := LexOne(src, pos, line);
    PrependTwice(ts, ds, Emitted(src, pos, r), Reported(r), ScanFrom(src, r.end, LineAfter(r, line)));
  }

  function Scan(src: string): ScanResult
  {
    ScanFrom(src, 0, 1)
  }

  // ---------------------------------------------------------------------------
  // The shape of every token the pass can produce, stated independently of LexOne.

  predicate AllDigits(s: string) { forall k | 0 <= k < |s| :: IsDigit(s[k]) }

  /** Digits, optionally followed by '.' and more digits. */
  predicate IsNumberText(s: string)
  {
    (|s| > 0 && AllDigits(s)) ||
    (exists k | 0 < k < |s| - 1 :: s[k] == '.' && AllDigits(s[..k]) && AllDigits(s[k + 1..]))
  }

  predicate IsIdentifierText(s: string)
  {
    |s| > 0 && IsAlpha(s[0]) && forall k | 0 <= k < |s| :: IsAlphaNumeric(s[k])
  }

  predicate NoQuote(s: string) { forall k | 0 <= k < |s| :: s[k] != '"' }

  predicate IdentifierShaped(t: Token)
  {
    IsIdentifierText(t.lexeme) && t.lexeme !in Keywords && t.literal == Value.Nil
  }

  predicate StringShaped(t: Token)
  {
    && |t.lexeme| >= 2 && t.lexeme[0] == '"' && t.lexeme[|t.lexeme| - 1] == '"'
    && t.literal == Str(t.lexeme[1..|t.lexeme| - 1]) && NoQuote(t.literal.s)
  }

  predicate NumberShaped(t: Token)
  {
    IsNumberText(t.lexeme) && t.literal == Num(NumberValue(t.lexeme))
  }

  /** A token whose kind, lexeme and literal agree. */
  predicate WellFormed(t: Token)
  {
    match t.kind
    case Identifier => IdentifierShaped(t)
    case String => StringShaped(t)
    case Number => NumberShaped(t)
    case Eof => t.lexeme == "" && t.literal == Value.Nil
    case _ =>
      && t.literal == Value.Nil
      && if IsKeyword(t.kind) then t.lexeme in Keywords && Keywords[t.lexeme] == t.kind
         else t.lexeme == Spelling(t.kind)
  }

  /** The token a scanning step emits, if any, is well formed, is not EOF, and the line counter moves by the line breaks it spans. */
  predicate EmitsWellFormed(src: string, start: nat, line: nat)
    requires start < |src|
  {
    var r := LexOne(src, start, line);
    r.Emit? ==>
      && r.kind != Eof
      && WellFormed(Token(r.kind, src[start..r.end], r.literal, r.line))
      && r.line == line + Newlines(src[start..r.end])
  }

  lemma StringTokensShaped(src: string, start: nat, line: nat)
    requires start < |src| && src[start] == '"'
    ensures var r := LexString(src, start, line);
      r.Emit? ==>
        && r.kind == String
        && StringShaped(Token(String, src[start..r.end], r.literal, r.line))
        && r.line == line + Newlines(src[start..r.end])
  {
    var r := LexString(src, start, line);
    if r.Emit? {
      var close := r.end - 1;
      var body := src[start + 1..close];
      var lexeme := src[start..r.end];
      assert lexeme == ['"'] + body + ['"'];
      assert lexeme[1..|lexeme| - 1] == body;
      NewlinesAppend(['"'], body);
      NewlinesAppend(['"'] + body, ['"']);
      assert Newlines(['"']) == 0;
    }
  }

  lemma NumberTokensShaped(src: string, start: nat, line: nat)
    requires start < |src| && IsDigit(src[start])
    ensures var r := LexNumber(src, start, line);
      && NumberShaped(Token(Number, src[start..r.end], r.literal, r.line))
      && Newlines(src[start..r.end]) == 0
  {
    NumberTextShape(src, start);
    NewlinesFree(src[start..NumberEnd(src, start + 1)]);
  }

  /** A number lexeme is digits with at most one inner '.', and spans no line break. */
  lemma NumberTextShape(src: string, start: nat)
    requires start < |src| && IsDigit(src[start])
    ensures var e := NumberEnd(src, start + 1);
      IsNumberText(src[start..e]) && forall k | 0 <= k < e - start :: src[start..e][k] != '\n'
  {
    var e := NumberEnd(src, start + 1);
    var lexeme := src[start..e];
    var d := RunEnd(src, start + 1, Digits);
    if d + 1 < |src| && src[d] == '.' && IsDigit(src[d + 1]) {
      var k := d - start;
      assert lexeme[k] == '.';
      assert lexeme[..k] == src[start..d];
      assert lexeme[k + 1..] == src[d + 1..e];
      assert AllDigits(lexeme[..k]);
      assert AllDigits(lexeme[k + 1..]);
    } else {
      assert AllDigits(lexeme);
    }
  }

  lemma IdentifierTokensShaped(src: string, start: nat, line: nat)
    requires start < |src| && IsAlpha(src[start])
    ensures var r := LexIdentifier(src, start, line);
      && (r.kind == Identifier ==> IdentifierShaped(Token(Identifier, src[start..r.end], r.literal, r.line)))
      && (r.kind != Identifier ==> IsKeyword(r.kind) && src[start..r.end] in Keywords && Keywords[src[start..r.end]] == r.kind)
      && Newlines(src[start..r.end]) == 0
  {
    var r := LexIdentifier(src, start, line);
    var lexeme := src[start..r.end];
    assert IsIdentifierText(lexeme);
    KeywordTableSound();
    NewlinesFree(lexeme);
  }

  lemma PunctuationSpelling(c: char)
    requires PunctuationKind(c).Some?
    ensures HasFixedSpelling(PunctuationKind(c).value) && Spelling(PunctuationKind(c).value) == [c]
  {
  }

  lemma OperatorSpelling(c: char, followedByEqual: bool)
    requires c == '!' || c == '=' || c == '<' || c == '>'
    ensures HasFixedSpelling(OperatorKind(c, followedByEqual))
    ensures Spelling(OperatorKind(c, followedByEqual)) == if followedByEqual then [c, '='] else [c]
  {
  }

  lemma FixedTokensShaped(src: string, start: nat, line: nat)
    requires start < |src|
    ensures var r := LexSymbol(src, start, line);
      r.Emit? ==>
        && HasFixedSpelling(r.kind) && r.literal == Value.Nil && r.line == line
        && src[start..r.end] == Spelling(r.kind)
  {
    var c := src[start];
    var r := LexSymbol(src, start, line);
    if PunctuationKind(c).Some? {
      PunctuationSpelling(c);
      assert src[start..r.end] == [c];
    } else if c == '!' || c == '=' || c == '<' || c == '>' {
      var two := start + 1 < |src| && src[start + 1] == '=';
      OperatorSpelling(c, two);
      if two {
        assert src[start..r.end] == [c, '='];
      } else {
        assert src[start..r.end] == [c];
      }
    } else if r.Emit? {
      assert src[start..r.end] == [c];
    }
  }

  lemma FixedTokensWellFormed(src: string, start: nat, line: nat)
    requires start < |src| && src[start] != '"' && !IsDigit(src[start]) && !IsAlpha(src[start])
    ensures EmitsWellFormed(src, start, line)
  {
    var r := LexSymbol(src, start, line);
    assert LexOne(src, start, line) == r;
    FixedTokensShaped(src, start, line);
    if r.Emit? {
      NewlinesFree(src[start..r.end]);
    }
  }

  /** Each token a scanning step emits is well formed, is not EOF, and spans no line break unless it is a string. */
  lemma LexOneEmitsWellFormed(src: string, start: nat, line: nat)
    requires start < |src|
    ensures EmitsWellFormed(src, start, line)
  {
    var c := src[start];
    var r := LexOne(src, start, line);
    if c == '"' {
      assert r == LexString(src, start, line);
      StringTokensShaped(src, start, line);
    } else if IsDigit(c) {
      assert r == LexNumber(src, start, line);
      NumberTokensShaped(src, start, line);
    } else if IsAlpha(c) {
      assert r == LexIdentifier(src, start, line);
      IdentifierTokensShaped(src, start, line);
    } else {
      FixedTokensWellFormed(src, start, line);
    }
  }

  /** A scanning step that skips or reports moves the line counter by the line breaks it passes. */
  lemma LexOneCountsLines(src: string, start: nat, line: nat)
    requires start < |src|
    ensures var r := LexOne(src, start, line);
      (r.Skip? ==> r.line == line + Newlines(src[start..r.end])) &&
      (r.Unexpected? ==> Newlines(src[start..r.end]) == 0)
  {
    var r := LexOne(src, start, line);
    var c := src[start];
    if r.Skip? && c == '/' {
      var e := RunEnd(src, start + 2, CommentText);
      assert src[start..e] == [c, '/'] + src[start + 2..e];
      NewlinesFree(src[start..e]);
    } else if r.Skip? || r.Unexpected? {
      assert src[start..r.end] == [c];
    }
  }

  /** A completed pass: exactly one EOF token, last, with an empty lexeme, on line `last`, every other token well formed. */
  predicate CompletedShape(res: ScanResult, last: nat)
  {
    res.Scanned? ==>
      var ts := res.tokens;
      && |ts| > 0
      && ts[|ts| - 1] == Token(Eof, "", Value.Nil, last)
      && forall k | 0 <= k < |ts| - 1 :: ts[k].kind != Eof && WellFormed(ts[k])
  }

  lemma ShapeAfterStep(ts: seq<Token>, ds: seq<Diagnostic>, res: ScanResult, last: nat)
    requires forall k | 0 <= k < |ts| :: ts[k].kind != Eof && WellFormed(ts[k])
    requires CompletedShape(res, last)
    ensures CompletedShape(Prepend(ts, ds, res), last)
  {
    if res.Scanned? {
      var all := ts + res.tokens;
      forall k | 0 <= k < |all| - 1
        ensures all[k].kind != Eof && WellFormed(all[k])
      {
        if k >= |ts| {
          assert all[k] == res.tokens[k - |ts|];
        }
      }
    }
  }

  /** `Newlines` over a text split at a step boundary. */
  lemma NewlinesSplit(src: string, pos: nat, end: nat)
    requires pos <= end <= |src|
    ensures Newlines(src[pos..]) == Newlines(src[pos..end]) + Newlines(src[end..])
  {
    assert src[pos..] == src[pos..end] + src[end..];
    NewlinesAppend(src[pos..end], src[end..]);
  }

  /**
   * A completed pass ends with exactly one EOF token, with an empty lexeme, carrying the
   * final line count, and every other token is well formed.
   */
  lemma {:induction false} ScanFromShape(src: string, pos: nat, line: nat)
    requires pos <= |src|
    ensures CompletedShape(ScanFrom(src, pos, line), line + Newlines(src[pos..]))
    decreases |src| - pos
  {
    if pos < |src| {
      var r := LexOne(src, pos, line);
      if !r.Unterminated? {
        var last := line + Newlines(src[pos..]);
        NewlinesSplit(src, pos, r.end);
        LexOneEmitsWellFormed(src, pos, line);
        LexOneCountsLines(src, pos, line);
        ScanFromShape(src, r.end, LineAfter(r, line));
        ShapeAfterStep(Emitted(src, pos, r), Reported(r), ScanFrom(src, r.end, LineAfter(r, line)), last);
      }
    } else {
      assert src[pos..] == [];
    }
  }

  /** The pass over a whole source: EOF last and only last, on line 1 + the number of line breaks. */
  lemma ScanEndsWithEof(src: string)
    ensures Scan(src).Scanned? ==>
      var ts := Scan(src).tokens;
      && |ts| > 0 && ts[|ts| - 1] == Token(Eof, "", Value.Nil, 1 + Newlines(src))
      && forall k | 0 <= k < |ts| - 1 :: ts[k].kind != Eof && WellFormed(ts[k])
  {
    ScanFromShape(src, 0, 1);
    assert src[0..] == src;
  }

  /** The pass crashes exactly when some step meets an unterminated string, and it then reports it last. */
  lemma {:induction false} ScanFromAborts(src: string, pos: nat, line: nat)
    requires pos <= |src|
    ensures ScanFrom(src, pos, line).Aborted? ==>
      var ds := ScanFrom(src, pos, line).errors;
      |ds| > 0 && ds[|ds| - 1].message == UnterminatedString
    decreases |src| - pos
  {
    if pos < |src| {
      var r := LexOne(src, pos, line);
      if !r.Unterminated? {
        ScanFromAborts(src, r.end, LineAfter(r, line));
      }
    }
  }

  // ---------------------------------------------------------------------------
  // Single-step properties of the lexical rules.

  /** '!', '=', '<', '>' take a following '=' into a two-character token; otherwise they stand alone. */
  lemma OperatorsLongestMatch(src: string, start: nat, line: nat)
    requires start < |src| && src[start] in {'!', '=', '<', '>'}
    ensures var r := LexOne(src, start, line);
      && r.Emit? && r.literal == Value.Nil && r.line == line
      && (start + 1 < |src| && src[start + 1] == '=' ==>
            r.end == start + 2 && Spelling(r.kind) == [src[start], '='])
      && (!(start + 1 < |src| && src[start + 1] == '=') ==>
            r.end == start + 1 && Spelling(r.kind) == [src[start]])
  {
  }

  /** `//` skips up to, not including, the next line break and emits nothing; a lone '/' is Slash. */
  lemma CommentsAreSkipped(src: string, start: nat, line: nat)
    requires start < |src| && src[start] == '/'
    ensures var r := LexOne(src, start, line);
      if start + 1 < |src| && src[start + 1] == '/' then
        && r.Skip? && r.line == line
        && (r.end == |src| || src[r.end] == '\n')
        && forall k | start <= k < r.end :: src[k] != '\n'
      else
        r == Emit(Slash, Value.Nil, start + 1, line)
  {
  }

  /** Blanks emit nothing; a line break emits nothing and counts one line. */
  lemma WhitespaceIsSkipped(src: string, start: nat, line: nat)
    requires start < |src| && src[start] in {' ', '\r', '\t', '\n'}
    ensures LexOne(src, start, line) == Skip(start + 1, if src[start] == '\n' then line + 1 else line)
  {
  }

  /** A number is a maximal digit run, with a fraction only when '.' is followed by a digit. */
  lemma NumbersAreMaximal(src: string, start: nat, line: nat)
    requires start < |src| && IsDigit(src[start])
    ensures var r := LexOne(src, start, line);
      && r.Emit? && r.kind == Number && IsNumberText(src[start..r.end])
      && (r.end == |src| || !IsDigit(src[r.end]))
      && (r.end + 1 < |src| && src[r.end] == '.' ==> !IsDigit(src[r.end + 1]) || '.' in src[start..r.end])
  {
    assert LexOne(src, start, line) == LexNumber(src, start, line);
    NumberTokensShaped(src, start, line);
    var d := RunEnd(src, start + 1, Digits);
    var e := NumberEnd(src, start + 1);
    if e != d {
      assert src[start..e][d - start] == '.';
    }
  }

  /** "1." scans as the number 1 followed by a dot. */
  lemma TrailingDotIsSeparate()
    ensures Scan("1.") == Scanned([Token(Number, "1", Num(1.0), 1), Token(Dot, ".", Value.Nil, 1), Token(Eof, "", Value.Nil, 1)], [])
  {
    assert "1."[0..1] == "1";
    assert "1."[1..2] == ".";
    assert NumberValue("1") == 1.0;
  }

  /** An identifier is a maximal alphanumeric run; its kind is its keyword, if it is one. */
  lemma IdentifiersAreMaximal(src: string, start: nat, line: nat)
    requires start < |src| && IsAlpha(src[start])
    ensures var r := LexOne(src, start, line);
      && r.Emit? && r.literal == Value.Nil
      && (r.end == |src| || !IsAlphaNumeric(src[r.end]))
      && (forall k | start <= k < r.end :: IsAlphaNumeric(src[k]))
      && r.kind == (if src[start..r.end] in Keywords then Keywords[src[start..r.end]] else Identifier)
  {
  }

  /** A string literal is the text strictly between the quotes; without a closing quote the pass crashes after reporting it. */
  lemma StringsAreQuoted(src: string, start: nat, line: nat)
    requires start < |src| && src[start] == '"'
    ensures var r := LexOne(src, start, line);
      && (r.Emit? ==>
           && r.kind == String && src[r.end - 1] == '"'
           && r.literal == Str(src[start + 1..r.end - 1]) && NoQuote(r.literal.s))
      && (r.Unterminated? <==> '"' !in src[start + 1..])
      && (r.Unterminated? ==> r.error.message == UnterminatedString)
  {
    var close := RunEnd(src, start + 1, StringText);
    if close < |src| {
      assert src[start + 1..][close - start - 1] == '"';
    }
  }

  /** An unknown character is reported on its line and skipped. */
  lemma UnknownCharactersAreReported(src: string, start: nat, line: nat)
    requires start < |src|
    requires var c := src[start];
      PunctuationKind(c).None? && !IsDigit(c) && !IsAlpha(c) &&
      c !in {'!', '=', '<', '>', ' ', '\r', '\t', '\n', '/', '"'}
    ensures LexOne(src, start, line) ==
      Unexpected(start + 1, Diagnostic(line, "", UnexpectedCharacter + [src[start]]))
  {
  }

  // ---------------------------------------------------------------------------
  // The imperative scanner.

  /**
   * How a scanning step that lexed `r` at `start` moves the scanner from line `line0`
   * and errors `errors0` to `current`, `line` and `errors`, and the tokens it adds.
   */
  predicate StepDone(src: string, start: nat, r: Lexed, line0: nat, errors0: seq<Diagnostic>, tokens: seq<Token>,
                     current: nat, line: nat, errors: seq<Diagnostic>, tokens': seq<Token>, completed: bool)
  {
    match r
    case Emit(k, lit, e, l) =>
      && completed && current == e && line == l && errors == errors0
      && start <= e <= |src| && tokens' == tokens + [Token(k, src[start..e], lit, l)]
    case Skip(e, l) => completed && current == e && line == l && errors == errors0 && tokens' == tokens
    case Unexpected(e, d) => completed && current == e && line == line0 && errors == errors0 + [d] && tokens' == tokens
    case Unterminated(d) => !completed && errors == errors0 + [d]
  }

  /** What `StepDone` says about a step, in the terms of `ScanFrom`. */
  lemma StepOutcome(src: string, start: nat, line0: nat, r: Lexed, errors0: seq<Diagnostic>, tokens0: seq<Token>,
                    current: nat, line: nat, errors: seq<Diagnostic>, tokens: seq<Token>, completed: bool)
    requires start < |src| && r == LexOne(src, start, line0)
    requires StepDone(src, start, r, line0, errors0, tokens0, current, line, errors, tokens, completed)
    ensures completed <==> !r.Unterminated?
    ensures completed ==>
      && errors == errors0 + Reported(r) && current == r.end && line == LineAfter(r, line0)
      && tokens == tokens0 + Emitted(src, start, r)
    ensures !completed ==> errors == errors0 + [r.error] && ScanFrom(src, start, line0) == Aborted([r.error])
  {
    if r.Skip? {
      assert tokens0 + [] == tokens0;
      assert errors0 + [] == errors0;
    } else if r.Emit? {
      assert errors0 + [] == errors0;
    } else if r.Unexpected? {
      assert tokens0 + [] == tokens0;
    }
  }

  class Scanner {
    const source: string
    var start: nat
    var current: nat
    var line: nat
    var errors: seq<Diagnostic>

    /** The cursors stay within the source: 0 <= start <= current <= |source|. */
    ghost predicate Valid()
      reads this
    {
      start <= current <= |source|
    }

    constructor (source: string)
      ensures Valid()
      ensures this.source == source && start == 0 && current == 0 && line == 1 && errors == []
    {
      this.source := source;
      start, current, line := 0, 0, 1;
      errors := [];
    }

    /** Within the source, the cursor is at the end only past its last character. */
    predicate IsAtEnd()
      reads this
      ensures Valid() ==> (IsAtEnd() <==> current == |source|)
    {
      current >= |source|
    }

    /** The character under the cursor; at the end a NUL, which is neither a digit nor part of a word. */
    function Peek(): (c: char)
      reads this
      ensures !IsAtEnd() ==> c == source[current]
      ensures IsAtEnd() ==> c == '\0' && !IsAlphaNumeric(c)
    {
      if IsAtEnd() then '\0' else source[current]
    }

    /** The character after the cursor; past the end a NUL, so a '.' that ends the source is never followed by a digit. */
    function PeekNext(): (c: char)
      reads this
      ensures current + 1 < |source| ==> c == source[current + 1]
      ensures current + 1 >= |source| ==> c == '\0' && !IsDigit(c)
    {
      if current + 1 >= |source| then '\0' else source[current + 1]
    }

    method Advance() returns (c: char)
      requires Valid() && current < |source|
      modifies this`current
      ensures Valid() && current == old(current) + 1 && c == source[old(current)]
    {
      c := source[current];
      current := current + 1;
    }

    /** Consumes `expected` if it is the next character. */
    method Match(expected: char) returns (matched: bool)
      requires Valid()
      modifies this`current
      ensures Valid()
      ensures matched <==> old(current) < |source| && source[old(current)] == expected
      ensures current == if matched then old(current) + 1 else old(current)
    {
      if IsAtEnd() { return false; }
      if source[current] != expected { return false; }
      current := current + 1;
      return true;
    }

    /** Appends a token whose lexeme is the text between the two cursors. */
    method AddToken(tokens: seq<Token>, kind: TokenType, literal: Value) returns (tokens': seq<Token>)
      requires Valid()
      ensures tokens' == tokens + [Token(kind, source[start..current], literal, line)]
    {
      var text := source[start..current];
      tokens' := tokens + [Token(kind, text, literal, line)];
    }

    method Identifier(tokens: seq<Token>) returns (tokens': seq<Token>)
      requires Valid() && start + 1 == current
      modifies this`current
      ensures Valid()
      ensures StepDone(source, start, LexIdentifier(source, start, line), line, errors, tokens, current, line, errors, tokens', true)
    {
      AdvanceWhile(Word);
      var text := source[start..current];
      var kind := if text in Keywords then Keywords[text] else TokenType.Identifier;
      tokens' := AddToken(tokens, kind, Value.Nil);
    }

    method Number(tokens: seq<Token>) returns (tokens': seq<Token>)
      requires Valid() && start + 1 == current
      modifies this`current
      ensures Valid()
      ensures StepDone(source, start, LexNumber(source, start, line), line, errors, tokens, current, line, errors, tokens', true)
    {
      AdvanceNumber();
      tokens' := AddToken(tokens, TokenType.Number, Num(NumberValue(source[start..current])));
    }

    /** The loops of `number`: the integer digits, then a fraction only when '.' is followed by a digit. */
    method AdvanceNumber()
      requires Valid()
      modifies this`current
      ensures Valid() && current == NumberEnd(source, old(current))
    {
      AdvanceWhile(Digits);
      if Peek() == '.' && IsDigit(PeekNext()) {
        var _ := Advance();
        AdvanceWhile(Digits);
      }
    }

    /** Scans the rest of a string literal; `completed` is false when the source ends first (the crash of `advance`). */
    method StringLiteral(tokens: seq<Token>) returns (tokens': seq<Token>, completed: bool)
      requires Valid() && start + 1 == current
      modifies this`current, this`line, this`errors
      ensures Valid()
      ensures StepDone(source, start, LexString(source, start, old(line)), old(line), old(errors), tokens, current, line, errors, tokens', completed)
    {
      SkipStringBody();
      if IsAtEnd() {
        errors := errors + [ErrorAtLine(line, UnterminatedString)];
        return tokens, false;
      }
      var _ := Advance();
      var value := source[start + 1..current - 1];
      tokens' := AddToken(tokens, TokenType.String, Str(value));
      completed := true;
    }

    /** The loop of `string()`: advances to the closing quote or the end, counting line breaks. */
    method SkipStringBody()
      requires Valid()
      modifies this`current, this`line
      ensures Valid()
      ensures current == RunEnd(source, old(current), StringText)
      ensures line == old(line) + Newlines(source[old(current)..current])
    {
      while Peek() != '"' && !IsAtEnd()
        invariant Valid() && old(current) <= current
        invariant RunEnd(source, current, StringText) == RunEnd(source, old(current), StringText)
        invariant line == old(line) + Newlines(source[old(current)..current])
        decreases |source| - current
      {
        NewlinesStep(source, old(current), current);
        if Peek() == '\n' { line := line + 1; }
        var _ := Advance();
      }
    }

    /** The `when` branches of `scanToken` for characters that are not quotes, digits or letters. */
    method Symbol(tokens: seq<Token>, c: char) returns (tokens': seq<Token>)
      requires Valid() && start + 1 == current && c == source[start]
      modifies this`current, this`line, this`errors
      ensures Valid()
      ensures StepDone(source, start, LexSymbol(source, start, old(line)), old(line), old(errors), tokens, current, line, errors, tokens', true)
    {
      tokens' := tokens;
      if PunctuationKind(c).Some? {
        tokens' := AddToken(tokens, PunctuationKind(c).value, Value.Nil);
        return;
      }
      if c == '!' || c == '=' || c == '<' || c == '>' {
        var m := Match('=');
        tokens' := AddToken(tokens, OperatorKind(c, m), Value.Nil);
        return;
      }
      match c {
        case ' ' =>
        case '\r' =>
        case '\t' =>
        case '\n' => line := line + 1;
        case '/' =>
          var m := Match('/');
          if m {
            AdvanceWhile(CommentText);
          } else {
            tokens' := AddToken(tokens, Slash, Value.Nil);
          }
        case _ =>
          errors := errors + [ErrorAtLine(line, UnexpectedCharacter + [c])];
      }
    }

    /** One scanning step from `start`: exactly what `LexOne` describes. */
    method ScanToken(tokens: seq<Token>) returns (tokens': seq<Token>, completed: bool)
      requires Valid() && start == current < |source|
      modifies this`current, this`line, this`errors
      ensures Valid()
      ensures StepDone(source, start, LexOne(source, start, old(line)), old(line), old(errors), tokens, current, line, errors, tokens', completed)
    {
      var c := Advance();
      if c == '"' {
        tokens', completed := StringLiteral(tokens);
      } else if IsDigit(c) {
        tokens' := Number(tokens);
        completed := true;
      } else if IsAlpha(c) {
        tokens' := Identifier(tokens);
        completed := true;
      } else {
        tokens' := Symbol(tokens, c);
        completed := true;
      }
    }

    /**
     * The loops of `identifier`, `number` and the comment branch: advances over the
     * longest run of the given kind, leaving the first character outside it unread.
     */
    method AdvanceWhile(run: Run)
      requires Valid()
      modifies this`current
      ensures Valid() && current == RunEnd(source, old(current), run)
    {
      while !IsAtEnd() && Continues(run, Peek())
        invariant Valid() && old(current) <= current
        invariant RunEnd(source, current, run) == RunEnd(source, old(current), run)
        decreases |source| - current
      {
        var _ := Advance();
      }
    }

    /**
     * The whole pass: repeated steps until the end of the source, then the EOF token.
     * `completed` is false when the pass crashes on an unterminated string.
     */
    method ScanTokens() returns (tokens: seq<Token>, completed: bool)
      requires Valid()
      modifies this
      ensures old(errors) <= errors
      ensures ScanFrom(source, old(current), old(line)) ==
        if completed then Scanned(tokens, errors[|old(errors)|..]) else Aborted(errors[|old(errors)|..])
    {
      tokens := [];
      completed := true;
      ghost var reported: seq<Diagnostic> := [];
      while !IsAtEnd()
        invariant Valid() && errors == old(errors) + reported
        invariant ScanFrom(source, old(current), old(line)) == Prepend(tokens, reported, ScanFrom(source, current, line))
        decreases |source| - current
      {
        start := current;
        ghost var tokens0, errors0, line0 := tokens, errors, line;
        ghost var r := LexOne(source, start, line0);
        var ok;
        tokens, ok := ScanToken(tokens);
        StepOutcome(source, start, line0, r, errors0, tokens0, current, line, errors, tokens, ok);
        if !ok {
          reported := reported + [r.error];
          assert errors[|old(errors)|..] == reported;
          return tokens, false;
        }
        ScanFromStep(source, start, line0, tokens0, reported);
        reported := reported + Reported(r);
      }
      assert errors[|old(errors)|..] == reported;
      assert reported + [] == reported;
      tokens := tokens + [Token(Eof, "", Value.Nil, line)];
    }
  }

  /** Scanning a fresh scanner's source yields exactly `Scan` of it. */
  method ScanSource(source: string) returns (tokens: seq<Token>, errors: seq<Diagnostic>, completed: bool)
    ensures Scan(source) == if completed then Scanned(tokens, errors) else Aborted(errors)
  {
    var scanner := new Scanner(source);
    tokens, completed := scanner.ScanTokens();
    errors := scanner.errors;
  }
}
