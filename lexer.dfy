/**
  The lexer of lexer.js: a single left-to-right pass over the source text
  that turns it into `{type, value}` tokens.

  `Scan` is the specification of the scanning loop, written on the not yet
  scanned suffix of the input; the class `Lexer` keeps the source's state
  (`input`, `tokens`, `current`) and its `Tokenize` loop is proved to compute
  exactly what `Scan` describes.
*/
module Lexing {
  import opened Results

  /** The twelve token types of lexer.js. */
  datatype Kind =
    | Keyword | Ident | Number | Str | Operator | Equals
    | Semicolon | LParen | RParen | LBrace | RBrace | Comma

  datatype Token = Token(kind: Kind, value: string)

  /**
    Ways tokenization ends without tokens. `UnknownCharacter` is the error
    thrown at lexer.js:116. The other two are inputs on which the JavaScript
    loop never ends: an unterminated string (lexer.js:51-54), and a
    letter/digit/underscore run that reaches the end of the input, because
    the character class test on `undefined` tests the text "undefined",
    which matches (lexer.js:24-27).
  */
  datatype LexError =
    | UnknownCharacter(c: char)
    | UnterminatedString
    | WordAtEndOfInput

  /** The fixed keyword list of lexer.js:6. */
  predicate IsKeyword(w: string) {
    w == "caramelo" || w == "alfajor" || w == "chocolate" || w == "gomita"
    || w == "batido" || w == "torta" || w == "mostrame" || w == "devolveme"
  }

  /** The single-character operators of lexer.js:109. */
  predicate IsOperatorChar(c: char) {
    c == '+' || c == '-' || c == '*' || c == '/' || c == '<' || c == '>'
  }

  /** Every OPERATOR value the lexer can emit. */
  predicate IsOperator(w: string) {
    w == "==" || (|w| == 1 && IsOperatorChar(w[0]))
  }

  /** JavaScript's `\s` class, by code point. */
  predicate IsWhitespace(c: char) {
    var k := c as int;
    k == 0x20 || 0x09 <= k <= 0x0D || k == 0xA0 || k == 0x1680 || 0x2000 <= k <= 0x200A
    || k == 0x2028 || k == 0x2029 || k == 0x202F || k == 0x205F || k == 0x3000 || k == 0xFEFF
  }

  /** `[a-zA-Z_]` */
  predicate IsWordStart(c: char) {
    ('a' <= c <= 'z') || ('A' <= c <= 'Z') || c == '_'
  }

  /** `[0-9]` */
  predicate IsDigit(c: char) {
    '0' <= c <= '9'
  }

  /** `[a-zA-Z0-9_]` */
  predicate IsWordChar(c: char) {
    IsWordStart(c) || IsDigit(c)
  }

  predicate IsNotQuote(c: char) {
    c != '"'
  }

  /** The token type of the punctuation characters of lexer.js:73-107. */
  function PunctuationKind(c: char): Option<Kind> {
    if c == ';' then Some(Semicolon)
    else if c == '(' then Some(LParen)
    else if c == ')' then Some(RParen)
    else if c == '{' then Some(LBrace)
    else if c == '}' then Some(RBrace)
    else if c == ',' then Some(Comma)
    else None
  }

  /** Length of the longest prefix of `s` whose characters all satisfy `p`. */
  function Span(s: string, p: char -> bool): (n: nat)
    ensures n <= |s|
    ensures forall i :: 0 <= i < n ==> p(s[i])
    ensures n < |s| ==> !p(s[n])
    decreases |s|
  {
    if s == [] || !p(s[0]) then 0 else 1 + Span(s[1..], p)
  }

  /** A run is classified as KEYWORD exactly when it is one of the listed words. */
  function WordToken(w: string): Token {
    if IsKeyword(w) then Token(Keyword, w) else Token(Ident, w)
  }

  /** Puts `t` in front of the tokens of a successful scan. */
  function Cons(t: Token, r: Result<seq<Token>, LexError>): Result<seq<Token>, LexError> {
    match r
    case Ok(ts) => Ok([t] + ts)
    case Err(e) => Err(e)
  }

  /** Puts `pre` in front of the tokens of a successful scan. */
  function Prepend(pre: seq<Token>, r: Result<seq<Token>, LexError>): Result<seq<Token>, LexError> {
    match r
    case Ok(ts) => Ok(pre + ts)
    case Err(e) => Err(e)
  }

  /** One iteration of the scanning loop: skip `len` characters, emit a token and skip `len`, or fail. */
  datatype Step = Skip(len: nat) | Emit(token: Token, len: nat) | Stop(error: LexError)

  /**
    The iteration of lexer.js:12-116 at the first character of `s`, with the
    rules tried in the source's order.
  */
  function NextStep(s: string): (r: Step)
    requires s != []
    ensures r.Skip? ==> r.len == 1
    ensures r.Emit? ==> 0 < r.len <= |s|
  {
    var c := s[0];
    if IsWhitespace(c) then Skip(1)
    else if IsWordStart(c) then
      var n := Span(s, IsWordChar);
      if n == |s| then Stop(WordAtEndOfInput) else Emit(WordToken(s[..n]), n)
    else if IsDigit(c) then
      var n := Span(s, IsDigit);
      Emit(Token(Number, s[..n]), n)
    else if c == '"' then
      var n := Span(s[1..], IsNotQuote);
      if n == |s| - 1 then Stop(UnterminatedString) else Emit(Token(Str, s[1..n + 1]), n + 2)
    else if c == '=' && |s| > 1 && s[1] == '=' then Emit(Token(Operator, "=="), 2)
    else if c == '=' then Emit(Token(Equals, "="), 1)
    else if PunctuationKind(c).Some? then Emit(Token(PunctuationKind(c).value, [c]), 1)
    else if IsOperatorChar(c) then Emit(Token(Operator, [c]), 1)
    else Stop(UnknownCharacter(c))
  }

  /**
    The tokens of the text `s`: the loop of lexer.js:12-117 run to the end of
    the input. The definition is spread over three functions so that the
    verifier looks into the character dispatch `NextStep` only where a proof
    asks for it (through `ScanUnfold`).
  */
  function Scan(s: string): (r: Result<seq<Token>, LexError>)
    ensures r.Ok? ==> |r.value| <= |s|
    decreases |s|, 2
  {
    if s == [] then Ok([]) else ScanNonEmpty(s)
  }

  function ScanNonEmpty(s: string): (r: Result<seq<Token>, LexError>)
    requires s != []
    ensures r.Ok? ==> |r.value| <= |s|
    decreases |s|, 1
  {
    ScanStep(s)
  }

  /** One pass of the loop body at the head of `s`, then the rest of the scan. */
  function ScanStep(s: string): (r: Result<seq<Token>, LexError>)
    requires s != []
    ensures r.Ok? ==> |r.value| <= |s|
    decreases |s|, 0
  {
    match NextStep(s)
    case Skip(n) => Scan(s[n..])
    case Emit(t, n) => Cons(t, Scan(s[n..]))
    case Stop(e) => Err(e)
  }

  // ---------------------------------------------------------------------
  // What a token the lexer emits looks like, and how to write one back.
  // ---------------------------------------------------------------------

  predicate IsWord(w: string) {
    |w| > 0 && IsWordStart(w[0]) && forall i :: 0 <= i < |w| ==> IsWordChar(w[i])
  }

  /** The shape every emitted token has: its type determines its value's form. */
  predicate WellFormed(t: Token) {
    match t.kind
    case Keyword => IsKeyword(t.value)
    case Ident => IsWord(t.value) && !IsKeyword(t.value)
    case Number => |t.value| > 0 && forall i :: 0 <= i < |t.value| ==> IsDigit(t.value[i])
    case Str => forall i :: 0 <= i < |t.value| ==> t.value[i] != '"'
    case Operator => IsOperator(t.value)
    case Equals => t.value == "="
    case Semicolon => t.value == ";"
    case LParen => t.value == "("
    case RParen => t.value == ")"
    case LBrace => t.value == "{"
    case RBrace => t.value == "}"
    case Comma => t.value == ","
  }

  predicate AllWellFormed(ts: seq<Token>) {
    forall i :: 0 <= i < |ts| ==> WellFormed(ts[i])
  }

  /** Source text of one token: strings get their quotes back. */
  function Text(t: Token): string {
    if t.kind == Str then "\"" + t.value + "\"" else t.value
  }

  /** Source text for a token sequence: each token followed by one space. */
  function Render(ts: seq<Token>): string {
    if ts == [] then "" else Text(ts[0]) + " " + Render(ts[1..])
  }

  // ---------------------------------------------------------------------
  // Lemmas
  // ---------------------------------------------------------------------

  /** `Scan` of a non-empty text proceeds by the first step. */
  lemma ScanUnfold(s: string)
    requires s != []
    ensures NextStep(s).Skip? ==> Scan(s) == Scan(s[NextStep(s).len..])
    ensures NextStep(s).Emit? ==> Scan(s) == Cons(NextStep(s).token, Scan(s[NextStep(s).len..]))
    ensures NextStep(s).Stop? ==> Scan(s) == Err(NextStep(s).error)
  {
    assert Scan(s) == ScanStep(s);
  }

  /** `Span` is determined by its two defining properties. */
  lemma SpanIs(s: string, p: char -> bool, n: nat)
    requires n <= |s|
    requires forall i :: 0 <= i < n ==> p(s[i])
    requires n < |s| ==> !p(s[n])
    ensures Span(s, p) == n
  {
  }

  /** Scanning past one emitted token. */
  lemma ScanEmit(s: string, t: Token, n: nat)
    requires s != [] && NextStep(s) == Emit(t, n)
    ensures Scan(s) == Cons(t, Scan(s[n..]))
  {
    ScanUnfold(s);
  }

  lemma PrependCons(pre: seq<Token>, t: Token, r: Result<seq<Token>, LexError>)
    ensures Prepend(pre + [t], r) == Prepend(pre, Cons(t, r))
  {
    if r.Ok? {
      assert (pre + [t]) + r.value == pre + ([t] + r.value);
    }
  }

  /** Each keyword is itself a letter run, so it is scanned whole. */
  lemma KeywordsAreWords(w: string)
    requires IsKeyword(w)
    ensures IsWord(w)
  {
  }

  /** The token of one step has the form its type demands. */
  lemma StepWellFormed(s: string)
    requires s != [] && NextStep(s).Emit?
    ensures WellFormed(NextStep(s).token)
  {
    var c := s[0];
    if IsWordStart(c) {
      var n := Span(s, IsWordChar);
      assert IsWord(s[..n]);
    } else if !IsDigit(c) && c == '"' {
      var n := Span(s[1..], IsNotQuote);
      assert forall i :: 0 <= i < n ==> s[1..n + 1][i] == s[1..][i];
    }
  }

  /**
    Every token of a successful scan is well formed: KEYWORD iff the run is a
    listed word, IDENTIFIER otherwise, NUMBER is digits only, STRING holds no
    quote, OPERATOR is one of seven, punctuation carries its own character.
  */
  lemma {:induction false} ScanWellFormed(s: string)
    requires Scan(s).Ok?
    ensures AllWellFormed(Scan(s).value)
    decreases |s|
  {
    if s != [] {
      ScanUnfold(s);
      match NextStep(s)
      case Stop(_) =>
      case Skip(n) =>
        ScanWellFormed(s[n..]);
      case Emit(t, n) =>
        StepWellFormed(s);
        ScanWellFormed(s[n..]);
    }
  }

  /** Whitespace produces no token: a run of it in front of the text changes nothing. */
  lemma {:induction false} LeadingWhitespaceIgnored(w: string, s: string)
    requires forall i :: 0 <= i < |w| ==> IsWhitespace(w[i])
    ensures Scan(w + s) == Scan(s)
    decreases |w|
  {
    if w == [] {
      assert w + s == s;
    } else {
      assert (w + s)[0] == w[0];
      assert NextStep(w + s) == Skip(1);
      ScanUnfold(w + s);
      assert (w + s)[1..] == w[1..] + s;
      LeadingWhitespaceIgnored(w[1..], s);
    }
  }

  lemma SpanConcat(u: string, v: string, p: char -> bool)
    requires Span(u, p) < |u|
    ensures Span(u + v, p) == Span(u, p)
  {
    var n := Span(u, p);
    assert (u + v)[n] == u[n];
    assert forall i :: 0 <= i < n ==> (u + v)[i] == u[i];
    SpanIs(u + v, p, n);
  }

  lemma TakeConcat(u: string, v: string, n: nat)
    requires n <= |u|
    ensures (u + v)[..n] == u[..n]
  {
  }

  lemma StepConcatWord(u: string, v: string)
    requires |u| > 0 && IsWordStart(u[0]) && Span(u, IsWordChar) < |u|
    ensures NextStep(u + v) == NextStep(u)
  {
    var n := Span(u, IsWordChar);
    assert (u + v)[0] == u[0];
    SpanConcat(u, v, IsWordChar);
    TakeConcat(u, v, n);
  }


  lemma StepConcatDigits(u: string, v: string)
    requires |u| > 0 && IsDigit(u[0]) && Span(u, IsDigit) < |u|
    ensures NextStep(u + v) == NextStep(u)
  {
    var s := u + v;
    var n := Span(u, IsDigit);
    assert s[0] == u[0];
    SpanConcat(u, v, IsDigit);
    TakeConcat(u, v, n);
  }

  lemma StepConcatString(u: string, v: string)
    requires |u| > 0 && u[0] == '"' && Span(u[1..], IsNotQuote) < |u| - 1
    ensures NextStep(u + v) == NextStep(u)
  {
    var s := u + v;
    var n := Span(u[1..], IsNotQuote);
    assert s[0] == u[0];
    assert s[1..] == u[1..] + v;
    SpanConcat(u[1..], v, IsNotQuote);
    TakeConcat(u[1..], v, n);
    assert s[1..n + 1] == (u[1..] + v)[..n];
    assert u[1..n + 1] == u[1..][..n];
  }

  lemma StepConcatSymbol(u: string, v: string)
    requires |u| > 1
    requires !IsWhitespace(u[0]) && !IsWordChar(u[0]) && u[0] != '"'
    ensures NextStep(u + v) == NextStep(u)
  {
    var s := u + v;
    assert s[0] == u[0];
    assert s[1] == u[1];
  }

  /**
    A step that succeeds on a text ending in whitespace stops short of that
    whitespace unless it is the whitespace, so text after it changes nothing.
  */
  lemma StepConcat(u: string, v: string)
    requires |u| > 0 && IsWhitespace(u[|u| - 1])
    requires !NextStep(u).Stop?
    ensures NextStep(u + v) == NextStep(u)
    ensures NextStep(u).Emit? ==> NextStep(u).len < |u|
  {
    var c := u[0];
    if IsWhitespace(c) {
      assert (u + v)[0] == c;
    } else if IsWordStart(c) {
      StepConcatWord(u, v);
    } else if IsDigit(c) {
      StepConcatDigits(u, v);
    } else if c == '"' {
      StepConcatString(u, v);
    } else {
      StepConcatSymbol(u, v);
    }
  }

  /**
    Scanning is compositional at a token boundary: when `u` ends with
    whitespace and scans without error, the tokens of `u + v` are those of
    `u` followed by those of `v`, in input order.
  */
  lemma {:induction false} ScanConcat(u: string, v: string)
    requires |u| > 0 && IsWhitespace(u[|u| - 1])
    requires Scan(u).Ok?
    ensures Scan(u + v) == Prepend(Scan(u).value, Scan(v))
    decreases |u|
  {
    ScanUnfold(u);
    StepConcat(u, v);
    ScanUnfold(u + v);
    var n := NextStep(u).len;
    if n == |u| {
      assert (u + v)[n..] == v;
      assert u[n..] == [];
      assert Scan(u) == Ok([]);
      if Scan(v).Ok? {
        assert [] + Scan(v).value == Scan(v).value;
      }
    } else {
      assert (u + v)[n..] == u[n..] + v;
      ScanConcat(u[n..], v);
      if NextStep(u).Emit? {
        var t := NextStep(u).token;
        var ts := Scan(u[n..]).value;
        if Scan(v).Ok? {
          assert [t] + (ts + Scan(v).value) == ([t] + ts) + Scan(v).value;
        }
      }
    }
  }

  lemma StepWord(t: Token)
    requires t.kind == Keyword || t.kind == Ident
    requires WellFormed(t)
    ensures NextStep(t.value + " ") == Emit(t, |t.value|)
  {
    var s := t.value + " ";
    var n := |t.value|;
    if t.kind == Keyword {
      KeywordsAreWords(t.value);
    }
    assert s[0] == t.value[0];
    assert forall i :: 0 <= i < n ==> s[i] == t.value[i];
    SpanIs(s, IsWordChar, n);
    assert s[..n] == t.value;
  }

  lemma StepNumber(t: Token)
    requires t.kind == Number && WellFormed(t)
    ensures NextStep(t.value + " ") == Emit(t, |t.value|)
  {
    var s := t.value + " ";
    var n := |t.value|;
    assert s[0] == t.value[0];
    assert forall i :: 0 <= i < n ==> s[i] == t.value[i];
    SpanIs(s, IsDigit, n);
    assert s[..n] == t.value;
  }

  lemma StepString(t: Token)
    requires t.kind == Str && WellFormed(t)
    ensures NextStep(Text(t) + " ") == Emit(t, |Text(t)|)
  {
    var s := Text(t) + " ";
    var m := |t.value|;
    assert s[1..] == t.value + "\" ";
    SpanIs(s[1..], IsNotQuote, m);
    assert s[1..m + 1] == t.value;
  }

  lemma StepSymbol(t: Token)
    requires t.kind != Keyword && t.kind != Ident && t.kind != Number && t.kind != Str
    requires WellFormed(t)
    ensures NextStep(t.value + " ") == Emit(t, |t.value|)
  {
    var s := t.value + " ";
    assert s[0] == t.value[0];
    if t.value == "==" {
      assert s[1] == '=';
    } else {
      assert |t.value| == 1;
      assert s[1] == ' ';
    }
  }

  /** A well-formed token followed by a space scans back to exactly that token. */
  lemma ScanOneToken(t: Token)
    requires WellFormed(t)
    ensures Scan(Text(t) + " ") == Ok([t])
  {
    var s := Text(t) + " ";
    var n := |Text(t)|;
    assert t.kind != Str ==> Text(t) == t.value;
    if t.kind == Keyword || t.kind == Ident {
      StepWord(t);
    } else if t.kind == Number {
      StepNumber(t);
    } else if t.kind == Str {
      StepString(t);
    } else {
      StepSymbol(t);
    }
    ScanEmit(s, t, n);
    assert s[n..] == " ";
    assert Scan(" ") == Ok([]) by {
      assert " "[1..] == [];
      ScanUnfold(" ");
    }
    assert [t] + [] == [t];
  }

  /** Round trip: rendering well-formed tokens and scanning the text gives them back. */
  lemma {:induction false} ScanRender(ts: seq<Token>)
    requires AllWellFormed(ts)
    ensures Scan(Render(ts)) == Ok(ts)
  {
    if ts != [] {
      var u := Text(ts[0]) + " ";
      ScanOneToken(ts[0]);
      ScanRender(ts[1..]);
      ScanConcat(u, Render(ts[1..]));
      assert Render(ts) == u + Render(ts[1..]);
      assert [ts[0]] + ts[1..] == ts;
    }
  }

  // ---------------------------------------------------------------------
  // One lemma per branch of the scanning loop, over the whole input and an index
  // ---------------------------------------------------------------------

  lemma WordStep(input: string, from: nat, to: nat)
    requires from < |input| && IsWordStart(input[from])
    requires to == from + Span(input[from..], IsWordChar) < |input|
    ensures Scan(input[from..]) == Cons(WordToken(input[from..to]), Scan(input[to..]))
  {
    ScanUnfold(input[from..]);
    var rest := input[from..];
    assert rest[..to - from] == input[from..to];
    assert rest[to - from..] == input[to..];
  }

  lemma WordAtEnd(input: string, from: nat)
    requires from < |input| && IsWordStart(input[from])
    requires from + Span(input[from..], IsWordChar) == |input|
    ensures Scan(input[from..]) == Err(WordAtEndOfInput)
  {
    ScanUnfold(input[from..]);
  }

  lemma DigitStep(input: string, from: nat, to: nat)
    requires from < |input| && IsDigit(input[from])
    requires to == from + Span(input[from..], IsDigit)
    ensures Scan(input[from..]) == Cons(Token(Number, input[from..to]), Scan(input[to..]))
  {
    ScanUnfold(input[from..]);
    var rest := input[from..];
    assert rest[..to - from] == input[from..to];
    assert rest[to - from..] == input[to..];
  }

  /** `from` is the opening quote and `to` the closing one. */
  lemma StringStep(input: string, from: nat, to: nat)
    requires from < |input| && input[from] == '"'
    requires to == from + 1 + Span(input[from + 1..], IsNotQuote) < |input|
    ensures Scan(input[from..]) == Cons(Token(Str, input[from + 1..to]), Scan(input[to + 1..]))
  {
    ScanUnfold(input[from..]);
    var rest := input[from..];
    assert rest[1..] == input[from + 1..];
    assert rest[1..to - from] == input[from + 1..to];
    assert rest[to - from + 1..] == input[to + 1..];
  }

  lemma StringAtEnd(input: string, from: nat)
    requires from < |input| && input[from] == '"'
    requires from + 1 + Span(input[from + 1..], IsNotQuote) == |input|
    ensures Scan(input[from..]) == Err(UnterminatedString)
  {
    ScanUnfold(input[from..]);
    assert input[from..][1..] == input[from + 1..];
  }

  lemma WhitespaceStep(input: string, at: nat)
    requires at < |input| && IsWhitespace(input[at])
    ensures Scan(input[at..]) == Scan(input[at + 1..])
  {
    ScanUnfold(input[at..]);
    assert NextStep(input[at..]) == Skip(1);
    assert input[at..][1..] == input[at + 1..];
  }

  lemma EqualsEqualsStep(input: string, at: nat)
    requires at + 1 < |input| && input[at] == '=' && input[at + 1] == '='
    ensures Scan(input[at..]) == Cons(Token(Operator, "=="), Scan(input[at + 2..]))
  {
    ScanUnfold(input[at..]);
    assert NextStep(input[at..]) == Emit(Token(Operator, "=="), 2);
    assert input[at..][2..] == input[at + 2..];
  }

  /** The token of a character that is a whole token by itself, if it is one. */
  function SingleCharToken(c: char, next: Option<char>): Option<Token> {
    if c == '=' && next != Some('=') then Some(Token(Equals, "="))
    else if PunctuationKind(c).Some? then Some(Token(PunctuationKind(c).value, [c]))
    else if IsOperatorChar(c) then Some(Token(Operator, [c]))
    else None
  }

  function NextChar(input: string, at: nat): Option<char> {
    if at + 1 < |input| then Some(input[at + 1]) else None
  }

  lemma SingleCharStep(input: string, at: nat)
    requires at < |input|
    requires !IsWhitespace(input[at]) && !IsWordChar(input[at]) && input[at] != '"'
    requires SingleCharToken(input[at], NextChar(input, at)).Some?
    ensures Scan(input[at..]) == Cons(SingleCharToken(input[at], NextChar(input, at)).value, Scan(input[at + 1..]))
  {
    ScanUnfold(input[at..]);
    var rest := input[at..];
    assert rest[0] == input[at];
    assert |rest| > 1 ==> rest[1] == input[at + 1];
    assert NextStep(rest) == Emit(SingleCharToken(input[at], NextChar(input, at)).value, 1);
    assert rest[1..] == input[at + 1..];
  }

  lemma UnknownStep(input: string, at: nat)
    requires at < |input|
    requires !IsWhitespace(input[at]) && !IsWordChar(input[at]) && input[at] != '"'
    requires !(input[at] == '=' && NextChar(input, at) == Some('='))
    requires SingleCharToken(input[at], NextChar(input, at)).None?
    ensures Scan(input[at..]) == Err(UnknownCharacter(input[at]))
  {
    ScanUnfold(input[at..]);
    var rest := input[at..];
    assert rest[0] == input[at];
    assert |rest| > 1 ==> rest[1] == input[at + 1];
  }

  /** The loop invariant of `Tokenize` survives emitting `t`. */
  lemma Advance(goal: Result<seq<Token>, LexError>, tokens: seq<Token>, t: Token, a: string, b: string)
    requires goal == Prepend(tokens, Scan(a))
    requires Scan(a) == Cons(t, Scan(b))
    ensures goal == Prepend(tokens + [t], Scan(b))
  {
    PrependCons(tokens, t, Scan(b));
  }

  /** The loop invariant of `Tokenize` survives skipping whitespace. */
  lemma Pass(goal: Result<seq<Token>, LexError>, tokens: seq<Token>, a: string, b: string)
    requires goal == Prepend(tokens, Scan(a))
    requires Scan(a) == Scan(b)
    ensures goal == Prepend(tokens, Scan(b))
  {
  }

  /** Reaching the end of the input completes the scan with the tokens collected. */
  lemma PrependDone(before: seq<Token>, whole: Result<seq<Token>, LexError>, tokens: seq<Token>)
    requires Prepend(before, whole) == Prepend(tokens, Ok([]))
    ensures whole.Ok? && tokens == before + whole.value
  {
    assert tokens + [] == tokens;
  }

  /** A failure reached part-way through is the failure of the whole scan. */
  lemma PrependErr(before: seq<Token>, whole: Result<seq<Token>, LexError>, tokens: seq<Token>, e: LexError)
    requires Prepend(before, whole) == Prepend(tokens, Err(e))
    ensures whole == Err(e)
  {
  }

  // ---------------------------------------------------------------------
  // The object of lexer.js
  // ---------------------------------------------------------------------

  /** lexer.js:1-118: the input, the tokens pushed so far and the scanning index. */
  class Lexer {
    const input: string
    var tokens: seq<Token>
    var current: nat

    /** lexer.js:2-7. The source's constructor goes on to call `tokenize`; here the caller does. */
    constructor(input: string)
      ensures this.input == input && tokens == [] && current == 0
    {
      this.input := input;
      tokens := [];
      current := 0;
    }

    /**
      lexer.js:11-118. The index only increases and tokens are only appended;
      the outcome is that of `Scan` on the text not yet scanned. The loop
      runs on local copies of the index and the token list, which are stored
      back into the fields wherever the source leaves the method.
    */
    method Tokenize() returns (err: Option<LexError>)
      requires current <= |input|
      modifies this
      ensures err.None? <==> Scan(input[old(current)..]).Ok?
      ensures err.None? ==> tokens == old(tokens) + Scan(input[old(current)..]).value && current == |input|
      ensures err.Some? ==> Scan(input[old(current)..]) == Err(err.value)
    {
      var text, pos, toks := input, current, tokens;
      ghost var whole, before := Scan(text[pos..]), toks;
      ghost var goal := Prepend(before, whole);
      while pos < |text|
        invariant pos <= |text|
        invariant goal == Prepend(toks, Scan(text[pos..]))
        decreases |text| - pos
      {
        var step := ScanAt(text, pos);
        if step.Stop? {
          PrependErr(before, whole, toks, step.error);
          current, tokens := pos, toks;
          return Some(step.error);
        }
        if step.Emit? {
          Advance(goal, toks, step.token, text[pos..], text[pos + step.len..]);
          toks := toks + [step.token];
        } else {
          Pass(goal, toks, text[pos..], text[pos + step.len..]);
        }
        pos := pos + step.len;
      }
      assert text[pos..] == [];
      PrependDone(before, whole, toks);
      current, tokens := pos, toks;
      err := None;
    }
  }

  /**
    `step` is the pass of the loop that `NextStep` prescribes at index `at`
    of `input`, and `Scan` proceeds by it.
  */
  ghost predicate Agrees(input: string, at: nat, step: Step)
    requires at < |input|
  {
    step == NextStep(input[at..]) &&
    match step
    case Skip(n) => 0 < n && at + n <= |input| && Scan(input[at..]) == Scan(input[at + n..])
    case Emit(t, n) => 0 < n && at + n <= |input| && Scan(input[at..]) == Cons(t, Scan(input[at + n..]))
    case Stop(e) => Scan(input[at..]) == Err(e)
  }

  /**
    One pass of the body of the loop at lexer.js:12-117, at index `at`:
    whitespace is skipped, a token is read, or the input is rejected, each
    exactly as `Scan` proceeds.
  */
  method ScanAt(input: string, at: nat) returns (step: Step)
    requires at < |input|
    ensures step == NextStep(input[at..])
    ensures step.Skip? ==> 0 < step.len && at + step.len <= |input| && Scan(input[at..]) == Scan(input[at + step.len..])
    ensures step.Emit? ==> 0 < step.len && at + step.len <= |input| && Scan(input[at..]) == Cons(step.token, Scan(input[at + step.len..]))
    ensures step.Stop? ==> Scan(input[at..]) == Err(step.error)
  {
    var c := input[at];
    if IsWhitespace(c) {
      WhitespaceStep(input, at);
      step := Skip(1);
      assert step == NextStep(input[at..]);
    } else if IsWordStart(c) {
      step := ReadWord(input, at);
    } else if IsDigit(c) {
      step := ReadNumber(input, at);
    } else if c == '"' {
      step := ReadString(input, at);
    } else {
      step := ReadSymbol(input, at);
    }
  }

  /** lexer.js:22-34: a keyword or an identifier. */
  method ReadWord(input: string, at: nat) returns (step: Step)
    requires at < |input| && IsWordStart(input[at])
    ensures Agrees(input, at, step)
  {
    var value, to := ReadWhile(input, at, IsWordChar);
    if to == |input| {
      WordAtEnd(input, at);
      return Stop(WordAtEndOfInput);
    }
    WordStep(input, at, to);
    step := Emit(WordToken(value), to - at);
  }

  /** lexer.js:37-45: a run of digits. */
  method ReadNumber(input: string, at: nat) returns (step: Step)
    requires at < |input| && IsDigit(input[at])
    ensures Agrees(input, at, step)
  {
    var value, to := ReadWhile(input, at, IsDigit);
    DigitStep(input, at, to);
    step := Emit(Token(Number, value), to - at);
  }

  /** lexer.js:48-58: a string literal; the quotes are not part of the value. */
  method ReadString(input: string, at: nat) returns (step: Step)
    requires at < |input| && input[at] == '"'
    ensures Agrees(input, at, step)
  {
    var value, to := ReadWhile(input, at + 1, IsNotQuote);
    if to == |input| {
      StringAtEnd(input, at);
      return Stop(UnterminatedString);
    }
    StringStep(input, at, to);
    step := Emit(Token(Str, value), to + 1 - at);
  }

  /** lexer.js:61-116: `==`, `=`, punctuation, one-character operators, or an unknown character. */
  method ReadSymbol(input: string, at: nat) returns (step: Step)
    requires at < |input|
    requires !IsWhitespace(input[at]) && !IsWordChar(input[at]) && input[at] != '"'
    ensures Agrees(input, at, step)
  {
    var c := input[at];
    if c == '=' && at + 1 < |input| && input[at + 1] == '=' {
      EqualsEqualsStep(input, at);
      return Emit(Token(Operator, "=="), 2);
    }
    var t: Token;
    if c == '=' {
      t := Token(Equals, "=");
    } else if c == ';' {
      t := Token(Semicolon, ";");
    } else if c == '(' {
      t := Token(LParen, "(");
    } else if c == ')' {
      t := Token(RParen, ")");
    } else if c == '{' {
      t := Token(LBrace, "{");
    } else if c == '}' {
      t := Token(RBrace, "}");
    } else if c == ',' {
      t := Token(Comma, ",");
    } else if IsOperatorChar(c) {
      t := Token(Operator, [c]);
    } else {
      UnknownStep(input, at);
      return Stop(UnknownCharacter(c));
    }
    SingleCharStep(input, at);
    step := Emit(t, 1);
  }

  /**
    The character-by-character loops of lexer.js:24-27, 39-42 and 51-54:
    collect the characters from `from` on while they pass `p`. The source
    runs past the end of the input; this loop stops there and its callers
    decide.
  */
  method ReadWhile(input: string, from: nat, p: char -> bool) returns (value: string, to: nat)
    requires from <= |input|
    ensures to == from + Span(input[from..], p)
    ensures value == input[from..to]
  {
    to := from;
    value := "";
    while to < |input| && p(input[to])
      invariant from <= to <= |input|
      invariant value == input[from..to]
      invariant forall i :: from <= i < to ==> p(input[i])
    {
      value := value + [input[to]];
      to := to + 1;
    }
    SpanIs(input[from..], p, to - from);
  }

  /** Constructing a lexer over `text` and running it: the tokens of `Scan(text)`. */
  method Lex(text: string) returns (r: Result<seq<Token>, LexError>)
    ensures r == Scan(text)
  {
    var lexer := new Lexer(text);
    assert text[0..] == text;
    var err := lexer.Tokenize();
    if err.Some? {
      r := Err(err.value);
    } else {
      assert [] + Scan(text).value == Scan(text).value;
      r := Ok(lexer.tokens);
    }
  }
}
