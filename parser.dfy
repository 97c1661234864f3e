/**
  The recursive-descent parser of parser.js. Each production is a function
  of the token list and the index `current` of the source's object; it
  returns the node it built and the index after it. The class `Parser`
  keeps the source's `tokens` and `current` fields and runs the top-level
  loop of `parse`.
*/
module Parsing {
  import opened Results
  import opened Lexing
  import opened Ast

  /**
    Ways parsing fails. `UnexpectedEnd` covers every read past the last
    token: `consume` and `peek` then return `undefined`, and taking its
    `type` throws (parser.js:232-233, 245).
  */
  datatype ParseError =
    | UnexpectedEnd
    | WrongType(expected: Kind, found: Token)
    | WrongValue(expectedValue: string, found: Token)
    | UnknownStatement(found: Token)
    | UnknownExpression(name: string)
    | UnknownPrimary(found: Token)

  type Tokens = seq<Token>

  /** A node built from the tokens at the index parsing started from, and the index after them. */
  datatype Parsed<+T> = Parsed(node: T, next: nat)

  type Parse<+T> = Result<Parsed<T>, ParseError>

  /**
    `peek().type` (parser.js:244-246). Where the source peeks at a token and
    then consumes it, the consuming cannot fail and the productions below
    simply step past it.
  */
  function PeekKind(ts: Tokens, pos: nat): (r: Result<Kind, ParseError>)
    requires pos <= |ts|
    ensures r.Ok? <==> pos < |ts|
    ensures r.Ok? ==> r.value == ts[pos].kind
  {
    if pos == |ts| then Err(UnexpectedEnd) else Ok(ts[pos].kind)
  }

  /**
    `consume(type, value)` (parser.js:231-241): the current token must have
    the type and, unless `value` is empty, the value; the index then moves
    past it.
  */
  function Consume(ts: Tokens, pos: nat, kind: Kind, value: string): (r: Parse<Token>)
    requires pos <= |ts|
    ensures r.Ok? <==> pos < |ts| && ts[pos].kind == kind && (value == "" || ts[pos].value == value)
    ensures r.Ok? ==> r.value == Parsed(ts[pos], pos + 1)
  {
    if pos == |ts| then Err(UnexpectedEnd)
    else if ts[pos].kind != kind then Err(WrongType(kind, ts[pos]))
    else if value != "" && ts[pos].value != value then Err(WrongValue(value, ts[pos]))
    else Ok(Parsed(ts[pos], pos + 1))
  }

  function DigitValue(c: char): nat {
    if IsDigit(c) then c as nat - '0' as nat else 0
  }

  /** `Number(token.value)` on a run of decimal digits. */
  function DigitsToNat(s: string): nat
    decreases |s|
  {
    if s == [] then 0 else 10 * DigitsToNat(s[..|s| - 1]) + DigitValue(s[|s| - 1])
  }

  // ---------------------------------------------------------------------
  // Statements
  // ---------------------------------------------------------------------

  /** parser.js:17-46: dispatch on the first token of a statement. */
  function ParseStatement(ts: Tokens, pos: nat): (r: Parse<Stmt>)
    requires pos <= |ts|
    ensures r.Ok? ==> pos < r.value.next <= |ts|
    decreases |ts| - pos, 3
  {
    if pos == |ts| then Err(UnexpectedEnd)
    else if ts[pos].kind == Keyword then
      var w := ts[pos].value;
      if w == "caramelo" then ParseVarDecl(ts, pos)
      else if w == "alfajor" then ParseIfStatement(ts, pos)
      else if w == "gomita" then ParseWhileStatement(ts, pos)
      else if w == "batido" then ParseForStatement(ts, pos)
      else if w == "torta" then ParseFunctionDecl(ts, pos)
      else if w == "mostrame" then ParseMostrame(ts, pos)
      else if w == "devolveme" then ParseReturn(ts, pos)
      else Err(UnknownStatement(ts[pos]))
    else if ts[pos].kind == Ident then ParseAssignmentOrFunctionCall(ts, pos)
    else Err(UnknownStatement(ts[pos]))
  }

  /**
    The loops `while (this.peek().type !== 'RBRACE') push(parseStatement())`
    of parser.js:81-83, 89-91, 105-107, 123-125 and 146-148. The `}` is left
    for the caller.
  */
  function ParseStatements(ts: Tokens, pos: nat): (r: Parse<seq<Stmt>>)
    requires pos <= |ts|
    ensures r.Ok? ==> pos <= r.value.next < |ts| && ts[r.value.next].kind == RBrace
    decreases |ts| - pos, 4
  {
    var k :- PeekKind(ts, pos);
    if k == RBrace then Ok(Parsed([], pos))
    else
      var s :- ParseStatement(ts, pos);
      var more :- ParseStatements(ts, s.next);
      Ok(Parsed([s.node] + more.node, more.next))
  }

  /** `{`, the statements of the block, `}`. */
  function ParseBlock(ts: Tokens, pos: nat): (r: Parse<seq<Stmt>>)
    requires pos <= |ts|
    ensures r.Ok? ==> pos < r.value.next <= |ts|
    decreases |ts| - pos, 2
  {
    var open :- Consume(ts, pos, LBrace, "");
    var body :- ParseStatements(ts, open.next);
    Ok(Parsed(body.node, body.next + 1))
  }

  /** parser.js:49-56 */
  function ParseMostrame(ts: Tokens, pos: nat): (r: Parse<Stmt>)
    requires pos <= |ts|
    ensures r.Ok? ==> pos < r.value.next <= |ts|
    decreases |ts| - pos, 2
  {
    var kw :- Consume(ts, pos, Keyword, "mostrame");
    var open :- Consume(ts, kw.next, LParen, "");
    var e :- ParseExpression(ts, open.next);
    var close :- Consume(ts, e.next, RParen, "");
    var semi :- Consume(ts, close.next, Semicolon, "");
    Ok(Parsed(Mostrame(e.node), semi.next))
  }

  /** parser.js:59-71: without `=` the initializer is the literal null. */
  function ParseVarDecl(ts: Tokens, pos: nat): (r: Parse<Stmt>)
    requires pos <= |ts|
    ensures r.Ok? ==> pos < r.value.next <= |ts| && r.value.node.VarDecl?
    decreases |ts| - pos, 2
  {
    var kw :- Consume(ts, pos, Keyword, "caramelo");
    var name :- Consume(ts, kw.next, Ident, "");
    var k :- PeekKind(ts, name.next);
    if k == Equals then
      var e :- ParseExpression(ts, name.next + 1);
      var semi :- Consume(ts, e.next, Semicolon, "");
      Ok(Parsed(VarDecl(name.node.value, e.node), semi.next))
    else
      var semi :- Consume(ts, name.next, Semicolon, "");
      Ok(Parsed(VarDecl(name.node.value, Literal(NullLit)), semi.next))
  }

  /** parser.js:74-95 */
  function ParseIfStatement(ts: Tokens, pos: nat): (r: Parse<Stmt>)
    requires pos <= |ts|
    ensures r.Ok? ==> pos < r.value.next <= |ts|
    decreases |ts| - pos, 2
  {
    var kw :- Consume(ts, pos, Keyword, "alfajor");
    var open :- Consume(ts, kw.next, LParen, "");
    var cond :- ParseExpression(ts, open.next);
    var close :- Consume(ts, cond.next, RParen, "");
    var thenPart :- ParseBlock(ts, close.next);
    var elsePart :- ParseElse(ts, thenPart.next);
    Ok(Parsed(IfStatement(cond.node, thenPart.node, elsePart.node), elsePart.next))
  }

  /**
    parser.js:86-93: the `else` block is there exactly when `chocolate`
    comes next, and is empty otherwise. The token is read either way, so an
    `alfajor` that ends the input fails.
  */
  function ParseElse(ts: Tokens, pos: nat): (r: Parse<seq<Stmt>>)
    requires pos <= |ts|
    ensures r.Ok? ==> pos <= r.value.next <= |ts|
    decreases |ts| - pos, 2
  {
    var k :- PeekKind(ts, pos);
    if k == Keyword && ts[pos].value == "chocolate" then ParseBlock(ts, pos + 1)
    else Ok(Parsed([], pos))
  }

  /** parser.js:98-110 */
  function ParseWhileStatement(ts: Tokens, pos: nat): (r: Parse<Stmt>)
    requires pos <= |ts|
    ensures r.Ok? ==> pos < r.value.next <= |ts|
    decreases |ts| - pos, 2
  {
    var kw :- Consume(ts, pos, Keyword, "gomita");
    var open :- Consume(ts, kw.next, LParen, "");
    var cond :- ParseBinaryExpression(ts, open.next);
    var close :- Consume(ts, cond.next, RParen, "");
    var body :- ParseBlock(ts, close.next);
    Ok(Parsed(WhileStatement(cond.node, body.node), body.next))
  }

  /**
    parser.js:113-128: the initializer is a whole `caramelo` declaration and
    the increment a whole assignment with its own `;`.
  */
  function ParseForStatement(ts: Tokens, pos: nat): (r: Parse<Stmt>)
    requires pos <= |ts|
    ensures r.Ok? ==> pos < r.value.next <= |ts|
    decreases |ts| - pos, 2
  {
    var kw :- Consume(ts, pos, Keyword, "batido");
    var open :- Consume(ts, kw.next, LParen, "");
    var init :- ParseVarDecl(ts, open.next);
    ParseForRest(ts, init.next, init.node)
  }

  /** parser.js:117-127: what follows the initializer of a `batido`. */
  function ParseForRest(ts: Tokens, pos: nat, init: Stmt): (r: Parse<Stmt>)
    requires pos <= |ts|
    ensures r.Ok? ==> pos < r.value.next <= |ts|
    ensures r.Ok? ==> r.value.node.ForStatement? && r.value.node.initializer == init && r.value.node.increment.Assignment?
    decreases |ts| - pos, 1
  {
    var cond :- ParseExpression(ts, pos);
    var semi :- Consume(ts, cond.next, Semicolon, "");
    var incr :- ParseAssignment(ts, semi.next);
    var close :- Consume(ts, incr.next, RParen, "");
    var body :- ParseBlock(ts, close.next);
    Ok(Parsed(ForStatement(init, cond.node, incr.node, body.node), body.next))
  }

  /** parser.js:131-151 */
  function ParseFunctionDecl(ts: Tokens, pos: nat): (r: Parse<Stmt>)
    requires pos <= |ts|
    ensures r.Ok? ==> pos < r.value.next <= |ts|
    decreases |ts| - pos, 2
  {
    var kw :- Consume(ts, pos, Keyword, "torta");
    var name :- Consume(ts, kw.next, Ident, "");
    var open :- Consume(ts, name.next, LParen, "");
    var k :- PeekKind(ts, open.next);
    var params :- if k != RParen then ParseParams(ts, open.next) else Ok(Parsed([], open.next));
    var close :- Consume(ts, params.next, RParen, "");
    var body :- ParseBlock(ts, close.next);
    Ok(Parsed(FunctionDecl(name.node.value, params.node, body.node), body.next))
  }

  /** parser.js:154-177: an identifier followed by `=` or by `(`. */
  function ParseAssignmentOrFunctionCall(ts: Tokens, pos: nat): (r: Parse<Stmt>)
    requires pos <= |ts|
    ensures r.Ok? ==> pos < r.value.next <= |ts|
    decreases |ts| - pos, 2
  {
    var name :- Consume(ts, pos, Ident, "");
    var k :- PeekKind(ts, name.next);
    if k == Equals then
      var e :- ParseExpression(ts, name.next + 1);
      var semi :- Consume(ts, e.next, Semicolon, "");
      Ok(Parsed(Assignment(name.node.value, e.node), semi.next))
    else if k == LParen then
      var open := name.next + 1;
      var k' :- PeekKind(ts, open);
      var args :- if k' != RParen then ParseArgs(ts, open) else Ok(Parsed([], open));
      var close :- Consume(ts, args.next, RParen, "");
      var semi :- Consume(ts, close.next, Semicolon, "");
      Ok(Parsed(FunctionCall(name.node.value, args.node), semi.next))
    else
      Err(UnknownExpression(name.node.value))
  }

  /** parser.js:180-186 */
  function ParseAssignment(ts: Tokens, pos: nat): (r: Parse<Stmt>)
    requires pos <= |ts|
    ensures r.Ok? ==> pos < r.value.next <= |ts| && r.value.node.Assignment?
    ensures r.Ok? ==> ts[r.value.next - 1].kind == Semicolon
  {
    var name :- Consume(ts, pos, Ident, "");
    var eq :- Consume(ts, name.next, Equals, "");
    var e :- ParseExpression(ts, eq.next);
    var semi :- Consume(ts, e.next, Semicolon, "");
    Ok(Parsed(Assignment(name.node.value, e.node), semi.next))
  }

  /** parser.js:189-194 */
  function ParseReturn(ts: Tokens, pos: nat): (r: Parse<Stmt>)
    requires pos <= |ts|
    ensures r.Ok? ==> pos < r.value.next <= |ts|
    decreases |ts| - pos, 2
  {
    var kw :- Consume(ts, pos, Keyword, "devolveme");
    var e :- ParseExpression(ts, kw.next);
    var semi :- Consume(ts, e.next, Semicolon, "");
    Ok(Parsed(ReturnStatement(e.node), semi.next))
  }

  /** parser.js:137-141: an identifier, then `, identifier` while a comma follows. */
  function ParseParams(ts: Tokens, pos: nat): (r: Parse<seq<string>>)
    requires pos <= |ts|
    ensures r.Ok? ==> pos < r.value.next <= |ts|
    decreases |ts| - pos
  {
    var first :- Consume(ts, pos, Ident, "");
    var more :- ParseMoreParams(ts, first.next);
    Ok(Parsed([first.node.value] + more.node, more.next))
  }

  function ParseMoreParams(ts: Tokens, pos: nat): (r: Parse<seq<string>>)
    requires pos <= |ts|
    ensures r.Ok? ==> pos <= r.value.next <= |ts|
    decreases |ts| - pos
  {
    var k :- PeekKind(ts, pos);
    if k == Comma then ParseParams(ts, pos + 1)
    else Ok(Parsed([], pos))
  }

  /** parser.js:165-169: an expression, then `, expression` while a comma follows. */
  function ParseArgs(ts: Tokens, pos: nat): (r: Parse<seq<Expr>>)
    requires pos <= |ts|
    ensures r.Ok? ==> pos < r.value.next <= |ts|
    decreases |ts| - pos
  {
    var first :- ParseExpression(ts, pos);
    var more :- ParseMoreArgs(ts, first.next);
    Ok(Parsed([first.node] + more.node, more.next))
  }

  function ParseMoreArgs(ts: Tokens, pos: nat): (r: Parse<seq<Expr>>)
    requires pos <= |ts|
    ensures r.Ok? ==> pos <= r.value.next <= |ts|
    decreases |ts| - pos
  {
    var k :- PeekKind(ts, pos);
    if k == Comma then ParseArgs(ts, pos + 1)
    else Ok(Parsed([], pos))
  }

  // ---------------------------------------------------------------------
  // Expressions
  // ---------------------------------------------------------------------

  /** parser.js:197-199 */
  function ParseExpression(ts: Tokens, pos: nat): (r: Parse<Expr>)
    requires pos <= |ts|
    ensures r.Ok? ==> pos < r.value.next <= |ts|
    decreases |ts| - pos, 2
  {
    ParseBinaryExpression(ts, pos)
  }

  /** parser.js:202-210: a primary, then the operator loop. */
  function ParseBinaryExpression(ts: Tokens, pos: nat): (r: Parse<Expr>)
    requires pos <= |ts|
    ensures r.Ok? ==> pos < r.value.next <= |ts|
    decreases |ts| - pos, 1
  {
    var first :- ParsePrimaryExpression(ts, pos);
    ParseOperators(ts, first.next, first.node)
  }

  /**
    The loop of parser.js:204-208 with `left` as its accumulator: while an
    OPERATOR comes next, it and one more primary extend `left` to the right.
  */
  function ParseOperators(ts: Tokens, pos: nat, left: Expr): (r: Parse<Expr>)
    requires pos <= |ts|
    ensures r.Ok? ==> pos <= r.value.next <= |ts|
    decreases |ts| - pos, 0
  {
    var k :- PeekKind(ts, pos);
    if k == Operator then
      var right :- ParsePrimaryExpression(ts, pos + 1);
      ParseOperators(ts, right.next, BinaryExpression(ts[pos].value, left, right.node))
    else Ok(Parsed(left, pos))
  }

  /**
    parser.js:213-228: a number, a string, an identifier or a parenthesized
    expression, which is returned without a node of its own.
  */
  function ParsePrimaryExpression(ts: Tokens, pos: nat): (r: Parse<Expr>)
    requires pos <= |ts|
    ensures r.Ok? ==> pos < r.value.next <= |ts|
    decreases |ts| - pos, 0
  {
    if pos == |ts| then Err(UnexpectedEnd)
    else
      var t := ts[pos];
      if t.kind == Number then Ok(Parsed(Literal(NumberLit(DigitsToNat(t.value))), pos + 1))
      else if t.kind == Str then Ok(Parsed(Literal(StringLit(t.value)), pos + 1))
      else if t.kind == Ident then Ok(Parsed(Identifier(t.value), pos + 1))
      else if t.kind == LParen then
        var e :- ParseExpression(ts, pos + 1);
        var close :- Consume(ts, e.next, RParen, "");
        Ok(Parsed(e.node, close.next))
      else Err(UnknownPrimary(t))
  }

  /** parser.js:8-14: statements from `pos` until the tokens run out, in order. */
  function ParseProgram(ts: Tokens, pos: nat): (r: Result<seq<Stmt>, ParseError>)
    requires pos <= |ts|
    ensures r.Ok? ==> (r.value == [] <==> pos == |ts|)
    decreases |ts| - pos
  {
    if pos == |ts| then Ok([])
    else
      var s :- ParseStatement(ts, pos);
      var more :- ParseProgram(ts, s.next);
      Ok([s.node] + more)
  }

  /** Puts `pre` in front of the statements of a successful parse. */
  function PrependStmts(pre: seq<Stmt>, r: Result<seq<Stmt>, ParseError>): Result<seq<Stmt>, ParseError> {
    match r
    case Ok(ss) => Ok(pre + ss)
    case Err(e) => Err(e)
  }

  /** The invariant of the loop of `Parse` survives one more statement. */
  lemma ProgramStep(goal: Result<seq<Stmt>, ParseError>, done: seq<Stmt>, ts: Tokens, pos: nat)
    requires pos < |ts| && ParseStatement(ts, pos).Ok?
    requires goal == PrependStmts(done, ParseProgram(ts, pos))
    ensures goal == PrependStmts(done + [ParseStatement(ts, pos).value.node], ParseProgram(ts, ParseStatement(ts, pos).value.next))
  {
    var s := ParseStatement(ts, pos).value;
    var rest := ParseProgram(ts, s.next);
    if rest.Ok? {
      assert (done + [s.node]) + rest.value == done + ([s.node] + rest.value);
    }
  }

  /** parser.js:1-5: the token list and the index of the next token to read. */
  class Parser {
    const tokens: Tokens
    var current: nat

    constructor(tokens: Tokens)
      ensures this.tokens == tokens && current == 0
    {
      this.tokens := tokens;
      current := 0;
    }

    /**
      parser.js:8-14: statements are parsed one after the other until the
      index reaches the end of the tokens; each one starts where the last
      ended, and the first failure ends the parse.
    */
    method Parse() returns (r: Result<seq<Stmt>, ParseError>)
      requires current <= |tokens|
      modifies this
      ensures r == ParseProgram(tokens, old(current))
      ensures r.Ok? ==> current == |tokens|
    {
      var statements: seq<Stmt> := [];
      ghost var goal := ParseProgram(tokens, current);
      assert goal.Ok? ==> [] + goal.value == goal.value;
      while current < |tokens|
        invariant current <= |tokens|
        invariant goal == PrependStmts(statements, ParseProgram(tokens, current))
        decreases |tokens| - current
      {
        var s := ParseStatement(tokens, current);
        if s.Err? {
          return Err(s.error);
        }
        ProgramStep(goal, statements, tokens, current);
        statements := statements + [s.value.node];
        current := s.value.next;
      }
      assert statements + [] == statements;
      r := Ok(statements);
    }
  }
}
