/**
  What the productions of parser.js accept and build, stated on the token
  list: how a statement is chosen from its first tokens, what a primary
  can be, and the shapes of `caramelo`, `alfajor` and `batido`.
*/
module ParserFacts {
  import opened Results
  import opened Lexing
  import opened Ast
  import opened Parsing

  /**
    A statement starts with a keyword or an identifier; any other token,
    and the keyword `chocolate` on its own, is an unknown statement.
  */
  lemma StatementStart(ts: Tokens, pos: nat)
    requires pos <= |ts|
    ensures ParseStatement(ts, pos).Ok? ==> ts[pos].kind == Keyword || ts[pos].kind == Ident
    ensures pos < |ts| && ts[pos].kind != Keyword && ts[pos].kind != Ident ==> ParseStatement(ts, pos) == Err(UnknownStatement(ts[pos]))
    ensures pos < |ts| && ts[pos] == Token(Keyword, "chocolate") ==> ParseStatement(ts, pos) == Err(UnknownStatement(ts[pos]))
  {
  }

  /**
    An identifier at the start of a statement must be followed by `=`,
    giving an assignment to it, or by `(`, giving a call of it.
  */
  lemma IdentifierStatement(ts: Tokens, pos: nat)
    requires pos + 1 < |ts| && ts[pos].kind == Ident
    ensures ts[pos + 1].kind != Equals && ts[pos + 1].kind != LParen ==>
      ParseStatement(ts, pos) == Err(UnknownExpression(ts[pos].value))
    ensures ts[pos + 1].kind == Equals && ParseStatement(ts, pos).Ok? ==>
      ParseStatement(ts, pos).value.node.Assignment? && ParseStatement(ts, pos).value.node.name == ts[pos].value
    ensures ts[pos + 1].kind == LParen && ParseStatement(ts, pos).Ok? ==>
      ParseStatement(ts, pos).value.node.FunctionCall? && ParseStatement(ts, pos).value.node.name == ts[pos].value
  {
  }

  /**
    A primary is a number, a string, an identifier or a parenthesized
    expression; the parentheses leave no node of their own.
  */
  lemma PrimaryShapes(ts: Tokens, pos: nat)
    requires pos < |ts|
    ensures ts[pos].kind == Number ==> ParsePrimaryExpression(ts, pos) == Ok(Parsed(Literal(NumberLit(DigitsToNat(ts[pos].value))), pos + 1))
    ensures ts[pos].kind == Str ==> ParsePrimaryExpression(ts, pos) == Ok(Parsed(Literal(StringLit(ts[pos].value)), pos + 1))
    ensures ts[pos].kind == Ident ==> ParsePrimaryExpression(ts, pos) == Ok(Parsed(Identifier(ts[pos].value), pos + 1))
    ensures ts[pos].kind == LParen && ParsePrimaryExpression(ts, pos).Ok? ==>
      ParseExpression(ts, pos + 1).Ok? && ParsePrimaryExpression(ts, pos).value.node == ParseExpression(ts, pos + 1).value.node
    ensures ts[pos].kind !in {Number, Str, Ident, LParen} ==> ParsePrimaryExpression(ts, pos) == Err(UnknownPrimary(ts[pos]))
  {
  }

  /** `caramelo x;` declares `x` with the literal null. */
  lemma DeclarationWithoutValue(ts: Tokens, pos: nat, x: string)
    requires pos + 3 <= |ts| && ts[pos] == Token(Keyword, "caramelo") && ts[pos + 1] == Token(Ident, x)
    requires ts[pos + 2].kind == Semicolon
    ensures ParseStatement(ts, pos) == Ok(Parsed(VarDecl(x, Literal(NullLit)), pos + 3))
  {
  }

  /**
    After the `then` block, `chocolate` introduces the `else` block; any
    other token leaves the `else` branch empty and unread, and the end of
    the input is an error.
  */
  lemma ElseBranch(ts: Tokens, pos: nat)
    requires pos <= |ts|
    ensures pos == |ts| ==> ParseElse(ts, pos) == Err(UnexpectedEnd)
    ensures pos < |ts| && ts[pos] != Token(Keyword, "chocolate") ==> ParseElse(ts, pos) == Ok(Parsed([], pos))
    ensures pos < |ts| && ts[pos] == Token(Keyword, "chocolate") ==> ParseElse(ts, pos) == ParseBlock(ts, pos + 1)
  {
  }

  /** A `batido` header holds a whole declaration and a whole assignment. */
  lemma ForShape(ts: Tokens, pos: nat)
    requires pos <= |ts|
    ensures ParseForStatement(ts, pos).Ok? ==>
      var s := ParseForStatement(ts, pos).value.node;
      s.ForStatement? && s.initializer.VarDecl? && s.increment.Assignment?
  {
    if ParseForStatement(ts, pos).Ok? {
      var init := ParseVarDecl(ts, pos + 2);
      assert ParseForStatement(ts, pos) == ParseForRest(ts, init.value.next, init.value.node);
    }
  }

  /**
    The increment of a `batido` brings its own `;`, so the header closes
    with `; )`: `batido (caramelo i = 0; i < n; i = i + 1;)`.
  */
  lemma ForHeaderEnd(ts: Tokens, pos: nat, init: Stmt)
    requires pos <= |ts| && ParseForRest(ts, pos, init).Ok?
    ensures ParseExpression(ts, pos).Ok?
    ensures var semi := ParseExpression(ts, pos).value.next;
      semi < |ts| && ts[semi].kind == Semicolon && ParseAssignment(ts, semi + 1).Ok?
    ensures var close := ParseAssignment(ts, ParseExpression(ts, pos).value.next + 1).value.next;
      close < |ts| && ts[close - 1].kind == Semicolon && ts[close].kind == RParen
  {
  }

  /** A program of `n` statements spans at least `n` tokens. */
  lemma {:induction false} ProgramLength(ts: Tokens, pos: nat)
    requires pos <= |ts|
    ensures ParseProgram(ts, pos).Ok? ==> |ParseProgram(ts, pos).value| <= |ts| - pos
    decreases |ts| - pos
  {
    if pos < |ts| {
      var s := ParseStatement(ts, pos);
      if s.Ok? {
        ProgramLength(ts, s.value.next);
      }
    }
  }
}
