/**
  What the productions of parser.js read: wherever the tokens of a tree lie,
  the production for it builds that very tree and stops right after them.
  The lemmas work on the layout predicates of `Unparsing`, one production
  at a time.
*/
module RoundTrip {
  import opened Results
  import opened Lexing
  import opened Ast
  import opened Parsing
  import opened Unparsing

  // ---------------------------------------------------------------------
  // Expressions
  // ---------------------------------------------------------------------

  /** One pass of the operator loop: an operator, then one primary. */
  lemma OperatorStep(ts: Tokens, pos: nat, left: Expr, right: Expr, next: nat)
    requires pos < |ts| && ts[pos].kind == Operator
    requires ParsePrimaryExpression(ts, pos + 1) == Ok(Parsed(right, next))
    ensures ParseOperators(ts, pos, left) == ParseOperators(ts, next, BinaryExpression(ts[pos].value, left, right))
  {
  }

  /** The operator loop starts from the first primary. */
  lemma BinaryStep(ts: Tokens, pos: nat, first: Expr, next: nat)
    requires pos <= |ts| && ParsePrimaryExpression(ts, pos) == Ok(Parsed(first, next))
    ensures ParseBinaryExpression(ts, pos) == ParseOperators(ts, next, first)
  {
  }

  /** A literal or an identifier is one token. */
  lemma AtomRoundTrip(e: Expr, ts: Tokens, pos: nat)
    requires AtomAt(ts, pos, e)
    ensures ParsePrimaryExpression(ts, pos) == Ok(Parsed(e, pos + 1))
  {
    if e.Literal? && e.value.NumberLit? {
      DigitsRoundTrip(e.value.n);
    }
  }

  /** A parenthesized chain is one primary, with no node of its own. */
  lemma ParenStep(e: Expr, ts: Tokens, pos: nat, close: nat)
    requires pos < close < |ts| && ts[pos].kind == LParen && ts[close].kind == RParen
    requires ParseBinaryExpression(ts, pos + 1) == ParseOperators(ts, close, e)
    ensures ParsePrimaryExpression(ts, pos) == Ok(Parsed(e, close + 1))
  {
  }

  /**
    A chain's tokens are read by the primary-then-operators loop, which is
    left holding the whole chain as its accumulator.
  */
  lemma {:induction false} ChainRoundTrip(e: Expr, ts: Tokens, pos: nat)
    requires ExprAt(ts, pos, e)
    ensures ParseBinaryExpression(ts, pos) == ParseOperators(ts, pos + ExprLen(e), e)
    decreases e, 0
  {
    if e.BinaryExpression? {
      var q := pos + ExprLen(e.left);
      assert TokAt(ts, q, Token(Operator, e.operator)) && OperandAt(ts, q + 1, e.right);
      assert pos + ExprLen(e) == q + 1 + OperandLen(e.right);
      ChainRoundTrip(e.left, ts, pos);
      OperandTail(e.operator, e.left, e.right, ts, q);
    } else {
      AtomRoundTrip(e, ts, pos);
      BinaryStep(ts, pos, e, pos + 1);
    }
  }

  /** An operator and its right operand extend the chain read so far. */
  lemma {:induction false} OperandTail(op: string, left: Expr, right: Expr, ts: Tokens, pos: nat)
    requires TokAt(ts, pos, Token(Operator, op)) && OperandAt(ts, pos + 1, right)
    ensures ParseOperators(ts, pos, left)
         == ParseOperators(ts, pos + 1 + OperandLen(right), BinaryExpression(op, left, right))
    decreases right, 2
  {
    OperandRoundTrip(right, ts, pos + 1);
    OperatorStep(ts, pos, left, right, pos + 1 + OperandLen(right));
  }

  /** A right operand is one primary: a single token or a parenthesized chain. */
  lemma {:induction false} OperandRoundTrip(e: Expr, ts: Tokens, pos: nat)
    requires OperandAt(ts, pos, e)
    ensures ParsePrimaryExpression(ts, pos) == Ok(Parsed(e, pos + OperandLen(e)))
    decreases e, 1
  {
    if e.BinaryExpression? {
      ChainRoundTrip(e, ts, pos + 1);
      ParenStep(e, ts, pos, pos + 1 + ExprLen(e));
    } else {
      AtomRoundTrip(e, ts, pos);
    }
  }

  /** An expression followed by a token that is not an operator parses back to itself. */
  lemma ExprRoundTrip(e: Expr, ts: Tokens, pos: nat)
    requires ExprAt(ts, pos, e)
    requires pos + ExprLen(e) < |ts| && ts[pos + ExprLen(e)].kind != Operator
    ensures ParseExpression(ts, pos) == Ok(Parsed(e, pos + ExprLen(e)))
  {
    ChainRoundTrip(e, ts, pos);
  }

  /**
    `a op1 b op2 c` groups as `(a op1 b) op2 c`, whatever the operators:
    there is no precedence.
  */
  lemma LeftAssociative(ts: Tokens, pos: nat, a: string, op1: string, b: string, op2: string, c: string)
    requires pos + 5 < |ts| && ts[pos + 5].kind != Operator
    requires ts[pos] == Name(a) && ts[pos + 1] == Token(Operator, op1) && ts[pos + 2] == Name(b)
    requires ts[pos + 3] == Token(Operator, op2) && ts[pos + 4] == Name(c)
    ensures ParseExpression(ts, pos)
         == Ok(Parsed(BinaryExpression(op2, BinaryExpression(op1, Identifier(a), Identifier(b)), Identifier(c)), pos + 5))
  {
    var ab := BinaryExpression(op1, Identifier(a), Identifier(b));
    var e := BinaryExpression(op2, ab, Identifier(c));
    assert ExprLen(ab) == 3 && ExprLen(e) == 5;
    assert OperandAt(ts, pos + 2, Identifier(b)) && OperandAt(ts, pos + 4, Identifier(c));
    assert ExprAt(ts, pos, ab);
    assert ExprAt(ts, pos, e);
    ExprRoundTrip(e, ts, pos);
  }

  /** An expression starts with a literal or an identifier, never with `(`. */
  lemma {:induction false} ExprFirst(e: Expr, ts: Tokens, pos: nat)
    requires ExprAt(ts, pos, e)
    ensures pos < |ts| && (ts[pos].kind == Ident || ts[pos].kind == Number || ts[pos].kind == Str)
    decreases e
  {
    if e.BinaryExpression? {
      ExprFirst(e.left, ts, pos);
    }
  }

  // ---------------------------------------------------------------------
  // Parameter and argument lists
  // ---------------------------------------------------------------------

  /** Names separated by commas, closed by `)`. */
  lemma {:induction false} ParamsRoundTrip(xs: seq<string>, ts: Tokens, pos: nat)
    requires xs != [] && NamesAt(ts, pos, xs) && TokAt(ts, pos + NamesLen(xs), RP)
    ensures ParseParams(ts, pos) == Ok(Parsed(xs, pos + NamesLen(xs)))
    decreases xs, 0
  {
    MoreParamsRoundTrip(xs[1..], ts, pos + 1);
    assert [xs[0]] + xs[1..] == xs;
  }

  lemma {:induction false} MoreParamsRoundTrip(xs: seq<string>, ts: Tokens, pos: nat)
    requires MoreNamesAt(ts, pos, xs) && TokAt(ts, pos + 2 * |xs|, RP)
    ensures ParseMoreParams(ts, pos) == Ok(Parsed(xs, pos + 2 * |xs|))
    decreases xs, 1
  {
    if xs != [] {
      ParamsRoundTrip(xs, ts, pos + 1);
    }
  }

  /** Expressions separated by commas, closed by `)`. */
  lemma {:induction false} ArgsRoundTrip(args: seq<Expr>, ts: Tokens, pos: nat)
    requires args != [] && ArgsAt(ts, pos, args) && TokAt(ts, pos + ArgsLen(args), RP)
    ensures ParseArgs(ts, pos) == Ok(Parsed(args, pos + ArgsLen(args)))
    decreases args, 0
  {
    var q := pos + ExprLen(args[0]);
    MoreArgsFirst(args[1..], ts, q);
    ExprRoundTrip(args[0], ts, pos);
    MoreArgsRoundTrip(args[1..], ts, q);
    assert [args[0]] + args[1..] == args;
  }

  lemma {:induction false} MoreArgsRoundTrip(args: seq<Expr>, ts: Tokens, pos: nat)
    requires MoreArgsAt(ts, pos, args) && TokAt(ts, pos + MoreArgsLen(args), RP)
    ensures ParseMoreArgs(ts, pos) == Ok(Parsed(args, pos + MoreArgsLen(args)))
    decreases args, 1
  {
    if args != [] {
      ArgsRoundTrip(args, ts, pos + 1);
    }
  }

  /** What follows an argument is a comma or the closing `)`. */
  lemma MoreArgsFirst(args: seq<Expr>, ts: Tokens, pos: nat)
    requires MoreArgsAt(ts, pos, args) && TokAt(ts, pos + MoreArgsLen(args), RP)
    ensures pos < |ts| && (ts[pos].kind == Comma || ts[pos].kind == RParen)
  {
  }

  // ---------------------------------------------------------------------
  // Statements
  // ---------------------------------------------------------------------

  lemma MostrameRoundTrip(s: Stmt, ts: Tokens, pos: nat)
    requires s.Mostrame? && StmtAt(ts, pos, s)
    ensures ParseMostrame(ts, pos) == Ok(Parsed(s, pos + StmtLen(s)))
  {
    ExprRoundTrip(s.expr, ts, pos + 2);
  }

  lemma ReturnRoundTrip(s: Stmt, ts: Tokens, pos: nat)
    requires s.ReturnStatement? && StmtAt(ts, pos, s)
    ensures ParseReturn(ts, pos) == Ok(Parsed(s, pos + StmtLen(s)))
  {
    ExprRoundTrip(s.expr, ts, pos + 1);
  }

  lemma VarDeclRoundTrip(s: Stmt, ts: Tokens, pos: nat)
    requires s.VarDecl? && StmtAt(ts, pos, s)
    ensures ParseVarDecl(ts, pos) == Ok(Parsed(s, pos + StmtLen(s)))
  {
    if s.expr != Literal(NullLit) {
      ExprRoundTrip(s.expr, ts, pos + 3);
    }
  }

  lemma AssignmentRoundTrip(s: Stmt, ts: Tokens, pos: nat)
    requires s.Assignment? && StmtAt(ts, pos, s)
    ensures ParseAssignment(ts, pos) == Ok(Parsed(s, pos + StmtLen(s)))
    ensures ParseAssignmentOrFunctionCall(ts, pos) == Ok(Parsed(s, pos + StmtLen(s)))
  {
    ExprRoundTrip(s.expr, ts, pos + 2);
  }

  lemma CallRoundTrip(s: Stmt, ts: Tokens, pos: nat)
    requires s.FunctionCall? && StmtAt(ts, pos, s)
    ensures ParseAssignmentOrFunctionCall(ts, pos) == Ok(Parsed(s, pos + StmtLen(s)))
  {
    CallTokensRoundTrip(s.name, s.args, ts, pos);
  }

  /** A name, `(`, the arguments, `)` and `;` parse back to the call. */
  lemma CallTokensRoundTrip(f: string, args: seq<Expr>, ts: Tokens, pos: nat)
    requires TokAt(ts, pos, Name(f)) && TokAt(ts, pos + 1, LP) && ArgsAt(ts, pos + 2, args)
    requires TokAt(ts, pos + 2 + ArgsLen(args), RP) && TokAt(ts, pos + 3 + ArgsLen(args), Semi)
    ensures ParseAssignmentOrFunctionCall(ts, pos) == Ok(Parsed(FunctionCall(f, args), pos + 4 + ArgsLen(args)))
  {
    if args != [] {
      ExprFirst(args[0], ts, pos + 2);
      ArgsRoundTrip(args, ts, pos + 2);
    }
  }

  /** A statement starts with a keyword or an identifier, never with `}`. */
  lemma StmtFirst(s: Stmt, ts: Tokens, pos: nat)
    requires StmtAt(ts, pos, s)
    ensures pos < |ts| && (ts[pos].kind == Keyword || ts[pos].kind == Ident)
  {
  }
}
