/**
  Statements and blocks read back: wherever the tokens of a statement, of a
  run of statements or of a braced block lie, `ParseStatement`,
  `ParseStatements` and `ParseBlock` build exactly that tree and stop right
  after its tokens. A compound statement is read one part at a time: a lemma
  turns the layout of the next part into what its production returns and
  hands the remaining parts on to the next lemma, and a `...Steps` lemma puts
  the parts together the way the production does.
*/
module StatementRoundTrip {
  import opened Results
  import opened Lexing
  import opened Ast
  import opened Parsing
  import opened Unparsing
  import opened RoundTrip

  /** The keyword or identifier in front of a statement selects its production. */
  lemma Dispatch(ts: Tokens, pos: nat)
    requires pos < |ts|
    ensures ts[pos] == Kw("caramelo") ==> ParseStatement(ts, pos) == ParseVarDecl(ts, pos)
    ensures ts[pos] == Kw("alfajor") ==> ParseStatement(ts, pos) == ParseIfStatement(ts, pos)
    ensures ts[pos] == Kw("gomita") ==> ParseStatement(ts, pos) == ParseWhileStatement(ts, pos)
    ensures ts[pos] == Kw("batido") ==> ParseStatement(ts, pos) == ParseForStatement(ts, pos)
    ensures ts[pos] == Kw("torta") ==> ParseStatement(ts, pos) == ParseFunctionDecl(ts, pos)
    ensures ts[pos] == Kw("mostrame") ==> ParseStatement(ts, pos) == ParseMostrame(ts, pos)
    ensures ts[pos] == Kw("devolveme") ==> ParseStatement(ts, pos) == ParseReturn(ts, pos)
    ensures ts[pos].kind == Ident ==> ParseStatement(ts, pos) == ParseAssignmentOrFunctionCall(ts, pos)
  {
  }

  /**
    Every statement reads back through `ParseStatement`: the keyword or
    identifier in front selects the production that builds it.
  */
  lemma {:induction false} StmtRoundTrip(s: Stmt, ts: Tokens, pos: nat)
    requires StmtAt(ts, pos, s)
    ensures ParseStatement(ts, pos) == Ok(Parsed(s, pos + StmtLen(s)))
    decreases s, 9
  {
    StmtFirst(s, ts, pos);
    Dispatch(ts, pos);
    match s
    case WhileStatement(_, _) => WhileRoundTrip(s, ts, pos);
    case IfStatement(_, _, _) => IfRoundTrip(s, ts, pos);
    case FunctionDecl(_, _, _) => FunctionDeclRoundTrip(s, ts, pos);
    case ForStatement(_, _, _, _) => ForRoundTrip(s, ts, pos);
    case Mostrame(_) => MostrameRoundTrip(s, ts, pos);
    case ReturnStatement(_) => ReturnRoundTrip(s, ts, pos);
    case VarDecl(_, _) => VarDeclRoundTrip(s, ts, pos);
    case Assignment(_, _) => AssignmentRoundTrip(s, ts, pos);
    case FunctionCall(_, _) => CallRoundTrip(s, ts, pos);
  }

  /** Statements followed by `}` read back in order, and the `}` is left in place. */
  lemma {:induction false} StatementsRoundTrip(ss: seq<Stmt>, ts: Tokens, pos: nat)
    requires BlockAt(ts, pos, ss) && TokAt(ts, pos + BlockLen(ss), RB)
    ensures ParseStatements(ts, pos) == Ok(Parsed(ss, pos + BlockLen(ss)))
    decreases ss, 0
  {
    if ss != [] {
      StmtFirst(ss[0], ts, pos);
      StmtRoundTrip(ss[0], ts, pos);
      StatementsRoundTrip(ss[1..], ts, pos + StmtLen(ss[0]));
      assert [ss[0]] + ss[1..] == ss;
    }
  }

  /** The statements of a whole token list read back as the program. */
  lemma {:induction false} ProgramRoundTrip(ss: seq<Stmt>, ts: Tokens, pos: nat)
    requires BlockAt(ts, pos, ss) && pos + BlockLen(ss) == |ts|
    ensures ParseProgram(ts, pos) == Ok(ss)
    decreases ss
  {
    if ss != [] {
      StmtFirst(ss[0], ts, pos);
      StmtRoundTrip(ss[0], ts, pos);
      ProgramRoundTrip(ss[1..], ts, pos + StmtLen(ss[0]));
      assert [ss[0]] + ss[1..] == ss;
    }
  }

  /** A braced block reads back as its statements, both braces consumed. */
  lemma {:induction false} BlockRoundTrip(ss: seq<Stmt>, ts: Tokens, pos: nat)
    requires BracedAt(ts, pos, ss)
    ensures ParseBlock(ts, pos) == Ok(Parsed(ss, pos + BlockLen(ss) + 2))
    decreases ss, 1
  {
    StatementsRoundTrip(ss, ts, pos + 1);
  }

  /** How many tokens each compound statement takes, part by part. */
  lemma StmtLenParts(s: Stmt)
    ensures s.WhileStatement? ==> StmtLen(s) == 3 + ExprLen(s.condition) + BlockLen(s.body) + 2
    ensures s.IfStatement? ==> StmtLen(s) == 4 + ExprLen(s.condition) + BlockLen(s.thenBranch) + 2 + BlockLen(s.elseBranch) + 2
    ensures s.FunctionDecl? ==> StmtLen(s) == 4 + NamesLen(s.params) + BlockLen(s.body) + 2
    ensures s.ForStatement? ==> StmtLen(s) == 4 + StmtLen(s.initializer) + ExprLen(s.condition) + StmtLen(s.increment) + BlockLen(s.body) + 2
  {
  }

  // ---------------------------------------------------------------------
  // gomita
  // ---------------------------------------------------------------------

  /** A written `gomita` reads back with its condition and its body. */
  lemma {:induction false} WhileRoundTrip(s: Stmt, ts: Tokens, pos: nat)
    requires s.WhileStatement? && WhileAt(ts, pos, s)
    ensures ParseWhileStatement(ts, pos) == Ok(Parsed(s, pos + StmtLen(s)))
    decreases s, 8
  {
    StmtLenParts(s);
    ExprRoundTrip(s.condition, ts, pos + 2);
    WhileAfterCondition(s, ts, pos, pos + 2 + ExprLen(s.condition));
  }

  /** The condition of a `gomita` has been read and ends at `a`. */
  lemma {:induction false} WhileAfterCondition(s: Stmt, ts: Tokens, pos: nat, a: nat)
    requires s.WhileStatement? && TokAt(ts, pos, Kw("gomita")) && TokAt(ts, pos + 1, LP)
    requires ParseExpression(ts, pos + 2) == Ok(Parsed(s.condition, a))
    requires TokAt(ts, a, RP) && BracedAt(ts, a + 1, s.body)
    ensures ParseWhileStatement(ts, pos) == Ok(Parsed(s, a + 1 + BlockLen(s.body) + 2))
    decreases s, 7
  {
    BlockRoundTrip(s.body, ts, a + 1);
    WhileSteps(ts, pos, s.condition, s.body, a, a + 1 + BlockLen(s.body) + 2);
  }

  /** `gomita (`, a condition, `)` and a block make a `gomita`. */
  lemma WhileSteps(ts: Tokens, pos: nat, c: Expr, body: seq<Stmt>, a: nat, b: nat)
    requires pos + 1 < |ts| && ts[pos] == Kw("gomita") && ts[pos + 1] == LP
    requires ParseExpression(ts, pos + 2) == Ok(Parsed(c, a)) && a < |ts| && ts[a] == RP
    requires ParseBlock(ts, a + 1) == Ok(Parsed(body, b))
    ensures ParseWhileStatement(ts, pos) == Ok(Parsed(WhileStatement(c, body), b))
  {
  }

  // ---------------------------------------------------------------------
  // alfajor
  // ---------------------------------------------------------------------

  /** A written `alfajor` reads back with its condition and both branches. */
  lemma {:induction false} IfRoundTrip(s: Stmt, ts: Tokens, pos: nat)
    requires s.IfStatement? && IfAt(ts, pos, s)
    ensures ParseIfStatement(ts, pos) == Ok(Parsed(s, pos + StmtLen(s)))
    decreases s, 8
  {
    StmtLenParts(s);
    assert pos + StmtLen(s) == pos + 2 + ExprLen(s.condition) + 6 + BlockLen(s.thenBranch) + BlockLen(s.elseBranch);
    ExprRoundTrip(s.condition, ts, pos + 2);
    IfAfterCondition(s, ts, pos, pos + 2 + ExprLen(s.condition));
  }

  /** The condition of an `alfajor` has been read and ends at `a`. */
  lemma {:induction false} IfAfterCondition(s: Stmt, ts: Tokens, pos: nat, a: nat)
    requires s.IfStatement? && TokAt(ts, pos, Kw("alfajor")) && TokAt(ts, pos + 1, LP)
    requires ParseExpression(ts, pos + 2) == Ok(Parsed(s.condition, a))
    requires TokAt(ts, a, RP) && BracedAt(ts, a + 1, s.thenBranch)
    requires TokAt(ts, a + 3 + BlockLen(s.thenBranch), Kw("chocolate"))
    requires BracedAt(ts, a + 4 + BlockLen(s.thenBranch), s.elseBranch)
    ensures ParseIfStatement(ts, pos) == Ok(Parsed(s, a + 6 + BlockLen(s.thenBranch) + BlockLen(s.elseBranch)))
    decreases s, 7
  {
    BlockRoundTrip(s.thenBranch, ts, a + 1);
    IfAfterThen(s, ts, pos, a, a + 3 + BlockLen(s.thenBranch));
  }

  /** The `then` block of an `alfajor` has been read too and ends at `b`. */
  lemma {:induction false} IfAfterThen(s: Stmt, ts: Tokens, pos: nat, a: nat, b: nat)
    requires s.IfStatement? && TokAt(ts, pos, Kw("alfajor")) && TokAt(ts, pos + 1, LP)
    requires ParseExpression(ts, pos + 2) == Ok(Parsed(s.condition, a))
    requires TokAt(ts, a, RP) && ParseBlock(ts, a + 1) == Ok(Parsed(s.thenBranch, b))
    requires TokAt(ts, b, Kw("chocolate")) && BracedAt(ts, b + 1, s.elseBranch)
    ensures ParseIfStatement(ts, pos) == Ok(Parsed(s, b + 1 + BlockLen(s.elseBranch) + 2))
    decreases s, 6
  {
    BlockRoundTrip(s.elseBranch, ts, b + 1);
    ElseStep(ts, b);
    IfSteps(ts, pos, s.condition, s.thenBranch, s.elseBranch, a, b, b + 1 + BlockLen(s.elseBranch) + 2);
  }

  /** After `chocolate` comes the `else` block. */
  lemma ElseStep(ts: Tokens, b: nat)
    requires TokAt(ts, b, Kw("chocolate"))
    ensures ParseElse(ts, b) == ParseBlock(ts, b + 1)
  {
  }

  /** `alfajor (`, a condition, `)`, a block and the `else` part make an `alfajor`. */
  lemma IfSteps(ts: Tokens, pos: nat, c: Expr, t: seq<Stmt>, e: seq<Stmt>, a: nat, b: nat, d: nat)
    requires pos + 1 < |ts| && ts[pos] == Kw("alfajor") && ts[pos + 1] == LP
    requires ParseExpression(ts, pos + 2) == Ok(Parsed(c, a)) && a < |ts| && ts[a] == RP
    requires ParseBlock(ts, a + 1) == Ok(Parsed(t, b))
    requires ParseElse(ts, b) == Ok(Parsed(e, d))
    ensures ParseIfStatement(ts, pos) == Ok(Parsed(IfStatement(c, t, e), d))
  {
  }

  // ---------------------------------------------------------------------
  // torta
  // ---------------------------------------------------------------------

  /** A written `torta` reads back with its name, its parameters and its body. */
  lemma {:induction false} FunctionDeclRoundTrip(s: Stmt, ts: Tokens, pos: nat)
    requires s.FunctionDecl? && FunctionDeclAt(ts, pos, s)
    ensures ParseFunctionDecl(ts, pos) == Ok(Parsed(s, pos + StmtLen(s)))
    decreases s, 8
  {
    StmtLenParts(s);
    FunctionDeclAfterName(s, ts, pos, pos + 3 + NamesLen(s.params));
  }

  /** `torta`, the name and `(` are in place; the parameter list ends at `a`. */
  lemma {:induction false} FunctionDeclAfterName(s: Stmt, ts: Tokens, pos: nat, a: nat)
    requires s.FunctionDecl? && TokAt(ts, pos, Kw("torta")) && TokAt(ts, pos + 1, Name(s.name))
    requires TokAt(ts, pos + 2, LP) && NamesAt(ts, pos + 3, s.params)
    requires a == pos + 3 + NamesLen(s.params) && TokAt(ts, a, RP) && BracedAt(ts, a + 1, s.body)
    ensures ParseFunctionDecl(ts, pos) == Ok(Parsed(s, a + 1 + BlockLen(s.body) + 2))
    decreases s, 7
  {
    ParamListRoundTrip(s.params, ts, pos + 3);
    FunctionDeclAfterParams(s, ts, pos, a);
  }

  /** A parameter list, empty or not, followed by `)`. */
  lemma ParamListRoundTrip(ps: seq<string>, ts: Tokens, p: nat)
    requires NamesAt(ts, p, ps) && TokAt(ts, p + NamesLen(ps), RP)
    ensures p < |ts|
    ensures ps != [] ==> ts[p].kind == Ident && ParseParams(ts, p) == Ok(Parsed(ps, p + NamesLen(ps)))
    ensures ps == [] ==> NamesLen(ps) == 0
  {
    if ps != [] {
      ParamsRoundTrip(ps, ts, p);
    }
  }

  /** The parameters of a `torta` have been read and end at `a`. */
  lemma {:induction false} FunctionDeclAfterParams(s: Stmt, ts: Tokens, pos: nat, a: nat)
    requires s.FunctionDecl? && TokAt(ts, pos, Kw("torta")) && TokAt(ts, pos + 1, Name(s.name))
    requires TokAt(ts, pos + 2, LP) && pos + 3 < |ts|
    requires s.params != [] ==> ts[pos + 3].kind == Ident && ParseParams(ts, pos + 3) == Ok(Parsed(s.params, a))
    requires s.params == [] ==> a == pos + 3
    requires TokAt(ts, a, RP) && BracedAt(ts, a + 1, s.body)
    ensures ParseFunctionDecl(ts, pos) == Ok(Parsed(s, a + 1 + BlockLen(s.body) + 2))
    decreases s, 6
  {
    BlockRoundTrip(s.body, ts, a + 1);
    FunctionDeclSteps(ts, pos, s.name, s.params, s.body, a, a + 1 + BlockLen(s.body) + 2);
  }

  /** `torta`, a name, `(`, the parameters, `)` and a block make a `torta`. */
  lemma FunctionDeclSteps(ts: Tokens, pos: nat, f: string, ps: seq<string>, body: seq<Stmt>, a: nat, b: nat)
    requires pos + 3 < |ts| && ts[pos] == Kw("torta") && ts[pos + 1] == Name(f) && ts[pos + 2] == LP
    requires ps != [] ==> ts[pos + 3].kind == Ident && ParseParams(ts, pos + 3) == Ok(Parsed(ps, a))
    requires ps == [] ==> a == pos + 3
    requires a < |ts| && ts[a] == RP && ParseBlock(ts, a + 1) == Ok(Parsed(body, b))
    ensures ParseFunctionDecl(ts, pos) == Ok(Parsed(FunctionDecl(f, ps, body), b))
  {
  }

  // ---------------------------------------------------------------------
  // batido
  // ---------------------------------------------------------------------

  /** A written `batido` reads back with its four parts. */
  lemma {:induction false} ForRoundTrip(s: Stmt, ts: Tokens, pos: nat)
    requires s.ForStatement? && ForAt(ts, pos, s)
    ensures ParseForStatement(ts, pos) == Ok(Parsed(s, pos + StmtLen(s)))
    decreases s, 8
  {
    StmtLenParts(s);
    assert pos + StmtLen(s) == pos + 2 + StmtLen(s.initializer) + ExprLen(s.condition) + 1 + StmtLen(s.increment) + 1 + BlockLen(s.body) + 2;
    VarDeclRoundTrip(s.initializer, ts, pos + 2);
    ForAfterInit(s, ts, pos, pos + 2 + StmtLen(s.initializer), pos + 2 + StmtLen(s.initializer) + ExprLen(s.condition),
      pos + 2 + StmtLen(s.initializer) + ExprLen(s.condition) + 1 + StmtLen(s.increment));
  }

  /** The initializer of a `batido` has been read and ends at `q`. */
  lemma {:induction false} ForAfterInit(s: Stmt, ts: Tokens, pos: nat, q: nat, a: nat, b: nat)
    requires s.ForStatement? && s.increment.Assignment?
    requires TokAt(ts, pos, Kw("batido")) && TokAt(ts, pos + 1, LP)
    requires ParseVarDecl(ts, pos + 2) == Ok(Parsed(s.initializer, q))
    requires a == q + ExprLen(s.condition) && b == a + 1 + StmtLen(s.increment)
    requires ExprAt(ts, q, s.condition) && TokAt(ts, a, Semi) && StmtAt(ts, a + 1, s.increment)
    requires TokAt(ts, b, RP) && BracedAt(ts, b + 1, s.body)
    ensures ParseForStatement(ts, pos) == Ok(Parsed(s, b + 1 + BlockLen(s.body) + 2))
    decreases s, 6
  {
    ForSteps(ts, pos, s.initializer, q);
    ForRestRoundTrip(s, ts, q, a, b);
  }

  /** `batido (` and a declaration, then the rest of the header. */
  lemma ForSteps(ts: Tokens, pos: nat, init: Stmt, q: nat)
    requires pos + 1 < |ts| && ts[pos] == Kw("batido") && ts[pos + 1] == LP
    requires ParseVarDecl(ts, pos + 2) == Ok(Parsed(init, q))
    ensures ParseForStatement(ts, pos) == ParseForRest(ts, q, init)
  {
  }

  /**
    What follows the initializer of a `batido` reads back: the condition
    from `q` to `a`, the increment up to the `)` at `b`, and the body.
  */
  lemma {:induction false} ForRestRoundTrip(s: Stmt, ts: Tokens, q: nat, a: nat, b: nat)
    requires s.ForStatement? && s.increment.Assignment?
    requires a == q + ExprLen(s.condition) && b == a + 1 + StmtLen(s.increment)
    requires ExprAt(ts, q, s.condition) && TokAt(ts, a, Semi) && StmtAt(ts, a + 1, s.increment)
    requires TokAt(ts, b, RP) && BracedAt(ts, b + 1, s.body)
    ensures q <= |ts|
    ensures ParseForRest(ts, q, s.initializer) == Ok(Parsed(s, b + 1 + BlockLen(s.body) + 2))
    decreases s, 5
  {
    ExprRoundTrip(s.condition, ts, q);
    ForAfterCondition(s, ts, q, a, b);
  }

  /** The condition of a `batido` has been read and ends at `a`. */
  lemma {:induction false} ForAfterCondition(s: Stmt, ts: Tokens, q: nat, a: nat, b: nat)
    requires s.ForStatement? && s.increment.Assignment? && b == a + 1 + StmtLen(s.increment)
    requires q <= |ts| && ParseExpression(ts, q) == Ok(Parsed(s.condition, a))
    requires TokAt(ts, a, Semi) && StmtAt(ts, a + 1, s.increment)
    requires TokAt(ts, b, RP) && BracedAt(ts, b + 1, s.body)
    ensures ParseForRest(ts, q, s.initializer) == Ok(Parsed(s, b + 1 + BlockLen(s.body) + 2))
    decreases s, 4
  {
    AssignmentRoundTrip(s.increment, ts, a + 1);
    ForAfterIncrement(s, ts, q, a, b);
  }

  /** The increment of a `batido` has been read too and ends at `b`. */
  lemma {:induction false} ForAfterIncrement(s: Stmt, ts: Tokens, q: nat, a: nat, b: nat)
    requires s.ForStatement?
    requires q <= |ts| && ParseExpression(ts, q) == Ok(Parsed(s.condition, a))
    requires TokAt(ts, a, Semi) && ParseAssignment(ts, a + 1) == Ok(Parsed(s.increment, b))
    requires TokAt(ts, b, RP) && BracedAt(ts, b + 1, s.body)
    ensures ParseForRest(ts, q, s.initializer) == Ok(Parsed(s, b + 1 + BlockLen(s.body) + 2))
    decreases s, 3
  {
    BlockRoundTrip(s.body, ts, b + 1);
    ForRestSteps(ts, q, s.initializer, s.condition, s.increment, s.body, a, b, b + 1 + BlockLen(s.body) + 2);
  }

  /** A condition, `;`, an assignment, `)` and a block finish a `batido`. */
  lemma ForRestSteps(ts: Tokens, q: nat, init: Stmt, c: Expr, incr: Stmt, body: seq<Stmt>, a: nat, b: nat, d: nat)
    requires q <= |ts| && ParseExpression(ts, q) == Ok(Parsed(c, a)) && a < |ts| && ts[a] == Semi
    requires ParseAssignment(ts, a + 1) == Ok(Parsed(incr, b)) && b < |ts| && ts[b] == RP
    requires ParseBlock(ts, b + 1) == Ok(Parsed(body, d))
    ensures ParseForRest(ts, q, init) == Ok(Parsed(ForStatement(init, c, incr, body), d))
  {
  }

  /** Parsing the token form of a program gives the program back. */
  lemma ProgramTokensRoundTrip(ss: seq<Stmt>)
    requires AllUnparsable(ss)
    ensures ParseProgram(BlockTokens(ss), 0) == Ok(ss)
  {
    var ts := BlockTokens(ss);
    AtWhole(ts);
    BlockTokensAt(ss, ts, 0);
    ProgramRoundTrip(ss, ts, 0);
  }
}
