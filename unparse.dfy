/**
  Token form of a syntax tree: the tokens the parser turns back into that
  very tree. The round-trip lemmas pin down what each production of
  parser.js accepts and builds, including that operator chains associate to
  the left and that parentheses leave no node of their own.
*/
module Unparsing {
  import opened Results
  import opened Lexing
  import opened Ast
  import opened Parsing

  // ---------------------------------------------------------------------
  // Decimal digits
  // ---------------------------------------------------------------------

  function DigitChar(d: nat): (c: char)
    requires d < 10
    ensures IsDigit(c) && DigitValue(c) == d
  {
    ('0' as int + d) as char
  }

  /** The decimal numeral of `n`, without leading zeros. */
  function NatToDigits(n: nat): (s: string)
    ensures |s| > 0 && forall i :: 0 <= i < |s| ==> IsDigit(s[i])
    decreases n
  {
    if n < 10 then [DigitChar(n)] else NatToDigits(n / 10) + [DigitChar(n % 10)]
  }

  /** `Number` of the numeral of `n` is `n` again. */
  lemma {:induction false} DigitsRoundTrip(n: nat)
    ensures DigitsToNat(NatToDigits(n)) == n
    decreases n
  {
    var s := NatToDigits(n);
    if n >= 10 {
      DigitsRoundTrip(n / 10);
      assert s[..|s| - 1] == NatToDigits(n / 10);
    }
  }

  // ---------------------------------------------------------------------
  // Which trees have a token form
  // ---------------------------------------------------------------------

  /** No null literal inside: null has no token of its own. */
  predicate NoNull(e: Expr) {
    match e
    case Literal(v) => !v.NullLit?
    case Identifier(_) => true
    case BinaryExpression(_, l, r) => NoNull(l) && NoNull(r)
  }

  /**
    The shapes the parser builds: expressions without null (except the
    initializer of `caramelo x;`), a `batido` whose initializer is a
    declaration and whose increment is an assignment.
  */
  predicate Unparsable(s: Stmt) {
    match s
    case VarDecl(_, e) => e == Literal(NullLit) || NoNull(e)
    case Assignment(_, e) => NoNull(e)
    case FunctionDecl(_, _, body) => forall i :: 0 <= i < |body| ==> Unparsable(body[i])
    case FunctionCall(_, args) => forall i :: 0 <= i < |args| ==> NoNull(args[i])
    case IfStatement(c, t, e) =>
      NoNull(c) && (forall i :: 0 <= i < |t| ==> Unparsable(t[i])) && (forall i :: 0 <= i < |e| ==> Unparsable(e[i]))
    case WhileStatement(c, body) => NoNull(c) && forall i :: 0 <= i < |body| ==> Unparsable(body[i])
    case ForStatement(init, c, incr, body) =>
      init.VarDecl? && Unparsable(init) && NoNull(c) && incr.Assignment? && NoNull(incr.expr)
      && forall i :: 0 <= i < |body| ==> Unparsable(body[i])
    case Mostrame(e) => NoNull(e)
    case ReturnStatement(e) => NoNull(e)
  }

  predicate AllUnparsable(ss: seq<Stmt>) {
    forall i :: 0 <= i < |ss| ==> Unparsable(ss[i])
  }

  // ---------------------------------------------------------------------
  // Token form
  // ---------------------------------------------------------------------

  function Kw(w: string): Token { Token(Keyword, w) }
  function Name(x: string): Token { Token(Ident, x) }
  const LP := Token(LParen, "(")
  const RP := Token(RParen, ")")
  const LB := Token(LBrace, "{")
  const RB := Token(RBrace, "}")
  const Semi := Token(Semicolon, ";")
  const Eq := Token(Equals, "=")
  const Sep := Token(Comma, ",")

  /** The one token of a literal or an identifier. */
  function AtomToken(e: Expr): Token
    requires NoNull(e) && !e.BinaryExpression?
  {
    if e.Identifier? then Name(e.name)
    else if e.value.NumberLit? then Token(Number, NatToDigits(e.value.n))
    else Token(Str, e.value.s)
  }

  /** A chain written left to right: only a right operand that is itself a chain needs parentheses. */
  function ExprTokens(e: Expr): (u: Tokens)
    requires NoNull(e)
    ensures |u| > 0
    decreases e, 0
  {
    if e.BinaryExpression? then ExprTokens(e.left) + [Token(Operator, e.operator)] + OperandTokens(e.right)
    else [AtomToken(e)]
  }

  function OperandTokens(e: Expr): (u: Tokens)
    requires NoNull(e)
    ensures |u| > 0
    decreases e, 1
  {
    if e.BinaryExpression? then [LP] + ExprTokens(e) + [RP] else ExprTokens(e)
  }

  /** Names separated by commas. */
  function ListTokens(xs: seq<string>): Tokens {
    if xs == [] then [] else [Name(xs[0])] + MoreNameTokens(xs[1..])
  }

  function MoreNameTokens(xs: seq<string>): Tokens {
    if xs == [] then [] else [Sep, Name(xs[0])] + MoreNameTokens(xs[1..])
  }

  /** Expressions separated by commas. */
  function ArgTokens(args: seq<Expr>): Tokens
    requires forall i :: 0 <= i < |args| ==> NoNull(args[i])
  {
    if args == [] then [] else ExprTokens(args[0]) + MoreArgTokens(args[1..])
  }

  function MoreArgTokens(args: seq<Expr>): Tokens
    requires forall i :: 0 <= i < |args| ==> NoNull(args[i])
  {
    if args == [] then [] else [Sep] + ExprTokens(args[0]) + MoreArgTokens(args[1..])
  }

  /**
    The tokens of one statement. An `alfajor` always gets its `chocolate`
    part, even an empty one, so that its end never depends on what follows.
  */
  function StmtTokens(s: Stmt): (u: Tokens)
    requires Unparsable(s)
    ensures |u| > 0 && (u[0].kind == Keyword || u[0].kind == Ident)
    decreases s
  {
    match s
    case VarDecl(x, e) =>
      if e == Literal(NullLit) then [Kw("caramelo"), Name(x), Semi]
      else [Kw("caramelo"), Name(x), Eq] + ExprTokens(e) + [Semi]
    case Assignment(x, e) => [Name(x), Eq] + ExprTokens(e) + [Semi]
    case FunctionDecl(f, ps, body) => [Kw("torta"), Name(f), LP] + ListTokens(ps) + [RP] + Braced(body)
    case FunctionCall(f, args) => [Name(f), LP] + ArgTokens(args) + [RP, Semi]
    case IfStatement(c, t, e) => [Kw("alfajor"), LP] + ExprTokens(c) + [RP] + Braced(t) + [Kw("chocolate")] + Braced(e)
    case WhileStatement(c, body) => [Kw("gomita"), LP] + ExprTokens(c) + [RP] + Braced(body)
    case ForStatement(init, c, incr, body) =>
      [Kw("batido"), LP] + StmtTokens(init) + ExprTokens(c) + [Semi] + StmtTokens(incr) + [RP] + Braced(body)
    case Mostrame(e) => [Kw("mostrame"), LP] + ExprTokens(e) + [RP, Semi]
    case ReturnStatement(e) => [Kw("devolveme")] + ExprTokens(e) + [Semi]
  }

  function Braced(ss: seq<Stmt>): Tokens
    requires AllUnparsable(ss)
    decreases ss, 1
  {
    [LB] + BlockTokens(ss) + [RB]
  }

  /** The statements one after the other. */
  function BlockTokens(ss: seq<Stmt>): Tokens
    requires AllUnparsable(ss)
    decreases ss, 0
  {
    if ss == [] then [] else StmtTokens(ss[0]) + BlockTokens(ss[1..])
  }

  // ---------------------------------------------------------------------
  // Where each piece of a tree lies in a token list
  // ---------------------------------------------------------------------

  /** The number of tokens of a chain, and of a right operand. */
  function ExprLen(e: Expr): nat
    decreases e, 0
  {
    if e.BinaryExpression? then ExprLen(e.left) + 1 + OperandLen(e.right) else 1
  }

  function OperandLen(e: Expr): nat
    decreases e, 1
  {
    if e.BinaryExpression? then ExprLen(e) + 2 else 1
  }

  /** Token `t` is at index `i`. */
  predicate TokAt(ts: Tokens, i: nat, t: Token) {
    i < |ts| && ts[i] == t
  }

  /** The one token of a literal or identifier is at `pos`; null has none. */
  predicate AtomAt(ts: Tokens, pos: nat, e: Expr) {
    match e
    case Identifier(x) => TokAt(ts, pos, Name(x))
    case Literal(NumberLit(n)) => TokAt(ts, pos, Token(Number, NatToDigits(n)))
    case Literal(StringLit(s)) => TokAt(ts, pos, Token(Str, s))
    case _ => false
  }

  /** The tokens of chain `e` start at `pos`. */
  predicate ExprAt(ts: Tokens, pos: nat, e: Expr)
    ensures ExprAt(ts, pos, e) ==> pos + ExprLen(e) <= |ts|
    decreases e, 0
  {
    if e.BinaryExpression? then
      ExprAt(ts, pos, e.left)
      && TokAt(ts, pos + ExprLen(e.left), Token(Operator, e.operator))
      && OperandAt(ts, pos + ExprLen(e.left) + 1, e.right)
    else AtomAt(ts, pos, e)
  }

  /** The tokens of right operand `e` start at `pos`: a chain is parenthesized. */
  predicate OperandAt(ts: Tokens, pos: nat, e: Expr)
    ensures OperandAt(ts, pos, e) ==> pos + OperandLen(e) <= |ts|
    decreases e, 1
  {
    if e.BinaryExpression? then
      TokAt(ts, pos, LP) && ExprAt(ts, pos + 1, e) && TokAt(ts, pos + 1 + ExprLen(e), RP)
    else AtomAt(ts, pos, e)
  }

  /** Parameter names separated by commas. */
  function NamesLen(xs: seq<string>): nat {
    if xs == [] then 0 else 2 * |xs| - 1
  }

  predicate NamesAt(ts: Tokens, pos: nat, xs: seq<string>) {
    xs == [] || (TokAt(ts, pos, Name(xs[0])) && MoreNamesAt(ts, pos + 1, xs[1..]))
  }

  predicate MoreNamesAt(ts: Tokens, pos: nat, xs: seq<string>)
    decreases xs
  {
    xs == [] || (TokAt(ts, pos, Sep) && TokAt(ts, pos + 1, Name(xs[0])) && MoreNamesAt(ts, pos + 2, xs[1..]))
  }

  /** Arguments separated by commas. */
  function ArgsLen(args: seq<Expr>): nat {
    if args == [] then 0 else ExprLen(args[0]) + MoreArgsLen(args[1..])
  }

  function MoreArgsLen(args: seq<Expr>): nat {
    if args == [] then 0 else 1 + ExprLen(args[0]) + MoreArgsLen(args[1..])
  }

  predicate ArgsAt(ts: Tokens, pos: nat, args: seq<Expr>) {
    args == [] || (ExprAt(ts, pos, args[0]) && MoreArgsAt(ts, pos + ExprLen(args[0]), args[1..]))
  }

  predicate MoreArgsAt(ts: Tokens, pos: nat, args: seq<Expr>)
    decreases args
  {
    args == []
    || (TokAt(ts, pos, Sep) && ExprAt(ts, pos + 1, args[0]) && MoreArgsAt(ts, pos + 1 + ExprLen(args[0]), args[1..]))
  }

  /** The number of tokens of a statement, of statements one after the other. */
  function StmtLen(s: Stmt): nat
    decreases s, 0
  {
    match s
    case VarDecl(_, e) => if e == Literal(NullLit) then 3 else 4 + ExprLen(e)
    case Assignment(_, e) => 3 + ExprLen(e)
    case FunctionDecl(_, ps, body) => 4 + NamesLen(ps) + BlockLen(body) + 2
    case FunctionCall(_, args) => 4 + ArgsLen(args)
    case IfStatement(c, t, e) => 4 + ExprLen(c) + BlockLen(t) + 2 + BlockLen(e) + 2
    case WhileStatement(c, body) => 3 + ExprLen(c) + BlockLen(body) + 2
    case ForStatement(init, c, incr, body) => 4 + StmtLen(init) + ExprLen(c) + StmtLen(incr) + BlockLen(body) + 2
    case Mostrame(e) => 4 + ExprLen(e)
    case ReturnStatement(e) => 2 + ExprLen(e)
  }

  function BlockLen(ss: seq<Stmt>): nat
    decreases ss, 1
  {
    if ss == [] then 0 else StmtLen(ss[0]) + BlockLen(ss[1..])
  }

  /**
    The tokens of statement `s` start at `pos`. The layout of each compound
    statement is a predicate of its own.
  */
  predicate StmtAt(ts: Tokens, pos: nat, s: Stmt)
    decreases s, 1
  {
    match s
    case VarDecl(x, e) =>
      TokAt(ts, pos, Kw("caramelo")) && TokAt(ts, pos + 1, Name(x))
      && if e == Literal(NullLit) then TokAt(ts, pos + 2, Semi)
         else TokAt(ts, pos + 2, Eq) && ExprAt(ts, pos + 3, e) && TokAt(ts, pos + 3 + ExprLen(e), Semi)
    case Assignment(x, e) =>
      TokAt(ts, pos, Name(x)) && TokAt(ts, pos + 1, Eq) && ExprAt(ts, pos + 2, e) && TokAt(ts, pos + 2 + ExprLen(e), Semi)
    case FunctionDecl(_, _, _) => FunctionDeclAt(ts, pos, s)
    case FunctionCall(f, args) =>
      TokAt(ts, pos, Name(f)) && TokAt(ts, pos + 1, LP) && ArgsAt(ts, pos + 2, args)
      && TokAt(ts, pos + 2 + ArgsLen(args), RP) && TokAt(ts, pos + 3 + ArgsLen(args), Semi)
    case IfStatement(_, _, _) => IfAt(ts, pos, s)
    case WhileStatement(_, _) => WhileAt(ts, pos, s)
    case ForStatement(_, _, _, _) => ForAt(ts, pos, s)
    case Mostrame(e) =>
      TokAt(ts, pos, Kw("mostrame")) && TokAt(ts, pos + 1, LP) && ExprAt(ts, pos + 2, e)
      && TokAt(ts, pos + 2 + ExprLen(e), RP) && TokAt(ts, pos + 3 + ExprLen(e), Semi)
    case ReturnStatement(e) =>
      TokAt(ts, pos, Kw("devolveme")) && ExprAt(ts, pos + 1, e) && TokAt(ts, pos + 1 + ExprLen(e), Semi)
  }

  /** `torta name ( params ) { body }` */
  predicate FunctionDeclAt(ts: Tokens, pos: nat, s: Stmt)
    requires s.FunctionDecl?
    ensures FunctionDeclAt(ts, pos, s) ==> TokAt(ts, pos, Kw("torta"))
    decreases s, 0
  {
    TokAt(ts, pos, Kw("torta")) && TokAt(ts, pos + 1, Name(s.name)) && TokAt(ts, pos + 2, LP)
    && NamesAt(ts, pos + 3, s.params) && TokAt(ts, pos + 3 + NamesLen(s.params), RP)
    && BracedAt(ts, pos + 4 + NamesLen(s.params), s.body)
  }

  /** `alfajor ( condition ) { then } chocolate { else }` */
  predicate IfAt(ts: Tokens, pos: nat, s: Stmt)
    requires s.IfStatement?
    ensures IfAt(ts, pos, s) ==> TokAt(ts, pos, Kw("alfajor"))
    decreases s, 0
  {
    var c, t := s.condition, s.thenBranch;
    TokAt(ts, pos, Kw("alfajor")) && TokAt(ts, pos + 1, LP) && ExprAt(ts, pos + 2, c)
    && TokAt(ts, pos + 2 + ExprLen(c), RP) && BracedAt(ts, pos + 3 + ExprLen(c), t)
    && TokAt(ts, pos + 5 + ExprLen(c) + BlockLen(t), Kw("chocolate"))
    && BracedAt(ts, pos + 6 + ExprLen(c) + BlockLen(t), s.elseBranch)
  }

  /** `gomita ( condition ) { body }` */
  predicate WhileAt(ts: Tokens, pos: nat, s: Stmt)
    requires s.WhileStatement?
    ensures WhileAt(ts, pos, s) ==> TokAt(ts, pos, Kw("gomita"))
    decreases s, 0
  {
    TokAt(ts, pos, Kw("gomita")) && TokAt(ts, pos + 1, LP) && ExprAt(ts, pos + 2, s.condition)
    && TokAt(ts, pos + 2 + ExprLen(s.condition), RP) && BracedAt(ts, pos + 2 + ExprLen(s.condition) + 1, s.body)
  }

  /**
    `batido ( caramelo x = e ; condition ; y = e ; ) { body }`: the
    initializer and the increment bring their own `;`.
  */
  predicate ForAt(ts: Tokens, pos: nat, s: Stmt)
    requires s.ForStatement?
    ensures ForAt(ts, pos, s) ==> TokAt(ts, pos, Kw("batido"))
    decreases s, 0
  {
    var init, c, incr := s.initializer, s.condition, s.increment;
    init.VarDecl? && incr.Assignment?
    && TokAt(ts, pos, Kw("batido")) && TokAt(ts, pos + 1, LP) && StmtAt(ts, pos + 2, init)
    && ExprAt(ts, pos + 2 + StmtLen(init), c) && TokAt(ts, pos + 2 + StmtLen(init) + ExprLen(c), Semi)
    && StmtAt(ts, pos + 2 + StmtLen(init) + ExprLen(c) + 1, incr)
    && TokAt(ts, pos + 2 + StmtLen(init) + ExprLen(c) + 1 + StmtLen(incr), RP)
    && BracedAt(ts, pos + 2 + StmtLen(init) + ExprLen(c) + 1 + StmtLen(incr) + 1, s.body)
  }

  /** The statements `ss` follow each other from `pos` on. */
  predicate BlockAt(ts: Tokens, pos: nat, ss: seq<Stmt>)
    decreases ss, 1
  {
    ss == [] || (StmtAt(ts, pos, ss[0]) && BlockAt(ts, pos + StmtLen(ss[0]), ss[1..]))
  }

  /** `{`, the statements `ss`, `}`. */
  predicate BracedAt(ts: Tokens, pos: nat, ss: seq<Stmt>)
    decreases ss, 2
  {
    TokAt(ts, pos, LB) && BlockAt(ts, pos + 1, ss) && TokAt(ts, pos + 1 + BlockLen(ss), RB)
  }

  // ---------------------------------------------------------------------
  // A token list that contains a token form has its pieces where the
  // layout predicates say
  // ---------------------------------------------------------------------

  /** From index `pos` on, `ts` reads `u`. */
  predicate At(ts: Tokens, pos: nat, u: Tokens) {
    pos + |u| <= |ts| && Reads(ts, pos, u)
  }

  predicate Reads(ts: Tokens, pos: nat, u: Tokens)
    decreases u
  {
    u == [] || (pos < |ts| && ts[pos] == u[0] && Reads(ts, pos + 1, u[1..]))
  }

  lemma {:induction false} AtSplit(ts: Tokens, pos: nat, a: Tokens, b: Tokens)
    requires At(ts, pos, a + b)
    ensures At(ts, pos, a) && At(ts, pos + |a|, b)
    decreases a
  {
    if a == [] {
      assert a + b == b;
    } else {
      assert (a + b)[1..] == a[1..] + b;
      AtSplit(ts, pos + 1, a[1..], b);
    }
  }

  lemma {:induction false} AtIndex(ts: Tokens, pos: nat, u: Tokens, i: nat)
    requires At(ts, pos, u) && i < |u|
    ensures TokAt(ts, pos + i, u[i])
    decreases i
  {
    if i > 0 {
      AtIndex(ts, pos + 1, u[1..], i - 1);
    }
  }

  /** Reading `a`, one token `t`, then `b`. */
  lemma AtAround(ts: Tokens, pos: nat, a: Tokens, t: Token, b: Tokens)
    requires At(ts, pos, a + [t] + b)
    ensures At(ts, pos, a) && TokAt(ts, pos + |a|, t) && At(ts, pos + |a| + 1, b)
  {
    AtSplit(ts, pos, a + [t], b);
    AtSplit(ts, pos, a, [t]);
    AtIndex(ts, pos + |a|, [t], 0);
  }

  /** The tokens of a chain are laid out as `ExprAt` says, and as many. */
  lemma {:induction false} ExprTokensAt(e: Expr, ts: Tokens, pos: nat)
    requires NoNull(e) && At(ts, pos, ExprTokens(e))
    ensures |ExprTokens(e)| == ExprLen(e) && ExprAt(ts, pos, e)
    decreases e, 0
  {
    if e.BinaryExpression? {
      AtAround(ts, pos, ExprTokens(e.left), Token(Operator, e.operator), OperandTokens(e.right));
      ExprTokensAt(e.left, ts, pos);
      OperandTokensAt(e.right, ts, pos + |ExprTokens(e.left)| + 1);
    } else {
      AtIndex(ts, pos, ExprTokens(e), 0);
    }
  }

  lemma {:induction false} OperandTokensAt(e: Expr, ts: Tokens, pos: nat)
    requires NoNull(e) && At(ts, pos, OperandTokens(e))
    ensures |OperandTokens(e)| == OperandLen(e) && OperandAt(ts, pos, e)
    decreases e, 1
  {
    if e.BinaryExpression? {
      var u := ExprTokens(e);
      AtSplit(ts, pos, [LP] + u, [RP]);
      AtSplit(ts, pos, [LP], u);
      AtIndex(ts, pos, [LP], 0);
      AtIndex(ts, pos + 1 + |u|, [RP], 0);
      ExprTokensAt(e, ts, pos + 1);
    } else {
      ExprTokensAt(e, ts, pos);
    }
  }

  /** One, two or three tokens read where `At` puts them. */
  lemma AtOne(ts: Tokens, pos: nat, t: Token)
    requires At(ts, pos, [t])
    ensures TokAt(ts, pos, t)
  {
    AtIndex(ts, pos, [t], 0);
  }

  lemma AtTwo(ts: Tokens, pos: nat, t0: Token, t1: Token)
    requires At(ts, pos, [t0, t1])
    ensures TokAt(ts, pos, t0) && TokAt(ts, pos + 1, t1)
  {
    AtIndex(ts, pos, [t0, t1], 0);
    AtIndex(ts, pos, [t0, t1], 1);
  }

  lemma AtTriple(ts: Tokens, pos: nat, t0: Token, t1: Token, t2: Token)
    requires At(ts, pos, [t0, t1, t2])
    ensures TokAt(ts, pos, t0) && TokAt(ts, pos + 1, t1) && TokAt(ts, pos + 2, t2)
  {
    AtIndex(ts, pos, [t0, t1, t2], 0);
    AtIndex(ts, pos, [t0, t1, t2], 1);
    AtIndex(ts, pos, [t0, t1, t2], 2);
  }

  /** Reading `a`, then `b`, then `c`. */
  lemma AtThree(ts: Tokens, pos: nat, a: Tokens, b: Tokens, c: Tokens)
    requires At(ts, pos, a + b + c)
    ensures At(ts, pos, a) && At(ts, pos + |a|, b) && At(ts, pos + |a| + |b|, c)
  {
    AtSplit(ts, pos, a + b, c);
    AtSplit(ts, pos, a, b);
  }

  // ---------------------------------------------------------------------
  // The token form of a tree is laid out as the layout predicates say
  // ---------------------------------------------------------------------

  lemma {:induction false} MoreNameTokensAt(xs: seq<string>, ts: Tokens, pos: nat)
    requires At(ts, pos, MoreNameTokens(xs))
    ensures |MoreNameTokens(xs)| == 2 * |xs| && MoreNamesAt(ts, pos, xs)
    decreases xs
  {
    if xs != [] {
      AtSplit(ts, pos, [Sep, Name(xs[0])], MoreNameTokens(xs[1..]));
      AtTwo(ts, pos, Sep, Name(xs[0]));
      MoreNameTokensAt(xs[1..], ts, pos + 2);
    }
  }

  lemma ListTokensAt(xs: seq<string>, ts: Tokens, pos: nat)
    requires At(ts, pos, ListTokens(xs))
    ensures |ListTokens(xs)| == NamesLen(xs) && NamesAt(ts, pos, xs)
  {
    if xs != [] {
      AtSplit(ts, pos, [Name(xs[0])], MoreNameTokens(xs[1..]));
      AtOne(ts, pos, Name(xs[0]));
      MoreNameTokensAt(xs[1..], ts, pos + 1);
    }
  }

  lemma {:induction false} MoreArgTokensAt(args: seq<Expr>, ts: Tokens, pos: nat)
    requires forall i :: 0 <= i < |args| ==> NoNull(args[i])
    requires At(ts, pos, MoreArgTokens(args))
    ensures |MoreArgTokens(args)| == MoreArgsLen(args) && MoreArgsAt(ts, pos, args)
    decreases args
  {
    if args != [] {
      var e := ExprTokens(args[0]);
      AtThree(ts, pos, [Sep], e, MoreArgTokens(args[1..]));
      AtOne(ts, pos, Sep);
      ExprTokensAt(args[0], ts, pos + 1);
      MoreArgTokensAt(args[1..], ts, pos + 1 + |e|);
    }
  }

  lemma ArgTokensAt(args: seq<Expr>, ts: Tokens, pos: nat)
    requires forall i :: 0 <= i < |args| ==> NoNull(args[i])
    requires At(ts, pos, ArgTokens(args))
    ensures |ArgTokens(args)| == ArgsLen(args) && ArgsAt(ts, pos, args)
  {
    if args != [] {
      AtSplit(ts, pos, ExprTokens(args[0]), MoreArgTokens(args[1..]));
      ExprTokensAt(args[0], ts, pos);
      MoreArgTokensAt(args[1..], ts, pos + |ExprTokens(args[0])|);
    }
  }

  /** The tokens of a statement are laid out as `StmtAt` says, and there are `StmtLen` of them. */
  lemma {:induction false} StmtTokensAt(s: Stmt, ts: Tokens, pos: nat)
    requires Unparsable(s) && At(ts, pos, StmtTokens(s))
    ensures |StmtTokens(s)| == StmtLen(s) && StmtAt(ts, pos, s)
    decreases s, 1
  {
    match s
    case VarDecl(_, _) => VarDeclTokensAt(s, ts, pos);
    case Assignment(_, _) => AssignmentTokensAt(s, ts, pos);
    case FunctionCall(_, _) => CallTokensAt(s, ts, pos);
    case Mostrame(_) => MostrameTokensAt(s, ts, pos);
    case ReturnStatement(_) => ReturnTokensAt(s, ts, pos);
    case FunctionDecl(_, _, _) => FunctionDeclTokensAt(s, ts, pos);
    case IfStatement(_, _, _) => IfTokensAt(s, ts, pos);
    case WhileStatement(_, _) => WhileTokensAt(s, ts, pos);
    case ForStatement(_, _, _, _) => ForTokensAt(s, ts, pos);
  }

  lemma VarDeclTokensAt(s: Stmt, ts: Tokens, pos: nat)
    requires s.VarDecl? && Unparsable(s) && At(ts, pos, StmtTokens(s))
    ensures |StmtTokens(s)| == StmtLen(s) && StmtAt(ts, pos, s)
  {
    var x, e := s.name, s.expr;
    if e == Literal(NullLit) {
      AtTriple(ts, pos, Kw("caramelo"), Name(x), Semi);
    } else {
      AtThree(ts, pos, [Kw("caramelo"), Name(x), Eq], ExprTokens(e), [Semi]);
      AtTriple(ts, pos, Kw("caramelo"), Name(x), Eq);
      AtOne(ts, pos + 3 + |ExprTokens(e)|, Semi);
      ExprTokensAt(e, ts, pos + 3);
    }
  }

  lemma AssignmentTokensAt(s: Stmt, ts: Tokens, pos: nat)
    requires s.Assignment? && Unparsable(s) && At(ts, pos, StmtTokens(s))
    ensures |StmtTokens(s)| == StmtLen(s) && StmtAt(ts, pos, s)
  {
    var x, e := s.name, s.expr;
    AtThree(ts, pos, [Name(x), Eq], ExprTokens(e), [Semi]);
    AtTwo(ts, pos, Name(x), Eq);
    AtOne(ts, pos + 2 + |ExprTokens(e)|, Semi);
    ExprTokensAt(e, ts, pos + 2);
  }

  lemma CallTokensAt(s: Stmt, ts: Tokens, pos: nat)
    requires s.FunctionCall? && Unparsable(s) && At(ts, pos, StmtTokens(s))
    ensures |StmtTokens(s)| == StmtLen(s) && StmtAt(ts, pos, s)
  {
    var f, args := s.name, s.args;
    AtThree(ts, pos, [Name(f), LP], ArgTokens(args), [RP, Semi]);
    AtTwo(ts, pos, Name(f), LP);
    AtTwo(ts, pos + 2 + |ArgTokens(args)|, RP, Semi);
    ArgTokensAt(args, ts, pos + 2);
  }

  lemma MostrameTokensAt(s: Stmt, ts: Tokens, pos: nat)
    requires s.Mostrame? && Unparsable(s) && At(ts, pos, StmtTokens(s))
    ensures |StmtTokens(s)| == StmtLen(s) && StmtAt(ts, pos, s)
  {
    var e := s.expr;
    AtThree(ts, pos, [Kw("mostrame"), LP], ExprTokens(e), [RP, Semi]);
    AtTwo(ts, pos, Kw("mostrame"), LP);
    AtTwo(ts, pos + 2 + |ExprTokens(e)|, RP, Semi);
    ExprTokensAt(e, ts, pos + 2);
  }

  lemma ReturnTokensAt(s: Stmt, ts: Tokens, pos: nat)
    requires s.ReturnStatement? && Unparsable(s) && At(ts, pos, StmtTokens(s))
    ensures |StmtTokens(s)| == StmtLen(s) && StmtAt(ts, pos, s)
  {
    var e := s.expr;
    AtThree(ts, pos, [Kw("devolveme")], ExprTokens(e), [Semi]);
    AtOne(ts, pos, Kw("devolveme"));
    AtOne(ts, pos + 1 + |ExprTokens(e)|, Semi);
    ExprTokensAt(e, ts, pos + 1);
  }

  lemma {:induction false} FunctionDeclTokensAt(s: Stmt, ts: Tokens, pos: nat)
    requires s.FunctionDecl? && Unparsable(s) && At(ts, pos, StmtTokens(s))
    ensures |StmtTokens(s)| == StmtLen(s) && FunctionDeclAt(ts, pos, s)
    decreases s, 0
  {
    var head, ps := [Kw("torta"), Name(s.name), LP], ListTokens(s.params);
    AtSplit(ts, pos, head + ps + [RP], Braced(s.body));
    AtThree(ts, pos, head, ps, [RP]);
    AtTriple(ts, pos, Kw("torta"), Name(s.name), LP);
    AtOne(ts, pos + 3 + |ps|, RP);
    ListTokensAt(s.params, ts, pos + 3);
    BracedTokensAt(s.body, ts, pos + 4 + |ps|);
  }

  lemma {:induction false} WhileTokensAt(s: Stmt, ts: Tokens, pos: nat)
    requires s.WhileStatement? && Unparsable(s) && At(ts, pos, StmtTokens(s))
    ensures |StmtTokens(s)| == StmtLen(s) && WhileAt(ts, pos, s)
    decreases s, 0
  {
    var head, c := [Kw("gomita"), LP], ExprTokens(s.condition);
    AtSplit(ts, pos, head + c + [RP], Braced(s.body));
    AtThree(ts, pos, head, c, [RP]);
    AtTwo(ts, pos, Kw("gomita"), LP);
    AtOne(ts, pos + 2 + |c|, RP);
    ExprTokensAt(s.condition, ts, pos + 2);
    BracedTokensAt(s.body, ts, pos + 2 + |c| + 1);
  }

  lemma {:induction false} IfTokensAt(s: Stmt, ts: Tokens, pos: nat)
    requires s.IfStatement? && Unparsable(s) && At(ts, pos, StmtTokens(s))
    ensures |StmtTokens(s)| == StmtLen(s) && IfAt(ts, pos, s)
    decreases s, 0
  {
    var c, t := ExprTokens(s.condition), Braced(s.thenBranch);
    IfPieces(ts, pos, c, t, Braced(s.elseBranch));
    ExprTokensAt(s.condition, ts, pos + 2);
    BracedTokensAt(s.thenBranch, ts, pos + 3 + |c|);
    BracedTokensAt(s.elseBranch, ts, pos + 4 + |c| + |t|);
  }

  /** Where the parts of a written `alfajor` lie. */
  lemma IfPieces(ts: Tokens, pos: nat, c: Tokens, t: Tokens, e: Tokens)
    requires At(ts, pos, [Kw("alfajor"), LP] + c + [RP] + t + [Kw("chocolate")] + e)
    ensures TokAt(ts, pos, Kw("alfajor")) && TokAt(ts, pos + 1, LP) && At(ts, pos + 2, c)
    ensures TokAt(ts, pos + 2 + |c|, RP) && At(ts, pos + 3 + |c|, t)
    ensures TokAt(ts, pos + 3 + |c| + |t|, Kw("chocolate")) && At(ts, pos + 4 + |c| + |t|, e)
  {
    var head := [Kw("alfajor"), LP];
    AtThree(ts, pos, head + c + [RP] + t, [Kw("chocolate")], e);
    AtSplit(ts, pos, head + c + [RP], t);
    AtThree(ts, pos, head, c, [RP]);
    AtTwo(ts, pos, Kw("alfajor"), LP);
    AtOne(ts, pos + 2 + |c|, RP);
    AtOne(ts, pos + 3 + |c| + |t|, Kw("chocolate"));
  }

  lemma {:induction false} ForTokensAt(s: Stmt, ts: Tokens, pos: nat)
    requires s.ForStatement? && Unparsable(s) && At(ts, pos, StmtTokens(s))
    ensures |StmtTokens(s)| == StmtLen(s) && ForAt(ts, pos, s)
    decreases s, 0
  {
    var i, c, n := StmtTokens(s.initializer), ExprTokens(s.condition), StmtTokens(s.increment);
    ForPieces(ts, pos, i, c, n, Braced(s.body));
    VarDeclTokensAt(s.initializer, ts, pos + 2);
    var p := pos + 2 + StmtLen(s.initializer);
    ExprTokensAt(s.condition, ts, p);
    var q := p + ExprLen(s.condition) + 1;
    AssignmentTokensAt(s.increment, ts, q);
    BracedTokensAt(s.body, ts, q + StmtLen(s.increment) + 1);
  }

  /** Where the parts of a written `batido` lie. */
  lemma ForPieces(ts: Tokens, pos: nat, i: Tokens, c: Tokens, n: Tokens, b: Tokens)
    requires At(ts, pos, [Kw("batido"), LP] + i + c + [Semi] + n + [RP] + b)
    ensures TokAt(ts, pos, Kw("batido")) && TokAt(ts, pos + 1, LP)
    ensures At(ts, pos + 2, i) && At(ts, pos + 2 + |i|, c) && TokAt(ts, pos + 2 + |i| + |c|, Semi)
    ensures At(ts, pos + 2 + |i| + |c| + 1, n) && TokAt(ts, pos + 2 + |i| + |c| + 1 + |n|, RP)
    ensures At(ts, pos + 2 + |i| + |c| + 1 + |n| + 1, b)
  {
    var head := [Kw("batido"), LP];
    AtThree(ts, pos, head + i + c + [Semi] + n, [RP], b);
    AtThree(ts, pos, head + i + c, [Semi], n);
    AtThree(ts, pos, head, i, c);
    AtTwo(ts, pos, Kw("batido"), LP);
    AtOne(ts, pos + 2 + |i| + |c|, Semi);
    AtOne(ts, pos + 2 + |i| + |c| + 1 + |n|, RP);
  }

  /** Statements one after the other are laid out as `BlockAt` says. */
  lemma {:induction false} BlockTokensAt(ss: seq<Stmt>, ts: Tokens, pos: nat)
    requires AllUnparsable(ss) && At(ts, pos, BlockTokens(ss))
    ensures |BlockTokens(ss)| == BlockLen(ss) && BlockAt(ts, pos, ss)
    decreases ss, 1
  {
    if ss != [] {
      AtSplit(ts, pos, StmtTokens(ss[0]), BlockTokens(ss[1..]));
      StmtTokensAt(ss[0], ts, pos);
      BlockTokensAt(ss[1..], ts, pos + |StmtTokens(ss[0])|);
    }
  }

  lemma {:induction false} BracedTokensAt(ss: seq<Stmt>, ts: Tokens, pos: nat)
    requires AllUnparsable(ss) && At(ts, pos, Braced(ss))
    ensures |Braced(ss)| == BlockLen(ss) + 2 && BracedAt(ts, pos, ss)
    decreases ss, 2
  {
    AtThree(ts, pos, [LB], BlockTokens(ss), [RB]);
    AtOne(ts, pos, LB);
    AtOne(ts, pos + 1 + |BlockTokens(ss)|, RB);
    BlockTokensAt(ss, ts, pos + 1);
  }

  /** A token list reads itself from any index on. */
  lemma {:induction false} AtSuffix(ts: Tokens, pos: nat)
    requires pos <= |ts|
    ensures At(ts, pos, ts[pos..])
    decreases |ts| - pos
  {
    if pos < |ts| {
      AtSuffix(ts, pos + 1);
      assert ts[pos..][1..] == ts[pos + 1..];
    }
  }

  lemma AtWhole(ts: Tokens)
    ensures At(ts, 0, ts)
  {
    AtSuffix(ts, 0);
    assert ts[0..] == ts;
  }
}
