/**
  The semantic analyzer of semanticAnalyzer.js: one in-order walk over the
  statements with a single table from names to symbol information. The
  walk is specified by `CheckStmt` and `CheckBlock`; the class
  `SemanticAnalyzer` keeps the source's `symbolTable` field and is proved
  to change it exactly as they say.
*/
module Semantic {
  import opened Results
  import opened Ast

  /** What the table records for a name: `null` for a variable, `{type: 'function', params}` for a function. */
  datatype SymbolInfo = Variable | FunctionInfo(params: seq<string>)

  type Table = map<string, SymbolInfo>

  /**
    The four errors the walk raises. A call of a name bound to a variable
    fails in the source by reading `.type` of `null`; it is the same
    failure as a call of an unknown name here.
  */
  datatype SemanticError =
    | VariableRedeclared(name: string)
    | UndeclaredVariable(name: string)
    | FunctionRedeclared(name: string)
    | UndeclaredFunction(name: string)

  /**
    Where a walk stops: the table as it is then and the error that stopped
    it, if any. The source mutates the table in place, so what an earlier
    statement added stays there when a later one throws.
  */
  datatype Checked = Checked(table: Table, error: Option<SemanticError>)

  /** semanticAnalyzer.js:13-121: what visiting statement `s` does to table `t`. */
  function CheckStmt(t: Table, s: Stmt): Checked
    decreases s, 0
  {
    match s
    case VarDecl(x, _) =>
      if x in t then Checked(t, Some(VariableRedeclared(x))) else Checked(t[x := Variable], None)
    case Assignment(x, _) =>
      if x in t then Checked(t, None) else Checked(t, Some(UndeclaredVariable(x)))
    case FunctionDecl(f, ps, _) =>
      if f in t then Checked(t, Some(FunctionRedeclared(f))) else Checked(t[f := FunctionInfo(ps)], None)
    case FunctionCall(f, _) =>
      if f in t && t[f].FunctionInfo? then Checked(t, None) else Checked(t, Some(UndeclaredFunction(f)))
    case IfStatement(_, thenBranch, elseBranch) =>
      var c := CheckBlock(t, thenBranch);
      if c.error.Some? then c else CheckBlock(c.table, elseBranch)
    case WhileStatement(_, body) =>
      CheckBlock(t, body)
    case ForStatement(init, _, incr, body) =>
      var c1 := CheckStmt(t, init);
      if c1.error.Some? then c1
      else
        var c2 := CheckStmt(c1.table, incr);
        if c2.error.Some? then c2 else CheckBlock(c2.table, body)
    case Mostrame(_) => Checked(t, None)
    case ReturnStatement(_) => Checked(t, None)
  }

  /** `statements.forEach(visit)`: in order, all on one table, stopping at the first error. */
  function CheckBlock(t: Table, ss: seq<Stmt>): Checked
    decreases ss, 1
  {
    if ss == [] then Checked(t, None)
    else
      var c := CheckStmt(t, ss[0]);
      if c.error.Some? then c else CheckBlock(c.table, ss[1..])
  }

  // ---------------------------------------------------------------------
  // The analyzer object
  // ---------------------------------------------------------------------

  /** semanticAnalyzer.js:1-5 */
  class SemanticAnalyzer {
    var symbolTable: Table

    constructor()
      ensures symbolTable == map[]
    {
      symbolTable := map[];
    }

    /** semanticAnalyzer.js:8-10 */
    method Analyze(statements: seq<Stmt>) returns (err: Option<SemanticError>)
      modifies this
      ensures Checked(symbolTable, err) == CheckBlock(old(symbolTable), statements)
    {
      err := VisitAll(statements);
    }

    /** The `forEach(stmt => this.visit(stmt))` loops of semanticAnalyzer.js:9, 89-90, 96 and 104. */
    method VisitAll(ss: seq<Stmt>) returns (err: Option<SemanticError>)
      modifies this
      ensures Checked(symbolTable, err) == CheckBlock(old(symbolTable), ss)
      decreases ss, 1
    {
      var i := 0;
      while i < |ss|
        invariant 0 <= i <= |ss|
        invariant CheckBlock(old(symbolTable), ss) == CheckBlock(symbolTable, ss[i..])
      {
        assert ss[i..][0] == ss[i] && ss[i..][1..] == ss[i + 1..];
        err := Visit(ss[i]);
        if err.Some? {
          return;
        }
        i := i + 1;
      }
      err := None;
    }

    /** semanticAnalyzer.js:13-51, 86-115: the dispatch on the kind of statement. */
    method Visit(s: Stmt) returns (err: Option<SemanticError>)
      modifies this
      ensures Checked(symbolTable, err) == CheckStmt(old(symbolTable), s)
      decreases s, 0
    {
      match s
      case VarDecl(x, _) =>
        err := VisitVarDecl(x);
      case Assignment(x, _) =>
        err := VisitAssignment(x);
      case FunctionDecl(f, ps, _) =>
        err := VisitFunctionDecl(f, ps);
      case FunctionCall(f, _) =>
        err := VisitFunctionCall(f);
      case IfStatement(c, thenBranch, elseBranch) =>
        err := VisitExpr(c);
        err := VisitAll(thenBranch);
        if err.None? {
          err := VisitAll(elseBranch);
        }
      case WhileStatement(c, body) =>
        err := VisitExpr(c);
        err := VisitAll(body);
      case ForStatement(init, c, incr, body) =>
        err := Visit(init);
        if err.None? {
          err := VisitExpr(c);
          err := Visit(incr);
          if err.None? {
            err := VisitAll(body);
          }
        }
      case Mostrame(e) =>
        err := VisitExpr(e);
      case ReturnStatement(e) =>
        err := VisitExpr(e);
    }

    /**
      semanticAnalyzer.js:42-47, 117-121: literals and identifiers are let
      through and a binary expression visits its operands, so no expression
      is ever rejected, whatever names it reads.
    */
    method VisitExpr(e: Expr) returns (err: Option<SemanticError>)
      ensures err.None?
      decreases e
    {
      err := None;
      if e.BinaryExpression? {
        err := VisitExpr(e.left);
        err := VisitExpr(e.right);
      }
    }

    /** semanticAnalyzer.js:54-59 */
    method VisitVarDecl(x: string) returns (err: Option<SemanticError>)
      modifies this
      ensures x in old(symbolTable) ==> err == Some(VariableRedeclared(x)) && symbolTable == old(symbolTable)
      ensures x !in old(symbolTable) ==> err.None? && symbolTable == old(symbolTable)[x := Variable]
    {
      if x in symbolTable {
        return Some(VariableRedeclared(x));
      }
      symbolTable := symbolTable[x := Variable];
      err := None;
    }

    /** semanticAnalyzer.js:62-66 */
    method VisitAssignment(x: string) returns (err: Option<SemanticError>)
      ensures err.None? <==> x in symbolTable
      ensures err.Some? ==> err == Some(UndeclaredVariable(x))
    {
      if x !in symbolTable {
        return Some(UndeclaredVariable(x));
      }
      err := None;
    }

    /** semanticAnalyzer.js:69-77 */
    method VisitFunctionDecl(f: string, ps: seq<string>) returns (err: Option<SemanticError>)
      modifies this
      ensures f in old(symbolTable) ==> err == Some(FunctionRedeclared(f)) && symbolTable == old(symbolTable)
      ensures f !in old(symbolTable) ==> err.None? && symbolTable == old(symbolTable)[f := FunctionInfo(ps)]
    {
      if f in symbolTable {
        return Some(FunctionRedeclared(f));
      }
      symbolTable := symbolTable[f := FunctionInfo(ps)];
      err := None;
    }

    /** semanticAnalyzer.js:80-84 */
    method VisitFunctionCall(f: string) returns (err: Option<SemanticError>)
      ensures err.None? <==> f in symbolTable && symbolTable[f].FunctionInfo?
      ensures err.Some? ==> err == Some(UndeclaredFunction(f))
    {
      if f !in symbolTable || !symbolTable[f].FunctionInfo? {
        return Some(UndeclaredFunction(f));
      }
      err := None;
    }
  }

  // ---------------------------------------------------------------------
  // Properties of the walk
  // ---------------------------------------------------------------------

  /** `big` keeps every entry of `small`, unchanged. */
  predicate Extends(big: Table, small: Table) {
    forall x :: x in small ==> x in big && big[x] == small[x]
  }

  /** The table only grows: no entry is ever removed or replaced. */
  lemma {:induction false} StmtExtends(t: Table, s: Stmt)
    ensures Extends(CheckStmt(t, s).table, t)
    decreases s, 0
  {
    match s
    case IfStatement(_, thenBranch, elseBranch) =>
      BlockExtends(t, thenBranch);
      BlockExtends(CheckBlock(t, thenBranch).table, elseBranch);
    case WhileStatement(_, body) =>
      BlockExtends(t, body);
    case ForStatement(init, _, incr, body) =>
      var t1 := CheckStmt(t, init).table;
      StmtExtends(t, init);
      StmtExtends(t1, incr);
      BlockExtends(CheckStmt(t1, incr).table, body);
    case _ =>
  }

  lemma {:induction false} BlockExtends(t: Table, ss: seq<Stmt>)
    ensures Extends(CheckBlock(t, ss).table, t)
    decreases ss, 1
  {
    if ss != [] {
      StmtExtends(t, ss[0]);
      BlockExtends(CheckStmt(t, ss[0]).table, ss[1..]);
    }
  }

  /**
    A declaration fails exactly when its name is already in the table, and
    otherwise records it; the initializer of a `caramelo`, the body of a
    `torta` are never examined and its parameters never enter the table.
  */
  lemma DeclarationRules(t: Table, x: string, e1: Expr, e2: Expr, ps: seq<string>, b1: seq<Stmt>, b2: seq<Stmt>)
    ensures CheckStmt(t, VarDecl(x, e1)).error.Some? <==> x in t
    ensures x !in t ==> CheckStmt(t, VarDecl(x, e1)).table == t[x := Variable]
    ensures CheckStmt(t, VarDecl(x, e1)) == CheckStmt(t, VarDecl(x, e2))
    ensures CheckStmt(t, FunctionDecl(x, ps, b1)).error.Some? <==> x in t
    ensures x !in t ==> CheckStmt(t, FunctionDecl(x, ps, b1)).table == t[x := FunctionInfo(ps)]
    ensures CheckStmt(t, FunctionDecl(x, ps, b1)) == CheckStmt(t, FunctionDecl(x, ps, b2))
    ensures forall p :: p in ps && p != x ==> (p in CheckStmt(t, FunctionDecl(x, ps, b1)).table <==> p in t)
  {
  }

  /**
    An assignment fails exactly when its name is not in the table, a call
    unless the name is recorded as a function (so a variable's name is
    refused too); neither changes the table or looks at its expressions.
  */
  lemma UseRules(t: Table, x: string, e1: Expr, e2: Expr, a1: seq<Expr>, a2: seq<Expr>)
    ensures CheckStmt(t, Assignment(x, e1)).error.Some? <==> x !in t
    ensures CheckStmt(t, Assignment(x, e1)).table == t
    ensures CheckStmt(t, Assignment(x, e1)) == CheckStmt(t, Assignment(x, e2))
    ensures CheckStmt(t, FunctionCall(x, a1)).error.None? <==> x in t && t[x].FunctionInfo?
    ensures x in t && t[x] == Variable ==> CheckStmt(t, FunctionCall(x, a1)).error.Some?
    ensures CheckStmt(t, FunctionCall(x, a1)).table == t
    ensures CheckStmt(t, FunctionCall(x, a1)) == CheckStmt(t, FunctionCall(x, a2))
  {
  }

  /**
    Expressions are never examined: reading an undeclared name is accepted,
    and a condition does not change the outcome of the statement.
  */
  lemma ExpressionsUnchecked(t: Table, e1: Expr, e2: Expr, body: seq<Stmt>, thenBranch: seq<Stmt>, elseBranch: seq<Stmt>)
    ensures CheckStmt(t, Mostrame(e1)) == Checked(t, None)
    ensures CheckStmt(t, ReturnStatement(e1)) == Checked(t, None)
    ensures CheckStmt(t, WhileStatement(e1, body)) == CheckStmt(t, WhileStatement(e2, body))
    ensures CheckStmt(t, IfStatement(e1, thenBranch, elseBranch)) == CheckStmt(t, IfStatement(e2, thenBranch, elseBranch))
  {
  }

  /** Checking `a + b` is checking `a`, then `b` on the table `a` left behind. */
  lemma {:induction false} BlockAppend(t: Table, a: seq<Stmt>, b: seq<Stmt>)
    ensures CheckBlock(t, a + b)
         == (var c := CheckBlock(t, a); if c.error.Some? then c else CheckBlock(c.table, b))
    decreases a
  {
    if a == [] {
      assert a + b == b;
    } else {
      var c := CheckStmt(t, a[0]);
      assert (a + b)[0] == a[0] && (a + b)[1..] == a[1..] + b;
      if c.error.None? {
        BlockAppend(c.table, a[1..], b);
      }
    }
  }

  /** Statement `s` declares `x` where the walk goes: anywhere but inside a function body. */
  predicate Declares(s: Stmt, x: string)
    decreases s, 0
  {
    match s
    case VarDecl(y, _) => y == x
    case FunctionDecl(f, _, _) => f == x
    case IfStatement(_, thenBranch, elseBranch) => BlockDeclares(thenBranch, x) || BlockDeclares(elseBranch, x)
    case WhileStatement(_, body) => BlockDeclares(body, x)
    case ForStatement(init, _, incr, body) => Declares(init, x) || Declares(incr, x) || BlockDeclares(body, x)
    case _ => false
  }

  predicate BlockDeclares(ss: seq<Stmt>, x: string)
    decreases ss, 1
  {
    ss != [] && (Declares(ss[0], x) || BlockDeclares(ss[1..], x))
  }

  lemma {:induction false} BlockDeclaresAt(ss: seq<Stmt>, i: nat, x: string)
    requires i < |ss| && Declares(ss[i], x)
    ensures BlockDeclares(ss, x)
    decreases i
  {
    if i > 0 {
      BlockDeclaresAt(ss[1..], i - 1, x);
    }
  }

  /** A name enters the table only through a declaration of it. */
  lemma {:induction false} OnlyDeclaredNamesEnter(t: Table, s: Stmt, x: string)
    requires x !in t && !Declares(s, x)
    ensures x !in CheckStmt(t, s).table
    decreases s, 0
  {
    match s
    case IfStatement(_, thenBranch, elseBranch) =>
      BlockOnlyDeclaredNamesEnter(t, thenBranch, x);
      BlockOnlyDeclaredNamesEnter(CheckBlock(t, thenBranch).table, elseBranch, x);
    case WhileStatement(_, body) =>
      BlockOnlyDeclaredNamesEnter(t, body, x);
    case ForStatement(init, _, incr, body) =>
      var t1 := CheckStmt(t, init).table;
      OnlyDeclaredNamesEnter(t, init, x);
      OnlyDeclaredNamesEnter(t1, incr, x);
      BlockOnlyDeclaredNamesEnter(CheckStmt(t1, incr).table, body, x);
    case _ =>
  }

  lemma {:induction false} BlockOnlyDeclaredNamesEnter(t: Table, ss: seq<Stmt>, x: string)
    requires x !in t && !BlockDeclares(ss, x)
    ensures x !in CheckBlock(t, ss).table
    decreases ss, 1
  {
    if ss != [] {
      OnlyDeclaredNamesEnter(t, ss[0], x);
      BlockOnlyDeclaredNamesEnter(CheckStmt(t, ss[0]).table, ss[1..], x);
    }
  }

  /** A statement that passes leaves every name it declares in the table. */
  lemma {:induction false} DeclaredNamesStay(t: Table, s: Stmt, x: string)
    requires CheckStmt(t, s).error.None? && Declares(s, x)
    ensures x in CheckStmt(t, s).table
    decreases s, 0
  {
    match s
    case IfStatement(_, thenBranch, elseBranch) =>
      var c := CheckBlock(t, thenBranch);
      if BlockDeclares(thenBranch, x) {
        BlockDeclaredNamesStay(t, thenBranch, x);
        BlockExtends(c.table, elseBranch);
      } else {
        BlockDeclaredNamesStay(c.table, elseBranch, x);
      }
    case WhileStatement(_, body) =>
      BlockDeclaredNamesStay(t, body, x);
    case ForStatement(init, _, incr, body) =>
      var t1 := CheckStmt(t, init).table;
      var t2 := CheckStmt(t1, incr).table;
      if Declares(init, x) {
        DeclaredNamesStay(t, init, x);
        StmtExtends(t1, incr);
        BlockExtends(t2, body);
      } else if Declares(incr, x) {
        DeclaredNamesStay(t1, incr, x);
        BlockExtends(t2, body);
      } else {
        BlockDeclaredNamesStay(t2, body, x);
      }
    case _ =>
  }

  lemma {:induction false} BlockDeclaredNamesStay(t: Table, ss: seq<Stmt>, x: string)
    requires CheckBlock(t, ss).error.None? && BlockDeclares(ss, x)
    ensures x in CheckBlock(t, ss).table
    decreases ss, 1
  {
    var c := CheckStmt(t, ss[0]);
    if Declares(ss[0], x) {
      DeclaredNamesStay(t, ss[0], x);
      BlockExtends(c.table, ss[1..]);
    } else {
      BlockDeclaredNamesStay(c.table, ss[1..], x);
    }
  }

  /** Once a name is in the table, every declaration of it the walk reaches fails. */
  lemma {:induction false} RedeclarationFails(t: Table, s: Stmt, x: string)
    requires x in t && Declares(s, x)
    ensures CheckStmt(t, s).error.Some?
    decreases s, 0
  {
    match s
    case IfStatement(_, thenBranch, elseBranch) =>
      var c := CheckBlock(t, thenBranch);
      if BlockDeclares(thenBranch, x) {
        BlockRedeclarationFails(t, thenBranch, x);
      } else if c.error.None? {
        BlockExtends(t, thenBranch);
        BlockRedeclarationFails(c.table, elseBranch, x);
      }
    case WhileStatement(_, body) =>
      BlockRedeclarationFails(t, body, x);
    case ForStatement(init, _, incr, body) =>
      var c1 := CheckStmt(t, init);
      if Declares(init, x) {
        RedeclarationFails(t, init, x);
      } else if c1.error.None? {
        var c2 := CheckStmt(c1.table, incr);
        StmtExtends(t, init);
        if Declares(incr, x) {
          RedeclarationFails(c1.table, incr, x);
        } else if c2.error.None? {
          StmtExtends(c1.table, incr);
          BlockRedeclarationFails(c2.table, body, x);
        }
      }
    case _ =>
  }

  lemma {:induction false} BlockRedeclarationFails(t: Table, ss: seq<Stmt>, x: string)
    requires x in t && BlockDeclares(ss, x)
    ensures CheckBlock(t, ss).error.Some?
    decreases ss, 1
  {
    var c := CheckStmt(t, ss[0]);
    if Declares(ss[0], x) {
      RedeclarationFails(t, ss[0], x);
    } else if c.error.None? {
      StmtExtends(t, ss[0]);
      BlockRedeclarationFails(c.table, ss[1..], x);
    }
  }

  /**
    A name declared by one statement of a block (in an `alfajor` branch, a
    `batido` initializer, anywhere but a function body) cannot be declared
    again by any later statement of that block.
  */
  lemma {:induction false} LaterRedeclarationFails(t: Table, ss: seq<Stmt>, i: nat, j: nat, x: string)
    requires i < j < |ss| && Declares(ss[i], x) && Declares(ss[j], x)
    ensures CheckBlock(t, ss).error.Some?
    decreases i
  {
    var c := CheckStmt(t, ss[0]);
    if c.error.None? {
      if i == 0 {
        DeclaredNamesStay(t, ss[0], x);
        BlockDeclaresAt(ss[1..], j - 1, x);
        BlockRedeclarationFails(c.table, ss[1..], x);
      } else {
        LaterRedeclarationFails(c.table, ss[1..], i - 1, j - 1, x);
      }
    }
  }

  /**
    Use before declaration is rejected: an assignment to, or a call of, a
    name that is not in the table and that no earlier statement declares
    fails the block.
  */
  lemma {:induction false} UseBeforeDeclarationFails(t: Table, ss: seq<Stmt>, i: nat, x: string)
    requires i < |ss| && (ss[i].Assignment? || ss[i].FunctionCall?) && ss[i].name == x
    requires x !in t && !BlockDeclares(ss[..i], x)
    ensures CheckBlock(t, ss).error.Some?
    decreases i
  {
    var c := CheckStmt(t, ss[0]);
    if i > 0 && c.error.None? {
      assert ss[..i][0] == ss[0] && ss[..i][1..] == ss[1..][..i - 1];
      OnlyDeclaredNamesEnter(t, ss[0], x);
      UseBeforeDeclarationFails(c.table, ss[1..], i - 1, x);
    }
  }
}
