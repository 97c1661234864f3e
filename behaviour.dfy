/**
  What the execution rules of interpreter.js imply for every program:
  blocks leave the enclosing scope as they found it, output only grows,
  a `devolveme` is never forgotten, and a `gomita` loop either never runs
  its body or never stops.
*/
module Behaviour {
  import opened Results
  import opened Ast
  import opened Semantics

  // ---------------------------------------------------------------------
  // Blocks
  // ---------------------------------------------------------------------

  /**
    After a block the scope is exactly the one from before it: no
    declaration or assignment made inside survives.
  */
  lemma BlockRestoresScope(st: State, ss: seq<Stmt>, extra: Scope, fuel: nat)
    ensures ExecBlock(st, ss, extra, fuel).Ok? ==> ExecBlock(st, ss, extra, fuel).value.scope == st.scope
    ensures ExecBlock(st, ss, extra, fuel).Ok? <==> RunBlock(st.(scope := st.scope + extra), ss, fuel).Ok?
  {
  }

  /** Once `hasReturn` is set, a block runs at most its first statement. */
  lemma ReturnStopsBlock(st: State, ss: seq<Stmt>, fuel: nat)
    requires st.hasReturn
    ensures RunBlock(st, ss, fuel) == if ss == [] then Ok(st) else ExecStmt(st, ss[0], fuel)
  {
    if ss != [] {
      StmtLater(st, ss[0], fuel);
    }
  }

  // ---------------------------------------------------------------------
  // Output and the return flag only move forward
  // ---------------------------------------------------------------------

  /** `b` follows `a`: the output was only appended to, and `hasReturn` was not cleared. */
  predicate Later(a: State, b: State) {
    a.output <= b.output && (a.hasReturn ==> b.hasReturn)
  }

  lemma {:induction false} StmtLater(st: State, s: Stmt, fuel: nat)
    ensures ExecStmt(st, s, fuel).Ok? ==> Later(st, ExecStmt(st, s, fuel).value)
    decreases fuel, s, 1
  {
    match s
    case FunctionCall(f, args) =>
      CallLater(st, f, args, fuel);
    case IfStatement(c, thenBranch, elseBranch) =>
      BlockLater(st, thenBranch, st.scope, fuel);
      BlockLater(st, elseBranch, st.scope, fuel);
    case WhileStatement(c, body) =>
      WhileLater(st, c, body, fuel);
    case ForStatement(init, c, incr, body) =>
      StmtLater(st, init, fuel);
      var r := ExecStmt(st, init, fuel);
      if r.Ok? {
        ForLater(r.value, c, incr, body, fuel);
      }
    case _ =>
  }

  lemma {:induction false} CallLater(st: State, f: string, args: seq<Expr>, fuel: nat)
    ensures Call(st, f, args, fuel).Ok? ==> Later(st, Call(st, f, args, fuel).value.state)
    decreases fuel, args, 0
  {
    if f in st.scope && st.scope[f].FunctionValue? && fuel > 0 {
      var vals := EvalArgs(st.scope, args);
      if vals.Ok? {
        BlockLater(st, st.scope[f].body, Bind(st.scope[f].params, vals.value), fuel - 1);
      }
    }
  }

  lemma {:induction false} BlockLater(st: State, ss: seq<Stmt>, extra: Scope, fuel: nat)
    ensures ExecBlock(st, ss, extra, fuel).Ok? ==> Later(st, ExecBlock(st, ss, extra, fuel).value)
    decreases fuel, ss, 2
  {
    RunLater(st.(scope := st.scope + extra), ss, fuel);
  }

  lemma {:induction false} RunLater(st: State, ss: seq<Stmt>, fuel: nat)
    ensures RunBlock(st, ss, fuel).Ok? ==> Later(st, RunBlock(st, ss, fuel).value)
    decreases fuel, ss, 1
  {
    if ss != [] {
      StmtLater(st, ss[0], fuel);
      var r := ExecStmt(st, ss[0], fuel);
      if r.Ok? && !r.value.hasReturn {
        RunLater(r.value, ss[1..], fuel);
      }
    }
  }

  lemma {:induction false} WhileLater(st: State, c: Expr, body: seq<Stmt>, fuel: nat)
    ensures WhileLoop(st, c, body, fuel).Ok? ==> Later(st, WhileLoop(st, c, body, fuel).value)
    decreases fuel, body, 3
  {
    if fuel > 0 {
      BlockLater(st, body, st.scope, fuel - 1);
      var r := ExecBlock(st, body, st.scope, fuel - 1);
      if r.Ok? {
        WhileLater(r.value, c, body, fuel - 1);
      }
    }
  }

  lemma {:induction false} ForLater(st: State, c: Expr, incr: Stmt, body: seq<Stmt>, fuel: nat)
    ensures ForLoop(st, c, incr, body, fuel).Ok? ==> Later(st, ForLoop(st, c, incr, body, fuel).value)
    decreases fuel, body, 3
  {
    if fuel > 0 {
      BlockLater(st, body, st.scope, fuel - 1);
      var r1 := ExecBlock(st, body, st.scope, fuel - 1);
      if r1.Ok? {
        StmtLater(r1.value, incr, fuel - 1);
        var r2 := ExecStmt(r1.value, incr, fuel - 1);
        if r2.Ok? {
          ForLater(r2.value, c, incr, body, fuel - 1);
        }
      }
    }
  }

  /** A whole program only appends to the output. */
  lemma {:induction false} ProgramLater(st: State, ss: seq<Stmt>, fuel: nat)
    ensures RunProgram(st, ss, fuel).Ok? ==> st.output <= RunProgram(st, ss, fuel).value.output
    decreases ss
  {
    if ss != [] {
      StmtLater(st, ss[0], fuel);
      var r := ExecStmt(st, ss[0], fuel);
      if r.Ok? {
        ProgramLater(r.value, ss[1..], fuel);
      }
    }
  }

  // ---------------------------------------------------------------------
  // Single statements
  // ---------------------------------------------------------------------

  /** `caramelo x = e` binds `x` whether or not it was bound before, and changes nothing else. */
  lemma VarDeclBinds(st: State, x: string, e: Expr, fuel: nat)
    ensures Eval(st.scope, e).Ok? ==> ExecStmt(st, VarDecl(x, e), fuel) == Ok(st.(scope := st.scope[x := Eval(st.scope, e).value]))
    ensures Eval(st.scope, e).Err? ==> ExecStmt(st, VarDecl(x, e), fuel) == Err(Eval(st.scope, e).error)
  {
  }

  /** `x = e` fails on an unbound `x`, and otherwise changes that one binding only. */
  lemma AssignmentUpdates(st: State, x: string, e: Expr, fuel: nat)
    requires Eval(st.scope, e).Ok?
    ensures ExecStmt(st, Assignment(x, e), fuel).Ok? <==> x in st.scope
    ensures x !in st.scope ==> ExecStmt(st, Assignment(x, e), fuel) == Err(UndeclaredVariable(x))
    ensures x in st.scope ==> ExecStmt(st, Assignment(x, e), fuel) == Ok(st.(scope := st.scope[x := Eval(st.scope, e).value]))
  {
  }

  /** `mostrame(e)` appends exactly the value of `e` to the output. */
  lemma MostrameAppends(st: State, e: Expr, fuel: nat)
    requires Eval(st.scope, e).Ok?
    ensures ExecStmt(st, Mostrame(e), fuel) == Ok(st.(output := st.output + [Eval(st.scope, e).value]))
  {
  }

  /** `devolveme e` records the value and raises the flag, and changes nothing else. */
  lemma ReturnRecords(st: State, e: Expr, fuel: nat)
    requires Eval(st.scope, e).Ok?
    ensures ExecStmt(st, ReturnStatement(e), fuel) == Ok(st.(returnValue := Eval(st.scope, e).value, hasReturn := true))
  {
  }

  /** A binary expression fails with the first failing operand, and only then on an unknown operator. */
  lemma BinaryOrder(scope: Scope, op: string, left: Expr, right: Expr)
    ensures Eval(scope, left).Err? ==> Eval(scope, BinaryExpression(op, left, right)) == Eval(scope, left).PropagateFailure()
    ensures Eval(scope, left).Ok? && Eval(scope, right).Err? ==> Eval(scope, BinaryExpression(op, left, right)) == Eval(scope, right).PropagateFailure()
    ensures Eval(scope, left).Ok? && Eval(scope, right).Ok? && !IsOperator(op) ==> Eval(scope, BinaryExpression(op, left, right)) == Err(UnknownOperator(op))
  {
  }

  // ---------------------------------------------------------------------
  // Calls
  // ---------------------------------------------------------------------

  /** The names a call binds are exactly its parameters. */
  lemma {:induction false} BindKeys(ps: seq<string>, vals: seq<Value>)
    ensures Bind(ps, vals).Keys == set p | p in ps
    decreases |ps|
  {
    if ps != [] {
      var n := |ps| - 1;
      BindKeys(ps[..n], vals);
      assert ps == ps[..n] + [ps[n]];
    }
  }

  /**
    Parameter `i` holds argument `i`, or `undefined` when there are fewer
    arguments; of a repeated name, the last occurrence wins.
  */
  lemma {:induction false} BindPositional(ps: seq<string>, vals: seq<Value>, i: nat)
    requires i < |ps| && ps[i] !in ps[i + 1..]
    ensures ps[i] in Bind(ps, vals) && Bind(ps, vals)[ps[i]] == if i < |vals| then vals[i] else Undefined
    decreases |ps|
  {
    var n := |ps| - 1;
    if i < n {
      assert ps[n] in ps[i + 1..];
      assert ps[..n][i + 1..] == ps[i + 1..n];
      BindPositional(ps[..n], vals, i);
    }
  }

  /** A call to an unbound name fails before its arguments are evaluated. */
  lemma CallUnbound(st: State, f: string, args: seq<Expr>, fuel: nat)
    requires f !in st.scope
    ensures Call(st, f, args, fuel) == Err(UndeclaredFunction(f))
  {
  }

  /** A call to a bound name that is not a function fails once its arguments are evaluated. */
  lemma CallNotAFunction(st: State, f: string, args: seq<Expr>, fuel: nat)
    requires f in st.scope && !st.scope[f].FunctionValue? && EvalArgs(st.scope, args).Ok?
    ensures Call(st, f, args, fuel) == Err(NotAFunction(f))
  {
  }

  /**
    A call leaves the caller's scope as it was and yields the `returnValue`
    left behind, which may come from an earlier `devolveme`.
  */
  lemma CallResult(st: State, f: string, args: seq<Expr>, fuel: nat)
    ensures Call(st, f, args, fuel).Ok? ==>
      var c := Call(st, f, args, fuel).value;
      c.state.scope == st.scope && c.value == c.state.returnValue && Later(st, c.state)
  {
    CallLater(st, f, args, fuel);
  }

  // ---------------------------------------------------------------------
  // Loops
  // ---------------------------------------------------------------------

  /**
    The body of a `gomita` cannot change the scope its condition reads, so
    the loop finishes only when the condition is false on entry, and then
    changes nothing: it runs zero times or forever.
  */
  lemma {:induction false} WhileZeroOrForever(st: State, c: Expr, body: seq<Stmt>, fuel: nat)
    ensures WhileLoop(st, c, body, fuel).Ok? <==> Eval(st.scope, c).Ok? && !Truthy(Eval(st.scope, c).value)
    ensures WhileLoop(st, c, body, fuel).Ok? ==> WhileLoop(st, c, body, fuel).value == st
    decreases fuel
  {
    var v := Eval(st.scope, c);
    if v.Ok? && Truthy(v.value) && fuel > 0 {
      var r := ExecBlock(st, body, st.scope, fuel - 1);
      if r.Ok? {
        WhileZeroOrForever(r.value, c, body, fuel - 1);
      }
    }
  }

  /**
    When the increment is an assignment, a `batido` loop binds no new name
    and drops none: the variable its initializer declares stays bound.
  */
  lemma {:induction false} ForKeepsNames(st: State, c: Expr, incr: Stmt, body: seq<Stmt>, fuel: nat)
    requires incr.Assignment?
    ensures ForLoop(st, c, incr, body, fuel).Ok? ==> ForLoop(st, c, incr, body, fuel).value.scope.Keys == st.scope.Keys
    decreases fuel
  {
    if fuel > 0 {
      var r1 := ExecBlock(st, body, st.scope, fuel - 1);
      if r1.Ok? {
        var r2 := ExecStmt(r1.value, incr, fuel - 1);
        if r2.Ok? {
          assert r2.value.scope.Keys == st.scope.Keys;
          ForKeepsNames(r2.value, c, incr, body, fuel - 1);
        }
      }
    }
  }

  /** The variable declared in a `batido` header is still bound after the loop. */
  lemma ForDeclares(st: State, x: string, e: Expr, c: Expr, incr: Stmt, body: seq<Stmt>, fuel: nat)
    requires incr.Assignment?
    ensures ExecStmt(st, ForStatement(VarDecl(x, e), c, incr, body), fuel).Ok? ==>
      x in ExecStmt(st, ForStatement(VarDecl(x, e), c, incr, body), fuel).value.scope
  {
    var r := ExecStmt(st, VarDecl(x, e), fuel);
    if r.Ok? {
      ForKeepsNames(r.value, c, incr, body, fuel);
    }
  }
}
