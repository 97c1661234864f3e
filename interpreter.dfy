/**
  The interpreter of interpreter.js as a class over the same four fields.
  Every visitor is proved to compute what `Semantics` says of it; loops and
  calls take the fuel that the semantics spends on them.
*/
module Interpreting {
  import opened Results
  import opened Ast
  import opened Semantics

  /** What a visitor reports: its error, or success in the state it left behind. */
  function Outcome(st: State, err: Option<RuntimeError>): (r: Result<State, RuntimeError>)
    ensures r.Ok? <==> err.None?
    ensures r.Ok? ==> r.value == st
    ensures r.Err? ==> r.error == err.value
  {
    if err.None? then Ok(st) else Err(err.value)
  }

  class Interpreter {
    var globalScope: Scope
    var output: seq<Value>
    var returnValue: Value
    var hasReturn: bool

    /** The fields, as the state the semantics works on. */
    function Snapshot(): State
      reads this
    {
      State(globalScope, output, returnValue, hasReturn)
    }

    /** interpreter.js:2-7 */
    constructor()
      ensures Snapshot() == Initial
    {
      globalScope := map[];
      output := [];
      returnValue := Null;
      hasReturn := false;
    }

    /** interpreter.js:10-12 */
    method Interpret(statements: seq<Stmt>, fuel: nat) returns (err: Option<RuntimeError>)
      modifies this
      ensures Outcome(Snapshot(), err) == RunProgram(old(Snapshot()), statements, fuel)
    {
      var i := 0;
      while i < |statements|
        invariant 0 <= i <= |statements|
        invariant RunProgram(old(Snapshot()), statements, fuel) == RunProgram(Snapshot(), statements[i..], fuel)
      {
        assert statements[i..][0] == statements[i] && statements[i..][1..] == statements[i + 1..];
        err := Visit(statements[i], fuel);
        if err.Some? {
          return;
        }
        i := i + 1;
      }
      err := None;
    }

    /** interpreter.js:15-52 */
    method Visit(s: Stmt, fuel: nat) returns (err: Option<RuntimeError>)
      modifies this
      ensures Outcome(Snapshot(), err) == ExecStmt(old(Snapshot()), s, fuel)
      decreases fuel, s, 1
    {
      match s
      case VarDecl(x, e) =>
        err := VisitVarDecl(x, e);
      case Assignment(x, e) =>
        err := VisitAssignment(x, e);
      case FunctionDecl(f, ps, body) =>
        VisitFunctionDecl(f, ps, body);
        err := None;
      case FunctionCall(_, _) =>
        var _, e := VisitFunctionCall(s, fuel);
        err := e;
      case IfStatement(_, _, _) =>
        err := VisitIfStatement(s, fuel);
      case WhileStatement(_, _) =>
        err := VisitWhileStatement(s, fuel);
      case ForStatement(_, _, _, _) =>
        err := VisitForStatement(s, fuel);
      case Mostrame(e) =>
        err := VisitMostrame(e);
      case ReturnStatement(e) =>
        err := VisitReturnStatement(e);
    }

    /** interpreter.js:55-58: the name is bound in the current scope, declared before or not. */
    method VisitVarDecl(x: string, e: Expr) returns (err: Option<RuntimeError>)
      modifies this
      ensures Eval(old(globalScope), e).Err? ==> err == Some(Eval(old(globalScope), e).error)
      ensures Eval(old(globalScope), e).Ok? ==>
        err.None? && Snapshot() == old(Snapshot()).(scope := old(globalScope)[x := Eval(old(globalScope), e).value])
    {
      var v := Eval(globalScope, e);
      if v.Err? {
        return Some(v.error);
      }
      globalScope := globalScope[x := v.value];
      err := None;
    }

    /** interpreter.js:61-64 */
    method VisitAssignment(x: string, e: Expr) returns (err: Option<RuntimeError>)
      modifies this
      ensures Eval(old(globalScope), e).Err? ==> err == Some(Eval(old(globalScope), e).error)
      ensures Eval(old(globalScope), e).Ok? ==>
        Outcome(Snapshot(), err) == Semantics.SetVariable(old(Snapshot()), x, Eval(old(globalScope), e).value)
    {
      var v := Eval(globalScope, e);
      if v.Err? {
        return Some(v.error);
      }
      err := SetVariable(x, v.value);
    }

    /** interpreter.js:67-69: the declaration itself becomes the name's value. */
    method VisitFunctionDecl(f: string, ps: seq<string>, body: seq<Stmt>)
      modifies this
      ensures Snapshot() == old(Snapshot()).(scope := old(globalScope)[f := FunctionValue(f, ps, body)])
    {
      globalScope := globalScope[f := FunctionValue(f, ps, body)];
    }

    /** interpreter.js:72-84 */
    method VisitFunctionCall(s: Stmt, fuel: nat) returns (v: Value, err: Option<RuntimeError>)
      requires s.FunctionCall?
      modifies this
      ensures Call(old(Snapshot()), s.name, s.args, fuel)
           == if err.None? then Ok(Called(Snapshot(), v)) else Err(err.value)
      decreases fuel, s, 0
    {
      v := Null;
      if s.name !in globalScope {
        return v, Some(UndeclaredFunction(s.name));
      }
      var func := globalScope[s.name];
      var args := EvalArgs(globalScope, s.args);
      if args.Err? {
        return v, Some(args.error);
      }
      if !func.FunctionValue? {
        return v, Some(NotAFunction(s.name));
      }
      if fuel == 0 {
        return v, Some(OutOfFuel);
      }
      var localScope: Scope := map[];
      var i := 0;
      while i < |func.params|
        invariant 0 <= i <= |func.params|
        invariant localScope == Bind(func.params[..i], args.value)
      {
        assert func.params[..i + 1][..i] == func.params[..i];
        localScope := localScope[func.params[i] := if i < |args.value| then args.value[i] else Undefined];
        i := i + 1;
      }
      assert func.params[..i] == func.params;
      err := ExecuteBlock(func.body, localScope, fuel - 1);
      v := returnValue;
    }

    /** interpreter.js:87-93 */
    method VisitIfStatement(s: Stmt, fuel: nat) returns (err: Option<RuntimeError>)
      requires s.IfStatement?
      modifies this
      ensures Outcome(Snapshot(), err) == ExecStmt(old(Snapshot()), s, fuel)
      decreases fuel, s, 0
    {
      var c := Eval(globalScope, s.condition);
      if c.Err? {
        return Some(c.error);
      }
      if Truthy(c.value) {
        err := ExecuteBlock(s.thenBranch, globalScope, fuel);
      } else {
        err := ExecuteBlock(s.elseBranch, globalScope, fuel);
      }
    }

    /** interpreter.js:96-100; every pass through the body spends one unit of fuel. */
    method VisitWhileStatement(s: Stmt, fuel: nat) returns (err: Option<RuntimeError>)
      requires s.WhileStatement?
      modifies this
      ensures Outcome(Snapshot(), err) == ExecStmt(old(Snapshot()), s, fuel)
      decreases fuel, s, 0
    {
      var f: nat := fuel;
      while true
        invariant f <= fuel
        invariant ExecStmt(old(Snapshot()), s, fuel) == WhileLoop(Snapshot(), s.condition, s.body, f)
        decreases f
      {
        var c := Eval(globalScope, s.condition);
        if c.Err? {
          return Some(c.error);
        }
        if !Truthy(c.value) {
          return None;
        }
        if f == 0 {
          return Some(OutOfFuel);
        }
        err := ExecuteBlock(s.body, globalScope, f - 1);
        if err.Some? {
          return;
        }
        f := f - 1;
      }
    }

    /** interpreter.js:103-107: initializer and increment run in the enclosing scope, the body as a block. */
    method VisitForStatement(s: Stmt, fuel: nat) returns (err: Option<RuntimeError>)
      requires s.ForStatement?
      modifies this
      ensures Outcome(Snapshot(), err) == ExecStmt(old(Snapshot()), s, fuel)
      decreases fuel, s, 0
    {
      err := Visit(s.initializer, fuel);
      if err.Some? {
        return;
      }
      var f: nat := fuel;
      while true
        invariant f <= fuel
        invariant ExecStmt(old(Snapshot()), s, fuel) == ForLoop(Snapshot(), s.condition, s.increment, s.body, f)
        decreases f
      {
        var c := Eval(globalScope, s.condition);
        if c.Err? {
          return Some(c.error);
        }
        if !Truthy(c.value) {
          return None;
        }
        if f == 0 {
          return Some(OutOfFuel);
        }
        err := ExecuteBlock(s.body, globalScope, f - 1);
        if err.Some? {
          return;
        }
        err := Visit(s.increment, f - 1);
        if err.Some? {
          return;
        }
        f := f - 1;
      }
    }

    /** interpreter.js:110-113: the value is appended to the output. */
    method VisitMostrame(e: Expr) returns (err: Option<RuntimeError>)
      modifies this
      ensures Eval(old(globalScope), e).Err? ==> err == Some(Eval(old(globalScope), e).error)
      ensures Eval(old(globalScope), e).Ok? ==>
        err.None? && Snapshot() == old(Snapshot()).(output := old(output) + [Eval(old(globalScope), e).value])
    {
      var v := Eval(globalScope, e);
      if v.Err? {
        return Some(v.error);
      }
      output := output + [v.value];
      err := None;
    }

    /** interpreter.js:116-119 */
    method VisitReturnStatement(e: Expr) returns (err: Option<RuntimeError>)
      modifies this
      ensures Eval(old(globalScope), e).Err? ==> err == Some(Eval(old(globalScope), e).error)
      ensures Eval(old(globalScope), e).Ok? ==>
        err.None? && Snapshot() == old(Snapshot()).(returnValue := Eval(old(globalScope), e).value, hasReturn := true)
    {
      var v := Eval(globalScope, e);
      if v.Err? {
        return Some(v.error);
      }
      returnValue := v.value;
      hasReturn := true;
      err := None;
    }

    /**
      interpreter.js:156-166: run the statements on the merged scope,
      stopping after any statement once `hasReturn` is set, and put the
      previous scope back.
    */
    method ExecuteBlock(ss: seq<Stmt>, extra: Scope, fuel: nat) returns (err: Option<RuntimeError>)
      modifies this
      ensures Outcome(Snapshot(), err) == ExecBlock(old(Snapshot()), ss, extra, fuel)
      decreases fuel, ss, 2
    {
      var previousScope := globalScope;
      globalScope := previousScope + extra;
      var i := 0;
      while i < |ss|
        invariant 0 <= i <= |ss| && previousScope == old(globalScope)
        invariant RunBlock(old(Snapshot()).(scope := previousScope + extra), ss, fuel) == RunBlock(Snapshot(), ss[i..], fuel)
      {
        assert ss[i..][0] == ss[i] && ss[i..][1..] == ss[i + 1..];
        err := Visit(ss[i], fuel);
        if err.Some? {
          return;
        }
        if hasReturn {
          break;
        }
        i := i + 1;
      }
      globalScope := previousScope;
      err := None;
    }

    /** interpreter.js:177-183 */
    method SetVariable(x: string, v: Value) returns (err: Option<RuntimeError>)
      modifies this
      ensures Outcome(Snapshot(), err) == Semantics.SetVariable(old(Snapshot()), x, v)
    {
      if x !in globalScope {
        return Some(UndeclaredVariable(x));
      }
      globalScope := globalScope[x := v];
      err := None;
    }
  }
}
