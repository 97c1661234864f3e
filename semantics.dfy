/**
  What the tree-walker of interpreter.js computes, as functions of the
  interpreter's four fields. Expressions are pure reads of the scope.
  Statements map a state to a state or to the error that aborts the run;
  loops and calls spend `fuel`, so that a program which runs forever ends
  in `OutOfFuel` for every fuel.
*/
module Semantics {
  import opened Results
  import opened Ast

  /** Runtime values: digit-only literals make every number an integer; a function is its stored declaration. */
  datatype Value =
    | Num(n: int)
    | Str(s: string)
    | Bool(b: bool)
    | Null
    | Undefined
    | FunctionValue(name: string, params: seq<string>, body: seq<Stmt>)

  type Scope = map<string, Value>

  /**
    Errors that abort interpretation. `OutsideModel` is an operation whose
    JavaScript result is not an integer, string or boolean of this model
    (a fraction, a division by zero, a coercion between kinds).
  */
  datatype RuntimeError =
    | UndeclaredVariable(name: string)
    | UndeclaredFunction(name: string)
    | NotAFunction(name: string)
    | UnknownOperator(operator: string)
    | OutsideModel(operator: string, left: Value, right: Value)
    | OutOfFuel

  /** The fields `globalScope`, `output`, `returnValue` and `hasReturn` of interpreter.js:2-7. */
  datatype State = State(scope: Scope, output: seq<Value>, returnValue: Value, hasReturn: bool)

  /** The state the constructor sets up. */
  const Initial := State(map[], [], Null, false)

  // ---------------------------------------------------------------------
  // Expressions
  // ---------------------------------------------------------------------

  /** interpreter.js:146-148 */
  function LiteralValue(l: Lit): Value {
    match l
    case NumberLit(n) => Num(n)
    case StringLit(s) => Str(s)
    case NullLit => Null
  }

  /** interpreter.js:169-174 */
  function GetVariable(scope: Scope, x: string): (r: Result<Value, RuntimeError>)
    ensures r.Ok? <==> x in scope
    ensures r.Ok? ==> r.value == scope[x]
    ensures r.Err? ==> r.error == UndeclaredVariable(x)
  {
    if x in scope then Ok(scope[x]) else Err(UndeclaredVariable(x))
  }

  /** JavaScript's truthiness on the values of the model. */
  predicate Truthy(v: Value) {
    match v
    case Num(n) => n != 0
    case Str(s) => s != ""
    case Bool(b) => b
    case Null => false
    case Undefined => false
    case FunctionValue(_, _, _) => true
  }

  /** The seven operators of interpreter.js:125-139. */
  predicate IsOperator(op: string) {
    op == "+" || op == "-" || op == "*" || op == "/" || op == "<" || op == ">" || op == "=="
  }

  /**
    interpreter.js:125-142 on the values of the model: integer arithmetic,
    exact division, `+` on two strings, comparisons of integers and `==`
    between values of one kind; `null == undefined` holds as in JavaScript.
  */
  function Apply(op: string, l: Value, r: Value): (res: Result<Value, RuntimeError>)
    ensures !IsOperator(op) ==> res == Err(UnknownOperator(op))
  {
    if !IsOperator(op) then Err(UnknownOperator(op))
    else if l.Num? && r.Num? then
      if op == "+" then Ok(Num(l.n + r.n))
      else if op == "-" then Ok(Num(l.n - r.n))
      else if op == "*" then Ok(Num(l.n * r.n))
      else if op == "/" then
        if r.n != 0 && l.n % r.n == 0 then Ok(Num(l.n / r.n)) else Err(OutsideModel(op, l, r))
      else if op == "<" then Ok(Bool(l.n < r.n))
      else if op == ">" then Ok(Bool(l.n > r.n))
      else Ok(Bool(l.n == r.n))
    else if l.Str? && r.Str? && op == "+" then Ok(Str(l.s + r.s))
    else if op == "==" && l.Str? && r.Str? then Ok(Bool(l.s == r.s))
    else if op == "==" && l.Bool? && r.Bool? then Ok(Bool(l.b == r.b))
    else if op == "==" && (l.Null? || l.Undefined?) && (r.Null? || r.Undefined?) then Ok(Bool(true))
    else Err(OutsideModel(op, l, r))
  }

  /** interpreter.js:122-153: left operand, then right operand, then the operator. */
  function Eval(scope: Scope, e: Expr): Result<Value, RuntimeError>
    decreases e
  {
    match e
    case Literal(l) => Ok(LiteralValue(l))
    case Identifier(x) => GetVariable(scope, x)
    case BinaryExpression(op, left, right) =>
      var l :- Eval(scope, left);
      var r :- Eval(scope, right);
      Apply(op, l, r)
  }

  /** `node.args.map(arg => this.visit(arg))`: left to right, the first failure aborts. */
  function EvalArgs(scope: Scope, args: seq<Expr>): (r: Result<seq<Value>, RuntimeError>)
    ensures r.Ok? <==> forall i :: 0 <= i < |args| ==> Eval(scope, args[i]).Ok?
    ensures r.Ok? ==> |r.value| == |args| && forall i :: 0 <= i < |args| ==> Eval(scope, args[i]) == Ok(r.value[i])
    ensures r.Err? ==> exists k :: 0 <= k < |args| && Eval(scope, args[k]) == Err(r.error)
                                   && forall i :: 0 <= i < k ==> Eval(scope, args[i]).Ok?
    decreases args
  {
    if args == [] then Ok([])
    else
      var v :- Eval(scope, args[0]);
      var vs :- EvalArgs(scope, args[1..]);
      Ok([v] + vs)
  }

  /**
    interpreter.js:78-81: parameter `ps[i]` is bound to argument `i`, or to
    `undefined` when there are fewer arguments; later parameters of the
    same name win.
  */
  function Bind(ps: seq<string>, vals: seq<Value>): Scope
    decreases |ps|
  {
    if ps == [] then map[]
    else
      var i := |ps| - 1;
      Bind(ps[..i], vals)[ps[i] := if i < |vals| then vals[i] else Undefined]
  }

  // ---------------------------------------------------------------------
  // Statements
  // ---------------------------------------------------------------------

  /** A call's final state and the value it returns. */
  datatype Called = Called(state: State, value: Value)

  /** interpreter.js:177-183 */
  function SetVariable(st: State, x: string, v: Value): (r: Result<State, RuntimeError>)
    ensures r.Ok? <==> x in st.scope
    ensures r.Ok? ==> r.value == st.(scope := st.scope[x := v])
    ensures r.Err? ==> r.error == UndeclaredVariable(x)
  {
    if x in st.scope then Ok(st.(scope := st.scope[x := v])) else Err(UndeclaredVariable(x))
  }

  /** interpreter.js:15-52, 55-119: one statement. */
  function ExecStmt(st: State, s: Stmt, fuel: nat): Result<State, RuntimeError>
    decreases fuel, s, 1
  {
    match s
    case VarDecl(x, e) =>
      var v :- Eval(st.scope, e);
      Ok(st.(scope := st.scope[x := v]))
    case Assignment(x, e) =>
      var v :- Eval(st.scope, e);
      SetVariable(st, x, v)
    case FunctionDecl(f, ps, body) =>
      Ok(st.(scope := st.scope[f := FunctionValue(f, ps, body)]))
    case FunctionCall(f, args) =>
      var c :- Call(st, f, args, fuel);
      Ok(c.state)
    case IfStatement(c, thenBranch, elseBranch) =>
      var v :- Eval(st.scope, c);
      if Truthy(v) then ExecBlock(st, thenBranch, st.scope, fuel)
      else ExecBlock(st, elseBranch, st.scope, fuel)
    case WhileStatement(c, body) =>
      WhileLoop(st, c, body, fuel)
    case ForStatement(init, c, incr, body) =>
      var st1 :- ExecStmt(st, init, fuel);
      ForLoop(st1, c, incr, body, fuel)
    case Mostrame(e) =>
      var v :- Eval(st.scope, e);
      Ok(st.(output := st.output + [v]))
    case ReturnStatement(e) =>
      var v :- Eval(st.scope, e);
      Ok(st.(returnValue := v, hasReturn := true))
  }

  /**
    interpreter.js:72-84: the name must be bound; the arguments are
    evaluated in the caller's scope; the binding must be a function; its
    body runs as a block over the parameters, and the call yields whatever
    `returnValue` holds afterwards.
  */
  function Call(st: State, f: string, args: seq<Expr>, fuel: nat): Result<Called, RuntimeError>
    decreases fuel, args, 0
  {
    if f !in st.scope then Err(UndeclaredFunction(f))
    else
      var func := st.scope[f];
      var vals :- EvalArgs(st.scope, args);
      if !func.FunctionValue? then Err(NotAFunction(f))
      else if fuel == 0 then Err(OutOfFuel)
      else
        var after :- ExecBlock(st, func.body, Bind(func.params, vals), fuel - 1);
        Ok(Called(after, after.returnValue))
  }

  /**
    interpreter.js:156-166: the statements run on the scope merged with
    `extra` (whose bindings win), and the scope from before is put back.
  */
  function ExecBlock(st: State, ss: seq<Stmt>, extra: Scope, fuel: nat): Result<State, RuntimeError>
    decreases fuel, ss, 2
  {
    var inner :- RunBlock(st.(scope := st.scope + extra), ss, fuel);
    Ok(inner.(scope := st.scope))
  }

  /** The loop of interpreter.js:159-164: it breaks after any statement once `hasReturn` is set. */
  function RunBlock(st: State, ss: seq<Stmt>, fuel: nat): Result<State, RuntimeError>
    decreases fuel, ss, 1
  {
    if ss == [] then Ok(st)
    else
      var st1 :- ExecStmt(st, ss[0], fuel);
      if st1.hasReturn then Ok(st1) else RunBlock(st1, ss[1..], fuel)
  }

  /** interpreter.js:96-100; each pass through the body spends one unit of fuel. */
  function WhileLoop(st: State, c: Expr, body: seq<Stmt>, fuel: nat): Result<State, RuntimeError>
    decreases fuel, body, 3
  {
    var v :- Eval(st.scope, c);
    if !Truthy(v) then Ok(st)
    else if fuel == 0 then Err(OutOfFuel)
    else
      var st1 :- ExecBlock(st, body, st.scope, fuel - 1);
      WhileLoop(st1, c, body, fuel - 1)
  }

  /** interpreter.js:103-107 after the initializer: condition, body as a block, increment in the enclosing scope. */
  function ForLoop(st: State, c: Expr, incr: Stmt, body: seq<Stmt>, fuel: nat): Result<State, RuntimeError>
    decreases fuel, body, 3
  {
    var v :- Eval(st.scope, c);
    if !Truthy(v) then Ok(st)
    else if fuel == 0 then Err(OutOfFuel)
    else
      var st1 :- ExecBlock(st, body, st.scope, fuel - 1);
      var st2 :- ExecStmt(st1, incr, fuel - 1);
      ForLoop(st2, c, incr, body, fuel - 1)
  }

  /** interpreter.js:10-12: every top-level statement in order; `hasReturn` is not consulted here. */
  function RunProgram(st: State, ss: seq<Stmt>, fuel: nat): Result<State, RuntimeError>
    decreases ss
  {
    if ss == [] then Ok(st)
    else
      var st1 :- ExecStmt(st, ss[0], fuel);
      RunProgram(st1, ss[1..], fuel)
  }
}
