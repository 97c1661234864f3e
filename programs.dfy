/**
  Small programs run through the semantics of interpreter.js, one for each
  rule that surprises a reader of the language.
*/
module Programs {
  import opened Results
  import opened Ast
  import opened Semantics

  function N(n: nat): Expr { Literal(NumberLit(n)) }

  const I := Identifier("i")
  const Below3 := BinaryExpression("<", I, N(3))
  const Increment := Assignment("i", BinaryExpression("+", I, N(1)))

  // ---------------------------------------------------------------------
  // caramelo i = 0; gomita (i < 3) { mostrame(i); i = i + 1; }
  // ---------------------------------------------------------------------

  const CounterBody := [Mostrame(I), Increment]
  const Counter := [VarDecl("i", N(0)), WhileStatement(Below3, CounterBody)]

  /** The body's increment is lost with the block's scope, so `i` stays 0 and the loop never ends. */
  lemma {:induction false} CounterSpins(st: State, fuel: nat)
    requires "i" in st.scope && st.scope["i"] == Num(0) && !st.hasReturn
    ensures WhileLoop(st, Below3, CounterBody, fuel) == Err(OutOfFuel)
    decreases fuel
  {
    if fuel > 0 {
      var inner := st.(output := st.output + [Num(0)]);
      assert ExecStmt(st, Mostrame(I), fuel - 1) == Ok(inner);
      var bumped := inner.(scope := inner.scope["i" := Num(1)]);
      assert ExecStmt(inner, Increment, fuel - 1) == Ok(bumped);
      assert RunBlock(bumped, [], fuel - 1) == Ok(bumped);
      assert RunBlock(inner, [Increment], fuel - 1) == Ok(bumped);
      assert CounterBody[0] == Mostrame(I) && CounterBody[1..] == [Increment];
      assert RunBlock(st, CounterBody, fuel - 1) == Ok(bumped);
      assert st.(scope := st.scope + st.scope) == st;
      assert ExecBlock(st, CounterBody, st.scope, fuel - 1) == Ok(bumped.(scope := st.scope));
      CounterSpins(bumped.(scope := st.scope), fuel - 1);
    }
  }

  /** The counting program runs out of fuel whatever fuel it is given. */
  lemma CounterDiverges(fuel: nat)
    ensures RunProgram(Initial, Counter, fuel) == Err(OutOfFuel)
  {
    var st := Initial.(scope := map["i" := Num(0)]);
    assert ExecStmt(Initial, Counter[0], fuel) == Ok(st);
    CounterSpins(st, fuel);
    assert Counter[1..][1..] == [];
  }

  // ---------------------------------------------------------------------
  // batido (caramelo i = 0; i < 3; i = i + 1;) { mostrame(i); }
  // ---------------------------------------------------------------------

  const CountTo3 := ForStatement(VarDecl("i", N(0)), Below3, Increment, [Mostrame(I)])

  /** One pass of the `batido` loop: print `i`, then increment it in the enclosing scope. */
  lemma ForPass(st: State, k: nat, fuel: nat)
    requires "i" in st.scope && st.scope["i"] == Num(k) && k < 3 && fuel > 0
    ensures ForLoop(st, Below3, Increment, [Mostrame(I)], fuel)
         == ForLoop(st.(output := st.output + [Num(k)], scope := st.scope["i" := Num(k + 1)]), Below3, Increment, [Mostrame(I)], fuel - 1)
  {
    assert st.scope + st.scope == st.scope;
    var printed := st.(output := st.output + [Num(k)]);
    assert ExecStmt(st, Mostrame(I), fuel - 1) == Ok(printed);
    assert [Mostrame(I)][1..] == [];
    assert RunBlock(printed, [], fuel - 1) == Ok(printed);
    assert RunBlock(st, [Mostrame(I)], fuel - 1) == Ok(printed);
    assert st.(scope := st.scope + st.scope) == st;
    assert ExecBlock(st, [Mostrame(I)], st.scope, fuel - 1) == Ok(printed);
  }

  /** What the loop prints from pass `k` on. */
  function From(k: nat): seq<Value>
    decreases 3 - k
  {
    if k >= 3 then [] else [Num(k)] + From(k + 1)
  }

  /** With `i == 3` the condition is false and the loop stops at once. */
  lemma ForStops(st: State, fuel: nat)
    requires st.scope == map["i" := Num(3)]
    ensures ForLoop(st, Below3, Increment, [Mostrame(I)], fuel) == Ok(st)
  {
    assert Eval(st.scope, Below3) == Ok(Bool(false));
  }

  /** From `i == k` the loop prints `k`, ..., 2 and stops with `i` bound to 3. */
  lemma {:induction false} ForFinishes(st: State, k: nat, fuel: nat)
    requires st.scope == map["i" := Num(k)] && k <= 3 && fuel >= 3 - k
    ensures ForLoop(st, Below3, Increment, [Mostrame(I)], fuel)
         == Ok(st.(scope := map["i" := Num(3)], output := st.output + From(k)))
    decreases 3 - k
  {
    var done := st.(scope := map["i" := Num(3)], output := st.output + From(k));
    if k < 3 {
      ForPass(st, k, fuel);
      var next := st.(output := st.output + [Num(k)], scope := st.scope["i" := Num(k + 1)]);
      assert next.scope == map["i" := Num(k + 1)];
      ForFinishes(next, k + 1, fuel - 1);
      assert st.output + [Num(k)] + From(k + 1) == st.output + From(k);
      assert next.(scope := map["i" := Num(3)], output := next.output + From(k + 1)) == done;
      assert ForLoop(next, Below3, Increment, [Mostrame(I)], fuel - 1) == Ok(done);
    } else {
      ForStops(st, fuel);
      assert st.output + From(k) == st.output;
      assert done == st;
    }
  }

  /** The increment persists, so the loop prints 0, 1, 2 and leaves `i` bound to 3. */
  lemma CountTo3Prints(fuel: nat)
    requires fuel >= 3
    ensures RunProgram(Initial, [CountTo3], fuel)
         == Ok(State(map["i" := Num(3)], [Num(0), Num(1), Num(2)], Null, false))
  {
    var s0 := Initial.(scope := map["i" := Num(0)]);
    assert ExecStmt(Initial, VarDecl("i", N(0)), fuel) == Ok(s0);
    ForFinishes(s0, 0, fuel);
    assert From(0) == [Num(0), Num(1), Num(2)];
    var s3 := State(map["i" := Num(3)], [Num(0), Num(1), Num(2)], Null, false);
    assert s0.(scope := map["i" := Num(3)], output := s0.output + From(0)) == s3;
    assert ForLoop(s0, Below3, Increment, [Mostrame(I)], fuel) == Ok(s3);
    assert ExecStmt(Initial, CountTo3, fuel) == Ok(s3);
    assert RunProgram(s3, [], fuel) == Ok(s3);
  }

  // ---------------------------------------------------------------------
  // A `devolveme` is remembered for the rest of the run
  // ---------------------------------------------------------------------

  const ReturnsOne := FunctionDecl("f", [], [ReturnStatement(N(1))])
  const TwoPrints := IfStatement(N(1), [Mostrame(N(1)), Mostrame(N(2))], [])

  /**
    torta f() { devolveme 1; } f(); alfajor (1) { mostrame(1); mostrame(2); }
    prints only 1: the flag the call raised still cuts the later block short.
  */
  lemma ReturnFlagPersists(fuel: nat)
    requires fuel > 0
    ensures RunProgram(Initial, [ReturnsOne, FunctionCall("f", []), TwoPrints], fuel).Ok?
    ensures RunProgram(Initial, [ReturnsOne, FunctionCall("f", []), TwoPrints], fuel).value.output == [Num(1)]
  {
    var fv := FunctionValue("f", [], [ReturnStatement(N(1))]);
    var s1 := Initial.(scope := map["f" := fv]);
    assert ExecStmt(Initial, ReturnsOne, fuel) == Ok(s1);
    var s2 := s1.(returnValue := Num(1), hasReturn := true);
    assert Bind([], []) == map[] && s1.scope + map[] == s1.scope;
    assert ExecStmt(s1, ReturnStatement(N(1)), fuel - 1) == Ok(s2);
    assert RunBlock(s1, [ReturnStatement(N(1))], fuel - 1) == Ok(s2);
    assert s1.(scope := s1.scope + Bind([], [])) == s1;
    assert ExecBlock(s1, [ReturnStatement(N(1))], Bind([], []), fuel - 1) == Ok(s2);
    assert EvalArgs(s1.scope, []) == Ok([]);
    assert Call(s1, "f", [], fuel) == Ok(Called(s2, Num(1)));
    assert ExecStmt(s1, FunctionCall("f", []), fuel) == Ok(s2);
    assert s2.(scope := s2.scope + s2.scope) == s2;
    var s3 := s2.(output := s2.output + [Num(1)]);
    assert s3.output == [Num(1)];
    assert ExecStmt(s2, Mostrame(N(1)), fuel) == Ok(s3);
    assert RunBlock(s2, [Mostrame(N(1)), Mostrame(N(2))], fuel) == Ok(s3);
    assert ExecBlock(s2, [Mostrame(N(1)), Mostrame(N(2))], s2.scope, fuel) == Ok(s3);
    assert Truthy(Num(1));
    assert ExecStmt(s2, TwoPrints, fuel) == Ok(s3);
    assert RunProgram(s3, [], fuel) == Ok(s3);
    assert RunProgram(s2, [TwoPrints], fuel) == Ok(s3);
    assert RunProgram(s1, [FunctionCall("f", []), TwoPrints], fuel) == Ok(s3);
  }

  /** At the top level the flag is not consulted: `devolveme 1; mostrame(2);` prints 2. */
  lemma TopLevelIgnoresReturn(fuel: nat)
    ensures RunProgram(Initial, [ReturnStatement(N(1)), Mostrame(N(2))], fuel)
         == Ok(State(map[], [Num(2)], Num(1), true))
  {
    var s1 := Initial.(returnValue := Num(1), hasReturn := true);
    var s2 := s1.(output := s1.output + [Num(2)]);
    assert s2 == State(map[], [Num(2)], Num(1), true);
    assert ExecStmt(Initial, ReturnStatement(N(1)), fuel) == Ok(s1);
    assert ExecStmt(s1, Mostrame(N(2)), fuel) == Ok(s2);
    assert RunProgram(s2, [], fuel) == Ok(s2);
    assert RunProgram(s1, [Mostrame(N(2))], fuel) == Ok(s2);
  }

  // ---------------------------------------------------------------------
  // A function body sees its caller's variables
  // ---------------------------------------------------------------------

  /** caramelo x = 5; torta g() { mostrame(x); } g(); prints 5. */
  lemma CalleeSeesCaller(fuel: nat)
    requires fuel > 0
    ensures RunProgram(Initial, [VarDecl("x", N(5)), FunctionDecl("g", [], [Mostrame(Identifier("x"))]), FunctionCall("g", [])], fuel).Ok?
    ensures RunProgram(Initial, [VarDecl("x", N(5)), FunctionDecl("g", [], [Mostrame(Identifier("x"))]), FunctionCall("g", [])], fuel).value.output == [Num(5)]
  {
    var gv := FunctionValue("g", [], [Mostrame(Identifier("x"))]);
    var s1 := Initial.(scope := map["x" := Num(5)]);
    var s2 := s1.(scope := s1.scope["g" := gv]);
    assert ExecStmt(s1, FunctionDecl("g", [], [Mostrame(Identifier("x"))]), fuel) == Ok(s2);
    var s3 := s2.(output := s2.output + [Num(5)]);
    assert s3.output == [Num(5)];
    assert Bind([], []) == map[] && s2.scope + map[] == s2.scope;
    assert ExecStmt(s2, Mostrame(Identifier("x")), fuel - 1) == Ok(s3);
    assert [Mostrame(Identifier("x"))][1..] == [];
    assert RunBlock(s3, [], fuel - 1) == Ok(s3);
    assert RunBlock(s2, [Mostrame(Identifier("x"))], fuel - 1) == Ok(s3);
    assert s2.(scope := s2.scope + Bind([], [])) == s2;
    assert ExecBlock(s2, [Mostrame(Identifier("x"))], Bind([], []), fuel - 1) == Ok(s3);
    assert EvalArgs(s2.scope, []) == Ok([]);
    assert Call(s2, "g", [], fuel) == Ok(Called(s3, Null));
    assert ExecStmt(s2, FunctionCall("g", []), fuel) == Ok(s3);
    assert ExecStmt(Initial, VarDecl("x", N(5)), fuel) == Ok(s1);
    assert RunProgram(s3, [], fuel) == Ok(s3);
    assert RunProgram(s2, [FunctionCall("g", [])], fuel) == Ok(s3);
    assert RunProgram(s1, [FunctionDecl("g", [], [Mostrame(Identifier("x"))]), FunctionCall("g", [])], fuel) == Ok(s3);
  }
}
