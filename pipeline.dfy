/**
  compiler.js:8-30: lex, parse, analyze, interpret, stopping at the first
  stage that fails; a successful run shows the output.
*/
module Pipeline {
  import opened Results
  import opened Ast
  import Lexing
  import Parsing
  import Semantic
  import Semantics

  /** The stage that stopped the run, with its error. */
  datatype CompileError =
    | LexFailure(lex: Lexing.LexError)
    | ParseFailure(parse: Parsing.ParseError)
    | SemanticFailure(semantic: Semantic.SemanticError)
    | RuntimeFailure(runtime: Semantics.RuntimeError)

  /** The whole pipeline on a source text; success yields the values printed. */
  function Run(code: string, fuel: nat): (r: Result<seq<Semantics.Value>, CompileError>)
    ensures r.Ok? ==>
      && Lexing.Scan(code).Ok?
      && Parsing.ParseProgram(Lexing.Scan(code).value, 0).Ok?
      && Semantic.CheckBlock(map[], Parsing.ParseProgram(Lexing.Scan(code).value, 0).value).error.None?
      && Semantics.RunProgram(Semantics.Initial, Parsing.ParseProgram(Lexing.Scan(code).value, 0).value, fuel).Ok?
    ensures Lexing.Scan(code).Err? ==> r == Err(LexFailure(Lexing.Scan(code).error))
  {
    match Lexing.Scan(code)
    case Err(e) => Err(LexFailure(e))
    case Ok(tokens) =>
      match Parsing.ParseProgram(tokens, 0)
      case Err(e) => Err(ParseFailure(e))
      case Ok(ast) =>
        var checked := Semantic.CheckBlock(map[], ast);
        if checked.error.Some? then Err(SemanticFailure(checked.error.value))
        else
          match Semantics.RunProgram(Semantics.Initial, ast, fuel)
          case Err(e) => Err(RuntimeFailure(e))
          case Ok(st) => Ok(st.output)
  }

  /**
    The analyzer keeps one table for the whole program while the interpreter
    drops a block's declarations at its end, so
    `alfajor (1) { caramelo x = 1; } mostrame(x);` passes analysis and then
    fails at run time.
  */
  lemma AnalyzerIgnoresBlocks(fuel: nat)
    ensures Semantic.CheckBlock(map[], [IfStatement(Literal(NumberLit(1)), [VarDecl("x", Literal(NumberLit(1)))], []), Mostrame(Identifier("x"))]).error.None?
    ensures Semantics.RunProgram(Semantics.Initial, [IfStatement(Literal(NumberLit(1)), [VarDecl("x", Literal(NumberLit(1)))], []), Mostrame(Identifier("x"))], fuel)
         == Err(Semantics.UndeclaredVariable("x"))
  {
    var declare := [VarDecl("x", Literal(NumberLit(1)))];
    var branch := IfStatement(Literal(NumberLit(1)), declare, []);
    var show := Mostrame(Identifier("x"));
    var t1 := map["x" := Semantic.Variable];
    assert Semantic.CheckBlock(map[], declare) == Semantic.Checked(t1, None) by {
      assert Semantic.CheckBlock(t1, []) == Semantic.Checked(t1, None);
    }
    assert Semantic.CheckBlock(t1, []) == Semantic.Checked(t1, None);
    assert Semantic.CheckStmt(map[], branch) == Semantic.Checked(t1, None);
    assert Semantic.CheckBlock(t1, [show]) == Semantic.Checked(t1, None);

    var st := Semantics.Initial;
    var inner := st.(scope := map["x" := Semantics.Num(1)]);
    assert st.scope + st.scope == st.scope;
    assert Semantics.RunBlock(inner, [], fuel) == Ok(inner);
    assert Semantics.RunBlock(st, declare, fuel) == Ok(inner);
    assert Semantics.ExecStmt(st, branch, fuel) == Ok(st);
    assert Semantics.ExecStmt(st, show, fuel) == Err(Semantics.UndeclaredVariable("x"));
  }
}
