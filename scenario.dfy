/** main.py runs `FunctionVisitor` over the parsed module test/factorial.py.
    This module writes down that module's syntax tree (and the one of
    test/fibonacci.py) and states what the visitor records for it. */
module Scenario {
  import opened Wrappers
  import opened Syntax
  import opened LoopAnalysis
  import opened FunctionAnalysis

  function Params(names: seq<string>): Arguments {
    Arguments([], seq(|names|, i requires 0 <= i < |names| => Arg(names[i])), None, [], None)
  }

  // test/factorial.py, line by line.
  /** The condition `n > 1` shared by both example loops. */
  function NGtOne(): Expr { Compare(Name("n"), Gt, Constant(1)) }
  function MulR(): Stmt { AugAssign(Name("r"), Mult, Name("n")) }
  function DecN(): Stmt { AugAssign(Name("n"), Sub, Constant(1)) }
  function FactorialLoop(): Stmt { While(NGtOne(), [MulR(), DecN()], []) }

  function FactorialDef(): Stmt {
    FunctionDef("factorial", Params(["n"]), [
      Assign([Name("r")], Constant(1)),
      FactorialLoop(),
      Return(Some(Name("r")))])
  }

  function TailLoopDef(): Stmt {
    FunctionDef("loop", Params(["n", "r"]), [
      If(Compare(Name("n"), LtE, Constant(1)), [Return(Some(Name("r")))], []),
      Return(Some(Call(Name("loop"), [BinOp(Name("n"), Sub, Constant(1)), BinOp(Name("r"), Mult, Name("n"))])))])
  }

  function FactorialTailDef(): Stmt {
    FunctionDef("factorial__tail", Params(["n"]), [
      TailLoopDef(),
      Return(Some(Call(Name("loop"), [Name("n"), Constant(1)])))])
  }

  function FactorialModule(): seq<Stmt> { [FactorialDef(), FactorialTailDef()] }

  /** A subtree without `def` nodes records no function descriptors. */
  lemma NoDefNoFunctions(ss: seq<Stmt>)
    requires CountInBlock(IsFunctionDef, ss) == 0
    ensures Functions(PreorderBlock(ss)) == []
  {
    FunctionCount(ss);
  }

  /** A subtree without `while` nodes records no loop descriptors. */
  lemma NoWhileNoLoops(ss: seq<Stmt>)
    requires CountInBlock(IsWhile, ss) == 0
    ensures Loops(PreorderBlock(ss)) == []
  {
    FlatMapCountBlock(LoopEntry, IsWhile, ss);
  }

  /** The body of `factorial`'s loop: two augmented assignments. */
  lemma FactorialLoopDescriptors()
    ensures Loops(Preorder(FactorialLoop())) == [LoopInfo(NGtOne(), [MulR(), DecN()])]
  {
    var body := [MulR(), DecN()];
    assert PreorderBlock(body) == body by {
      assert PreorderBlock(body[1..]) == [DecN()];
    }
    assert Updates(body) == body by {
      assert Updates(body[1..]) == [DecN()];
    }
    OuterLoopFirst(FactorialLoop());
    NoWhileNoLoops(body);
  }

  /** `factorial` is recorded with its one loop and nothing nested. */
  lemma FactorialDefDescriptors()
    ensures Functions(Preorder(FactorialDef())) ==
            [FunctionInfo("factorial", ["n"], [], [LoopInfo(NGtOne(), [MulR(), DecN()])])]
  {
    var body := FactorialDef().body;
    assert TopLevelLoops(body) == [LoopInfo(NGtOne(), [MulR(), DecN()])] by {
      TopLevelLoopsSplit(body[..1], FactorialLoop(), body[2..]);
      assert body[..1] + [FactorialLoop()] + body[2..] == body;
      NoTopLevelWhileNoLoops(body[..1]);
      NoTopLevelWhileNoLoops(body[2..]);
      FactorialLoopDescriptors();
    }
    assert ArgNames(Params(["n"])) == ["n"];
    EnclosingFunctionFirst(FactorialDef());
    assert CountInBlock(IsFunctionDef, body) == 0 by {
      assert CountIn(IsFunctionDef, FactorialLoop()) == 0;
    }
    NoDefNoFunctions(body);
  }

  /** The inner `loop` of `factorial__tail` has no `while` and no nested `def`. */
  lemma TailLoopDefDescriptors()
    ensures Functions(Preorder(TailLoopDef())) == [FunctionInfo("loop", ["n", "r"], [], [])]
  {
    assert ArgNames(Params(["n", "r"])) == ["n", "r"];
    NoTopLevelWhileNoLoops(TailLoopDef().body);
    EnclosingFunctionFirst(TailLoopDef());
    assert CountInBlock(IsFunctionDef, TailLoopDef().body) == 0;
    NoDefNoFunctions(TailLoopDef().body);
  }

  /** `factorial__tail` is recorded before the `loop` defined inside it. */
  lemma FactorialTailDefDescriptors()
    ensures Functions(Preorder(FactorialTailDef())) ==
            [FunctionInfo("factorial__tail", ["n"], [], []), FunctionInfo("loop", ["n", "r"], [], [])]
  {
    var body := FactorialTailDef().body;
    assert ArgNames(Params(["n"])) == ["n"];
    NoTopLevelWhileNoLoops(body);
    EnclosingFunctionFirst(FactorialTailDef());
    assert PreorderBlock(body) == Preorder(TailLoopDef()) + PreorderBlock(body[1..]);
    FlatMapAppend(FunctionEntry, Preorder(TailLoopDef()), PreorderBlock(body[1..]));
    assert CountInBlock(IsFunctionDef, body[1..]) == 0;
    NoDefNoFunctions(body[1..]);
    TailLoopDefDescriptors();
  }

  /** Visiting test/factorial.py gives three descriptors, in the order
      `factorial`, `factorial__tail`, then the inner `loop`; only `factorial`
      has a loop, with condition `n > 1` and updates `r *= n`, `n -= 1`. */
  lemma FactorialModuleDescriptors()
    ensures Functions(PreorderBlock(FactorialModule())) == [
      FunctionInfo("factorial", ["n"], [], [LoopInfo(NGtOne(), [MulR(), DecN()])]),
      FunctionInfo("factorial__tail", ["n"], [], []),
      FunctionInfo("loop", ["n", "r"], [], [])]
  {
    TwoStatementFunctions(FactorialDef(), FactorialTailDef());
    FactorialDefDescriptors();
    FactorialTailDefDescriptors();
  }

  /** A module of two statements: the first one's descriptors, then the
      second one's. */
  lemma TwoStatementFunctions(a: Stmt, b: Stmt)
    ensures Functions(PreorderBlock([a, b])) == Functions(Preorder(a)) + Functions(Preorder(b))
  {
    assert PreorderBlock([a, b]) == Preorder(a) + Preorder(b) by {
      assert [a, b][1..] == [b];
      assert PreorderBlock([b]) == Preorder(b) + PreorderBlock([]);
    }
    FlatMapAppend(FunctionEntry, Preorder(a), Preorder(b));
  }

  /** main.py: a fresh `FunctionVisitor` visits the parsed module. */
  method AnalyseFactorialModule() returns (functions: seq<FunctionInfo>)
    ensures functions == [
      FunctionInfo("factorial", ["n"], [], [LoopInfo(NGtOne(), [MulR(), DecN()])]),
      FunctionInfo("factorial__tail", ["n"], [], []),
      FunctionInfo("loop", ["n", "r"], [], [])]
  {
    var visitor := new FunctionVisitor();
    visitor.VisitModule(FactorialModule());
    functions := visitor.functions;
    FactorialModuleDescriptors();
  }

  // The `while` of test/fibonacci.py: a tuple assignment then a decrement.
  function SwapAB(): Stmt {
    Assign([Tuple([Name("a"), Name("b")])], Tuple([Name("b"), BinOp(Name("a"), Add, Name("b"))]))
  }
  function FibonacciLoop(): Stmt { While(NGtOne(), [SwapAB(), DecN()], []) }

  function FibonacciDef(): Stmt {
    FunctionDef("fibonacci", Params(["n"]), [
      If(Compare(Name("n"), LtE, Constant(1)), [Return(Some(Name("n")))], []),
      Assign([Name("a")], Constant(0)),
      Assign([Name("b")], Constant(1)),
      FibonacciLoop(),
      Return(Some(Name("b")))])
  }

  /** The body of `fibonacci`'s loop: the tuple assignment is one update. */
  lemma FibonacciLoopDescriptors()
    ensures Loops(Preorder(FibonacciLoop())) == [LoopInfo(NGtOne(), [SwapAB(), DecN()])]
  {
    var body := [SwapAB(), DecN()];
    assert PreorderBlock(body) == body by {
      assert PreorderBlock(body[1..]) == [DecN()];
    }
    assert Updates(body) == body by {
      assert Updates(body[1..]) == [DecN()];
    }
    OuterLoopFirst(FibonacciLoop());
    NoWhileNoLoops(body);
  }

  /** `fibonacci` has one loop whose updates are the tuple assignment
      `a, b = b, a + b` then `n -= 1`; the `if n <= 1: return n` before the
      loop contributes nothing. */
  lemma FibonacciDescriptor()
    ensures DescribeFunction(FibonacciDef()) ==
            FunctionInfo("fibonacci", ["n"], [], [LoopInfo(NGtOne(), [SwapAB(), DecN()])])
  {
    var body := FibonacciDef().body;
    TopLevelLoopsSplit(body[..3], FibonacciLoop(), body[4..]);
    assert body[..3] + [FibonacciLoop()] + body[4..] == body;
    NoTopLevelWhileNoLoops(body[..3]);
    NoTopLevelWhileNoLoops(body[4..]);
    FibonacciLoopDescriptors();
    assert ArgNames(Params(["n"])) == ["n"];
  }
}
