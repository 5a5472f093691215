/** visitor/function_visitor.py: `FunctionVisitor` records one descriptor per
    `def` it reaches, anywhere in the tree, and then keeps walking into the
    function's body, so nested functions are recorded after the function
    that encloses them. */
module FunctionAnalysis {
  import opened Syntax
  import opened LoopAnalysis

  /** A function descriptor: the dictionary with keys `name`, `args`,
      `initial_assignments` and `loops`, in that order. The source never puts
      anything into `initial_assignments`; it is kept as an ordered list of
      entries. */
  datatype FunctionInfo = FunctionInfo(
    name: string,
    args: seq<string>,
    initialAssignments: seq<(string, Expr)>,
    loops: seq<LoopInfo>)

  /** The names of the ordinary positional parameters (`node.args.args`), in
      declaration order. Positional-only, `*args`, keyword-only and
      `**kwargs` parameters are not among them. */
  function ArgNames(params: Arguments): (r: seq<string>)
    ensures |r| == |params.args|
    ensures forall i :: 0 <= i < |r| ==> r[i] == params.args[i].arg
  {
    seq(|params.args|, i requires 0 <= i < |params.args| => params.args[i].arg)
  }

  /** The loops contributed by one statement of a function body: a `while`
      statement contributes every loop a fresh `LoopVisitor` finds in it (the
      statement itself and the loops nested in it); any other statement,
      even one with a `while` nested inside, contributes nothing. */
  function TopLevelEntry(s: Stmt): seq<LoopInfo> {
    if s.While? then Loops(Preorder(s)) else []
  }

  /** The `loops` field: the top-level statements' loops, in order. */
  function TopLevelLoops(body: seq<Stmt>): seq<LoopInfo> {
    FlatMap(TopLevelEntry, body)
  }

  /** The descriptor built for a `def`. */
  function DescribeFunction(f: Stmt): FunctionInfo
    requires f.FunctionDef?
  {
    FunctionInfo(f.name, ArgNames(f.args), [], TopLevelLoops(f.body))
  }

  /** What `FunctionVisitor` records on reaching one node. */
  function FunctionEntry(s: Stmt): seq<FunctionInfo> {
    if s.FunctionDef? then [DescribeFunction(s)] else []
  }

  /** The descriptors recorded for a sequence of nodes reached in that order. */
  function Functions(nodes: seq<Stmt>): seq<FunctionInfo> {
    FlatMap(FunctionEntry, nodes)
  }

  predicate IsFunctionDef(s: Stmt) {
    s.FunctionDef?
  }

  /** A function's descriptor precedes those of the functions nested in it. */
  lemma EnclosingFunctionFirst(f: Stmt)
    requires f.FunctionDef?
    ensures Functions(Preorder(f)) == [DescribeFunction(f)] + Functions(PreorderBlock(f.body))
  {
    FlatMapPreorder(FunctionEntry, f);
  }

  /** A descriptor is recorded exactly when some `def` node among the nodes
      has that name, those positional argument names and those top-level
      loops, with empty initial assignments. */
  lemma {:induction false} FunctionsMembership(nodes: seq<Stmt>, d: FunctionInfo)
    ensures d in Functions(nodes) <==>
            exists f :: f in nodes && f.FunctionDef? &&
                        d == FunctionInfo(f.name, ArgNames(f.args), [], TopLevelLoops(f.body))
  {
    if nodes != [] {
      FunctionsMembership(nodes[1..], d);
      assert nodes == [nodes[0]] + nodes[1..];
      assert Functions(nodes) == FunctionEntry(nodes[0]) + Functions(nodes[1..]);
    }
  }

  /** No recorded descriptor has any initial assignment. */
  lemma NoInitialAssignments(nodes: seq<Stmt>)
    ensures forall d :: d in Functions(nodes) ==> d.initialAssignments == []
  {
    forall d | d in Functions(nodes)
      ensures d.initialAssignments == []
    {
      FunctionsMembership(nodes, d);
    }
  }

  /** Exactly one descriptor per `def` node in the module, whatever the names:
      two functions of the same name give two descriptors. */
  lemma FunctionCount(stmts: seq<Stmt>)
    ensures |Functions(PreorderBlock(stmts))| == CountInBlock(IsFunctionDef, stmts)
  {
    FlatMapCountBlock(FunctionEntry, IsFunctionDef, stmts);
  }

  /** Only `while` statements directly in the body are analysed: a body with
      no top-level `while` has no loops, whatever is nested in its `if`s. */
  lemma {:induction false} NoTopLevelWhileNoLoops(body: seq<Stmt>)
    requires forall i :: 0 <= i < |body| ==> !body[i].While?
    ensures TopLevelLoops(body) == []
  {
    if body != [] {
      NoTopLevelWhileNoLoops(body[1..]);
    }
  }

  /** The `loops` field lists, for each top-level `while` in order, that loop
      and then the loops nested in it. */
  lemma TopLevelLoopsSplit(before: seq<Stmt>, w: Stmt, after: seq<Stmt>)
    requires w.While?
    ensures TopLevelLoops(before + [w] + after) ==
            TopLevelLoops(before) + [Describe(w)] +
            Loops(PreorderBlock(w.body)) + Loops(PreorderBlock(w.orelse)) +
            TopLevelLoops(after)
  {
    FlatMapAppend(TopLevelEntry, before + [w], after);
    FlatMapAppend(TopLevelEntry, before, [w]);
    OuterLoopFirst(w);
  }

  /** One more top-level statement adds its own loops at the end. */
  lemma TopLevelLoopsSnoc(body: seq<Stmt>, i: nat)
    requires i < |body|
    ensures TopLevelLoops(body[..i + 1]) == TopLevelLoops(body[..i]) + TopLevelEntry(body[i])
  {
    assert body[..i + 1] == body[..i] + [body[i]];
    FlatMapAppend(TopLevelEntry, body[..i], [body[i]]);
  }

  /** The visitor that builds one descriptor per function definition. */
  class FunctionVisitor {
    var functions: seq<FunctionInfo>

    constructor ()
      ensures functions == []
    {
      functions := [];
    }

    /** `visit(tree)` on a module: the module's statements, in order. */
    method VisitModule(body: seq<Stmt>)
      modifies this
      ensures functions == old(functions) + Functions(PreorderBlock(body))
    {
      VisitBlock(body);
    }

    /** `visit`: dispatch on the node's kind. */
    method Visit(s: Stmt)
      modifies this
      ensures functions == old(functions) + Functions(Preorder(s))
      decreases s, 2
    {
      match s
      case FunctionDef(_, _, _) => VisitFunctionDef(s);
      case _ =>
        ghost var f0 := functions;
        GenericVisit(s);
        VisitNodeStep(FunctionEntry, s, f0, f0, functions);
    }

    /** `visit_FunctionDef`: run a fresh `LoopVisitor` on each top-level
        `while` of the body and collect its loops, append the descriptor,
        then visit the children. */
    method VisitFunctionDef(s: Stmt)
      requires s.FunctionDef?
      modifies this
      ensures functions == old(functions) + Functions(Preorder(s))
      decreases s, 1
    {
      var loops: seq<LoopInfo> := [];
      var i := 0;
      while i < |s.body|
        invariant 0 <= i <= |s.body|
        invariant loops == TopLevelLoops(s.body[..i])
        invariant functions == old(functions)
      {
        var stmt := s.body[i];
        if stmt.While? {
          var loopVisitor := new LoopVisitor();
          loopVisitor.Visit(stmt);
          assert loopVisitor.loops == TopLevelEntry(stmt);
          loops := loops + loopVisitor.loops;
        }
        TopLevelLoopsSnoc(s.body, i);
        i := i + 1;
      }
      assert s.body[..i] == s.body;
      var info := FunctionInfo(s.name, ArgNames(s.args), [], loops);
      ghost var f0 := functions;
      functions := functions + [info];
      ghost var f1 := functions;
      GenericVisit(s);
      VisitNodeStep(FunctionEntry, s, f0, f1, functions);
    }

    /** `generic_visit`: visit the statement-list fields in field order. */
    method GenericVisit(s: Stmt)
      modifies this
      ensures functions == old(functions) + Functions(PreorderChildren(s))
      decreases s, 0
    {
      ghost var f0 := functions;
      match s
      case While(_, body, orelse) =>
        VisitBlock(body);
        ghost var f1 := functions;
        VisitBlock(orelse);
        VisitTwoBlocksStep(FunctionEntry, s, f0, f1, functions);
      case If(_, body, orelse) =>
        VisitBlock(body);
        ghost var f1 := functions;
        VisitBlock(orelse);
        VisitTwoBlocksStep(FunctionEntry, s, f0, f1, functions);
      case FunctionDef(_, _, body) =>
        VisitBlock(body);
      case Other(_, children) =>
        VisitBlock(children);
      case _ =>
    }

    /** Visit each statement of a list field, in order. */
    method VisitBlock(ss: seq<Stmt>)
      modifies this
      ensures functions == old(functions) + Functions(PreorderBlock(ss))
      decreases ss
    {
      var i := 0;
      while i < |ss|
        invariant 0 <= i <= |ss|
        invariant functions == old(functions) + Functions(PreorderBlock(ss[..i]))
      {
        ghost var f1 := functions;
        Visit(ss[i]);
        VisitListStep(FunctionEntry, ss, i, old(functions), f1, functions);
        i := i + 1;
      }
      assert ss[..i] == ss;
    }
  }
}
