/** The fragment of Python's `ast` statement tree that the analysis visitors
    look at, and the pre-order walk that `ast.NodeVisitor.generic_visit`
    performs over it.

    Expressions stay opaque to the visitors: in Python's syntax tree no
    statement can occur inside an expression (a lambda's body is itself an
    expression), so descending into an expression never reaches a node that a
    visitor records. Expressions are therefore leaves of the walk. */
module Syntax {
  import opened Wrappers

  datatype Operator = Add | Sub | Mult

  datatype CmpOp = Gt | LtE

  /** Expression nodes: only the shapes needed to write down the example
      programs. The visitors never look inside an expression. */
  datatype Expr =
    | Name(id: string)
    | Constant(value: int)
    | BinOp(left: Expr, op: Operator, right: Expr)
    | Compare(left: Expr, cmp: CmpOp, right: Expr)
    | Tuple(elts: seq<Expr>)
    | Call(func: Expr, callArgs: seq<Expr>)

  /** One formal parameter (`ast.arg`); only its name matters here. */
  datatype Arg = Arg(arg: string)

  /** `ast.arguments`: the parameter groups of a `def`, in Python's order. */
  datatype Arguments = Arguments(
    posonlyargs: seq<Arg>,
    args: seq<Arg>,
    vararg: Option<Arg>,
    kwonlyargs: seq<Arg>,
    kwarg: Option<Arg>)

  /** Statement nodes. The statement-list fields are listed in the order of
      the node's `_fields`, which is the order `generic_visit` visits them.
      Any other statement kind (for, with, try, class, ...) is `Other`, whose
      `children` are its nested statements in field order. */
  datatype Stmt =
    | Assign(targets: seq<Expr>, value: Expr)
    | AugAssign(target: Expr, op: Operator, value: Expr)
    | While(test: Expr, body: seq<Stmt>, orelse: seq<Stmt>)
    | If(test: Expr, body: seq<Stmt>, orelse: seq<Stmt>)
    | FunctionDef(name: string, args: Arguments, body: seq<Stmt>)
    | Return(returned: Option<Expr>)
    | Other(kind: string, children: seq<Stmt>)

  /** The statements a visitor that records `Assign` and `AugAssign` keeps. */
  predicate IsUpdate(s: Stmt) {
    s.Assign? || s.AugAssign?
  }

  /** Every statement node of `s`'s subtree, node before its children,
      children in field order. */
  function Preorder(s: Stmt): (r: seq<Stmt>)
    decreases s
    ensures |r| >= 1 && r[0] == s
  {
    match s
    case Assign(_, _) => [s]
    case AugAssign(_, _, _) => [s]
    case While(_, body, orelse) => [s] + PreorderBlock(body) + PreorderBlock(orelse)
    case If(_, body, orelse) => [s] + PreorderBlock(body) + PreorderBlock(orelse)
    case FunctionDef(_, _, body) => [s] + PreorderBlock(body)
    case Return(_) => [s]
    case Other(_, children) => [s] + PreorderBlock(children)
  }

  /** The pre-order walks of a statement list, siblings in order. */
  function PreorderBlock(ss: seq<Stmt>): (r: seq<Stmt>)
    decreases ss
    ensures |r| >= |ss|
  {
    if ss == [] then [] else Preorder(ss[0]) + PreorderBlock(ss[1..])
  }

  /** The nodes that `generic_visit(s)` reaches, in the order it reaches them. */
  function PreorderChildren(s: Stmt): seq<Stmt>
  {
    match s
    case While(_, body, orelse) => PreorderBlock(body) + PreorderBlock(orelse)
    case If(_, body, orelse) => PreorderBlock(body) + PreorderBlock(orelse)
    case FunctionDef(_, _, body) => PreorderBlock(body)
    case Other(_, children) => PreorderBlock(children)
    case _ => []
  }

  /** What a visitor records for a list of nodes: the concatenation of the
      records `entry` makes for each node, in order. */
  function FlatMap<T>(entry: Stmt -> seq<T>, nodes: seq<Stmt>): seq<T>
  {
    if nodes == [] then [] else entry(nodes[0]) + FlatMap(entry, nodes[1..])
  }

  /** Structural count of the nodes of `s`'s subtree satisfying `p`, written
      without reference to `Preorder`. */
  function CountIn(p: Stmt -> bool, s: Stmt): nat
    decreases s
  {
    (if p(s) then 1 else 0) +
    match s
    case While(_, body, orelse) => CountInBlock(p, body) + CountInBlock(p, orelse)
    case If(_, body, orelse) => CountInBlock(p, body) + CountInBlock(p, orelse)
    case FunctionDef(_, _, body) => CountInBlock(p, body)
    case Other(_, children) => CountInBlock(p, children)
    case _ => 0
  }

  function CountInBlock(p: Stmt -> bool, ss: seq<Stmt>): nat
    decreases ss
  {
    if ss == [] then 0 else CountIn(p, ss[0]) + CountInBlock(p, ss[1..])
  }

  lemma {:induction false} FlatMapAppend<T>(entry: Stmt -> seq<T>, a: seq<Stmt>, b: seq<Stmt>)
    ensures FlatMap(entry, a + b) == FlatMap(entry, a) + FlatMap(entry, b)
  {
    if a == [] {
      assert a + b == b;
    } else {
      assert (a + b)[1..] == a[1..] + b;
      FlatMapAppend(entry, a[1..], b);
    }
  }

  lemma {:induction false} PreorderBlockAppend(a: seq<Stmt>, b: seq<Stmt>)
    ensures PreorderBlock(a + b) == PreorderBlock(a) + PreorderBlock(b)
  {
    if a == [] {
      assert a + b == b;
    } else {
      assert (a + b)[1..] == a[1..] + b;
      PreorderBlockAppend(a[1..], b);
    }
  }

  /** Walking one more sibling appends that sibling's walk. */
  lemma PreorderBlockSnoc(ss: seq<Stmt>, i: nat)
    requires i < |ss|
    ensures PreorderBlock(ss[..i + 1]) == PreorderBlock(ss[..i]) + Preorder(ss[i])
  {
    assert ss[..i + 1] == ss[..i] + [ss[i]];
    PreorderBlockAppend(ss[..i], [ss[i]]);
  }

  /** A node's walk is the node followed by what `generic_visit` reaches. */
  lemma PreorderUnfold(s: Stmt)
    ensures Preorder(s) == [s] + PreorderChildren(s)
  {
  }

  /** Recording over a node's walk: the node's own record comes first. */
  lemma FlatMapPreorder<T>(entry: Stmt -> seq<T>, s: Stmt)
    ensures FlatMap(entry, Preorder(s)) == entry(s) + FlatMap(entry, PreorderChildren(s))
  {
    PreorderUnfold(s);
    FlatMapAppend(entry, [s], PreorderChildren(s));
  }

  /** If `entry` records exactly one item for each node satisfying `p` and none
      for the others, the walk records as many items as the subtree has such
      nodes. */
  lemma {:induction false} FlatMapCount<T>(entry: Stmt -> seq<T>, p: Stmt -> bool, s: Stmt)
    requires forall x :: |entry(x)| == if p(x) then 1 else 0
    ensures |FlatMap(entry, Preorder(s))| == CountIn(p, s)
    decreases s
  {
    FlatMapPreorder(entry, s);
    match s
    case While(_, body, orelse) =>
      FlatMapAppend(entry, PreorderBlock(body), PreorderBlock(orelse));
      FlatMapCountBlock(entry, p, body);
      FlatMapCountBlock(entry, p, orelse);
    case If(_, body, orelse) =>
      FlatMapAppend(entry, PreorderBlock(body), PreorderBlock(orelse));
      FlatMapCountBlock(entry, p, body);
      FlatMapCountBlock(entry, p, orelse);
    case FunctionDef(_, _, body) =>
      FlatMapCountBlock(entry, p, body);
    case Other(_, children) =>
      FlatMapCountBlock(entry, p, children);
    case _ =>
  }

  lemma {:induction false} FlatMapCountBlock<T>(entry: Stmt -> seq<T>, p: Stmt -> bool, ss: seq<Stmt>)
    requires forall x :: |entry(x)| == if p(x) then 1 else 0
    ensures |FlatMap(entry, PreorderBlock(ss))| == CountInBlock(p, ss)
    decreases ss
  {
    if ss != [] {
      FlatMapAppend(entry, Preorder(ss[0]), PreorderBlock(ss[1..]));
      FlatMapCount(entry, p, ss[0]);
      FlatMapCountBlock(entry, p, ss[1..]);
    }
  }

  /** The bookkeeping steps of a visitor whose record list `r` grows by the
      records of each node it reaches; each one turns the postconditions of
      the calls a visit method makes into that method's own postcondition. */
  lemma VisitNodeStep<T>(entry: Stmt -> seq<T>, s: Stmt, r0: seq<T>, r1: seq<T>, r2: seq<T>)
    requires r1 == r0 + entry(s)
    requires r2 == r1 + FlatMap(entry, PreorderChildren(s))
    ensures r2 == r0 + FlatMap(entry, Preorder(s))
  {
    FlatMapPreorder(entry, s);
  }

  lemma VisitTwoBlocksStep<T>(entry: Stmt -> seq<T>, s: Stmt, r0: seq<T>, r1: seq<T>, r2: seq<T>)
    requires s.While? || s.If?
    requires r1 == r0 + FlatMap(entry, PreorderBlock(s.body))
    requires r2 == r1 + FlatMap(entry, PreorderBlock(s.orelse))
    ensures r2 == r0 + FlatMap(entry, PreorderChildren(s))
  {
    ghost var a, b := PreorderBlock(s.body), PreorderBlock(s.orelse);
    assert PreorderChildren(s) == a + b by {
      if s.While? {
      } else {
      }
    }
    FlatMapAppend(entry, a, b);
    assert r2 == r0 + (FlatMap(entry, a) + FlatMap(entry, b));
  }

  lemma VisitListStep<T>(entry: Stmt -> seq<T>, ss: seq<Stmt>, i: nat, r0: seq<T>, r1: seq<T>, r2: seq<T>)
    requires i < |ss|
    requires r1 == r0 + FlatMap(entry, PreorderBlock(ss[..i]))
    requires r2 == r1 + FlatMap(entry, Preorder(ss[i]))
    ensures r2 == r0 + FlatMap(entry, PreorderBlock(ss[..i + 1]))
  {
    PreorderBlockSnoc(ss, i);
    FlatMapAppend(entry, PreorderBlock(ss[..i]), Preorder(ss[i]));
  }
}
