/** visitor/loop_visitor.py: `LoopVisitor` records one descriptor per `while`
    statement it reaches, and `LoopBodyVisitor` records every assignment and
    augmented assignment it reaches. Both are `ast.NodeVisitor`s: a node
    without a handler of its own is handled by `generic_visit`, which visits
    every child in field order. */
module LoopAnalysis {
  import opened Syntax

  /** A loop descriptor: the `while`'s test and the update statements found
      in its body. */
  datatype LoopInfo = LoopInfo(condition: Expr, updates: seq<Stmt>)

  predicate IsWhile(s: Stmt) {
    s.While?
  }

  /** What `LoopBodyVisitor` records on reaching one node. */
  function UpdateEntry(s: Stmt): seq<Stmt> {
    if IsUpdate(s) then [s] else []
  }

  /** The updates recorded for a sequence of nodes reached in that order. */
  function Updates(nodes: seq<Stmt>): seq<Stmt> {
    FlatMap(UpdateEntry, nodes)
  }

  /** The descriptor built for a `while` statement: its test, and the updates
      a fresh body visitor collects from the statements of its body. */
  function Describe(w: Stmt): LoopInfo
    requires w.While?
  {
    LoopInfo(w.test, Updates(PreorderBlock(w.body)))
  }

  /** What `LoopVisitor` records on reaching one node. */
  function LoopEntry(s: Stmt): seq<LoopInfo> {
    if s.While? then [Describe(s)] else []
  }

  /** The loop descriptors recorded for a sequence of nodes reached in that order. */
  function Loops(nodes: seq<Stmt>): seq<LoopInfo> {
    FlatMap(LoopEntry, nodes)
  }

  /** An element is recorded exactly when it is an update among the nodes. */
  lemma {:induction false} UpdatesMembership(nodes: seq<Stmt>, u: Stmt)
    ensures u in Updates(nodes) <==> u in nodes && IsUpdate(u)
  {
    if nodes != [] {
      UpdatesMembership(nodes[1..], u);
      assert nodes == [nodes[0]] + nodes[1..];
    }
  }

  /** A loop's updates are exactly the assignment and augmented-assignment
      nodes reachable from its body, however deeply nested (inside an `if`,
      an inner `while`, ...); nothing comes from its test or its `else` part
      unless the same statement also occurs in the body. */
  lemma UpdatesExactlyFromBody(w: Stmt, u: Stmt)
    requires w.While?
    ensures u in Describe(w).updates <==> IsUpdate(u) && u in PreorderBlock(w.body)
  {
    UpdatesMembership(PreorderBlock(w.body), u);
  }

  /** As many updates are recorded as there are assignment and
      augmented-assignment nodes in the loop's body. */
  lemma UpdatesCount(w: Stmt)
    requires w.While?
    ensures |Describe(w).updates| == CountInBlock(IsUpdate, w.body)
  {
    FlatMapCountBlock(UpdateEntry, IsUpdate, w.body);
  }

  /** A statement that is not an update records nothing itself; its children
      are still visited, so whatever they record is kept. */
  lemma NonUpdateDescends(s: Stmt)
    requires !IsUpdate(s)
    ensures Updates(Preorder(s)) == Updates(PreorderChildren(s))
  {
    FlatMapPreorder(UpdateEntry, s);
  }

  /** An update is recorded before the updates nested below it, and siblings
      in order: the record for `s` comes first. */
  lemma UpdateFirst(s: Stmt)
    requires IsUpdate(s)
    ensures Updates(Preorder(s)) == [s] + Updates(PreorderChildren(s))
  {
    FlatMapPreorder(UpdateEntry, s);
  }

  /** The descriptor of a `while` precedes those of the loops nested in its
      body, which precede those nested in its `else` part. */
  lemma OuterLoopFirst(w: Stmt)
    requires w.While?
    ensures Loops(Preorder(w)) ==
            [Describe(w)] + Loops(PreorderBlock(w.body)) + Loops(PreorderBlock(w.orelse))
  {
    FlatMapPreorder(LoopEntry, w);
    FlatMapAppend(LoopEntry, PreorderBlock(w.body), PreorderBlock(w.orelse));
  }

  /** A descriptor is recorded exactly when some `while` node among the nodes
      has that condition (its `test`) and that list of updates (its body's). */
  lemma {:induction false} LoopsMembership(nodes: seq<Stmt>, d: LoopInfo)
    ensures d in Loops(nodes) <==>
            exists w :: w in nodes && w.While? && d == LoopInfo(w.test, Updates(PreorderBlock(w.body)))
  {
    if nodes != [] {
      LoopsMembership(nodes[1..], d);
      assert nodes == [nodes[0]] + nodes[1..];
      assert Loops(nodes) == LoopEntry(nodes[0]) + Loops(nodes[1..]);
    }
  }

  /** One descriptor per `while` node of the subtree, `else` parts included. */
  lemma LoopCount(s: Stmt)
    ensures |Loops(Preorder(s))| == CountIn(IsWhile, s)
  {
    FlatMapCount(LoopEntry, IsWhile, s);
  }

  /** The visitor that collects the update statements of a loop body. */
  class LoopBodyVisitor {
    var updates: seq<Stmt>

    constructor ()
      ensures updates == []
    {
      updates := [];
    }

    /** `visit`: dispatch on the node's kind. */
    method Visit(s: Stmt)
      modifies this
      ensures updates == old(updates) + Updates(Preorder(s))
      decreases s, 2
    {
      match s
      case Assign(_, _) => VisitAssign(s);
      case AugAssign(_, _, _) => VisitAugAssign(s);
      case _ =>
        ghost var u0 := updates;
        GenericVisit(s);
        VisitNodeStep(UpdateEntry, s, u0, u0, updates);
    }

    method VisitAssign(s: Stmt)
      requires s.Assign?
      modifies this
      ensures updates == old(updates) + Updates(Preorder(s))
      decreases s, 1
    {
      ghost var u0 := updates;
      updates := updates + [s];
      ghost var u1 := updates;
      GenericVisit(s);
      VisitNodeStep(UpdateEntry, s, u0, u1, updates);
    }

    method VisitAugAssign(s: Stmt)
      requires s.AugAssign?
      modifies this
      ensures updates == old(updates) + Updates(Preorder(s))
      decreases s, 1
    {
      ghost var u0 := updates;
      updates := updates + [s];
      ghost var u1 := updates;
      GenericVisit(s);
      VisitNodeStep(UpdateEntry, s, u0, u1, updates);
    }

    /** `generic_visit`: visit the statement-list fields in field order. */
    method GenericVisit(s: Stmt)
      modifies this
      ensures updates == old(updates) + Updates(PreorderChildren(s))
      decreases s, 0
    {
      ghost var u0 := updates;
      match s
      case While(_, body, orelse) =>
        VisitBlock(body);
        ghost var u1 := updates;
        VisitBlock(orelse);
        VisitTwoBlocksStep(UpdateEntry, s, u0, u1, updates);
      case If(_, body, orelse) =>
        VisitBlock(body);
        ghost var u1 := updates;
        VisitBlock(orelse);
        VisitTwoBlocksStep(UpdateEntry, s, u0, u1, updates);
      case FunctionDef(_, _, body) =>
        VisitBlock(body);
      case Other(_, children) =>
        VisitBlock(children);
      case _ =>
    }

    /** Visit each statement of a list field, in order. */
    method VisitBlock(ss: seq<Stmt>)
      modifies this
      ensures updates == old(updates) + Updates(PreorderBlock(ss))
      decreases ss
    {
      var i := 0;
      while i < |ss|
        invariant 0 <= i <= |ss|
        invariant updates == old(updates) + Updates(PreorderBlock(ss[..i]))
      {
        ghost var u1 := updates;
        Visit(ss[i]);
        VisitListStep(UpdateEntry, ss, i, old(updates), u1, updates);
        i := i + 1;
      }
      assert ss[..i] == ss;
    }
  }

  /** The visitor that builds one descriptor per `while` statement. */
  class LoopVisitor {
    var loops: seq<LoopInfo>

    constructor ()
      ensures loops == []
    {
      loops := [];
    }

    /** `visit`: dispatch on the node's kind. */
    method Visit(s: Stmt)
      modifies this
      ensures loops == old(loops) + Loops(Preorder(s))
      decreases s, 2
    {
      match s
      case While(_, _, _) => VisitWhile(s);
      case _ =>
        ghost var l0 := loops;
        GenericVisit(s);
        VisitNodeStep(LoopEntry, s, l0, l0, loops);
    }

    /** `visit_While`: one shared body visitor walks the body statements one
        by one; the descriptor, made of the test and the collected updates,
        is appended before the children are visited. */
    method VisitWhile(s: Stmt)
      requires s.While?
      modifies this
      ensures loops == old(loops) + Loops(Preorder(s))
      decreases s, 1
    {
      var bodyVisitor := new LoopBodyVisitor();
      bodyVisitor.VisitBlock(s.body);
      assert bodyVisitor.updates == Updates(PreorderBlock(s.body));
      ghost var l0 := loops;
      loops := loops + [LoopInfo(s.test, bodyVisitor.updates)];
      ghost var l1 := loops;
      GenericVisit(s);
      VisitNodeStep(LoopEntry, s, l0, l1, loops);
    }

    /** `generic_visit`: visit the statement-list fields in field order. */
    method GenericVisit(s: Stmt)
      modifies this
      ensures loops == old(loops) + Loops(PreorderChildren(s))
      decreases s, 0
    {
      ghost var l0 := loops;
      match s
      case While(_, body, orelse) =>
        VisitBlock(body);
        ghost var l1 := loops;
        VisitBlock(orelse);
        VisitTwoBlocksStep(LoopEntry, s, l0, l1, loops);
      case If(_, body, orelse) =>
        VisitBlock(body);
        ghost var l1 := loops;
        VisitBlock(orelse);
        VisitTwoBlocksStep(LoopEntry, s, l0, l1, loops);
      case FunctionDef(_, _, body) =>
        VisitBlock(body);
      case Other(_, children) =>
        VisitBlock(children);
      case _ =>
    }

    /** Visit each statement of a list field, in order. */
    method VisitBlock(ss: seq<Stmt>)
      modifies this
      ensures loops == old(loops) + Loops(PreorderBlock(ss))
      decreases ss
    {
      var i := 0;
      while i < |ss|
        invariant 0 <= i <= |ss|
        invariant loops == old(loops) + Loops(PreorderBlock(ss[..i]))
      {
        ghost var l1 := loops;
        Visit(ss[i]);
        VisitListStep(LoopEntry, ss, i, old(loops), l1, loops);
        i := i + 1;
      }
      assert ss[..i] == ss;
    }
  }
}
