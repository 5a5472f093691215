# iter2rec: analysis visitors, reference programs and AST formatter

iter2rec is a Python tool meant to turn `while`-loop functions into
tail-recursive ones. The code that exists does three things, and this Dafny
project models all three.

- **Analysis visitors.** Three `ast.NodeVisitor` subclasses. `FunctionVisitor`
  walks the parsed module and runs the other two on parts of it. It records
  one descriptor per `def`: its name, its positional parameters, an
  always-empty `initial_assignments` and the loops of its top-level `while`
  statements. To find those loops it runs a fresh `LoopVisitor` on each
  top-level `while`. `LoopVisitor` records one descriptor per `while` loop:
  its condition and the assignment statements found in its body. A
  `LoopBodyVisitor`, driven over the body statements one at a time, collects
  those assignments.
- **Reference programs.** `factorial` and `fibonacci` are each written twice,
  once as a `while` loop and once as tail recursion through an inner
  `loop`. They are the intended output of the conversion.
- **Debug formatter.** `format_ast_node` renders nodes, lists, tuples and
  dictionaries as text.

The converter itself (`iter2tail`) is only a docstring and comments. Its
step comments (converter/tail_recursion.py:17-20) outline a tree synthesis
that no code performs, so the model has none; the code is followed here.

Modules:

- `Syntax` (syntax.dfy) defines the statement tree. It also defines the
  pre-order walk `Preorder` that `generic_visit` performs, and `FlatMap`,
  which collects a per-node entry along that walk.
- `LoopAnalysis` (loop_visitor.dfy) holds the pure descriptions `Updates`,
  `Describe` and `Loops`, and the classes `LoopBodyVisitor` and
  `LoopVisitor`. Each class keeps its list as a `seq` field. Every visit
  method is proved to append exactly the pure collection of its subtree.
- `FunctionAnalysis` (function_visitor.dfy) does the same for
  `FunctionVisitor`.
- `Scenario` (scenario.dfy) writes down the syntax trees of test/factorial.py
  and of `fibonacci`. It proves what the visitors record for them, and in
  particular what main.py's visitor records.
- `FactorialExample` (factorial.dfy) and `FibonacciExample` (fibonacci.dfy)
  model the reference programs. Each loop is a method with a `while` loop
  and each tail form is a recursive function. The two forms are proved
  equal on every integer for factorial, and for n >= 0 for fibonacci (see
  "## Findings").
- `AstFormat` (ast_utils.dfy) models `format_ast_node`. `ast.dump`, `repr`
  and `str` are left abstract as function parameters. `Lines` reads a
  string as Python's `s.split("\n")` would; it is a device for stating the
  one-line-per-element layout and models no source line.
- `Wrappers` (wrappers.dfy) holds `Option`.

## Model

| member | source | states |
|---|---|---|
| Syntax.PreorderChildren | visitor/loop_visitor.py:22 | what `generic_visit` walks: the statement-list fields in field order, `orelse` included; characterized by `Syntax.FlatMapPreorder` and the `GenericVisit` methods |
| Syntax.PreorderBlock | visitor/loop_visitor.py:22 | `generic_visit`'s walk over a statement-list field, each statement's walk in order; at least one node per statement; characterized by `PreorderBlockAppend` and `PreorderBlockSnoc` |
| Syntax.Preorder | visitor/loop_visitor.py:22 | the walk starts at the node itself, before any of its descendants |
| Syntax.FlatMapAppend | visitor/loop_visitor.py:17-18 | visiting two node lists one after the other records the first list's entries, then the second's |
| Syntax.PreorderBlockAppend | visitor/loop_visitor.py:17-18 | the walk of two statement lists in sequence is the first list's walk, then the second's |
| Syntax.FlatMapCount | visitor/loop_visitor.py:29-35 | a visitor that records one entry per node of some kind records, over a subtree, as many entries as the subtree has nodes of that kind |
| Syntax.FlatMapCountBlock | visitor/loop_visitor.py:29-35 | the same count over a statement list |
| LoopAnalysis.UpdateEntry | visitor/loop_visitor.py:29-35 | what one node adds to `updates`: itself when it is an `Assign` or `AugAssign`, nothing otherwise; characterized by `UpdateFirst` and `NonUpdateDescends` |
| LoopAnalysis.Updates | visitor/loop_visitor.py:29-35 | the updates recorded along a walk; characterized by `UpdatesMembership`, `UpdatesCount`, `UpdateFirst` and `NonUpdateDescends` |
| LoopAnalysis.Describe | visitor/loop_visitor.py:10-19 | a loop's descriptor, its test and its body's updates; characterized by `UpdatesExactlyFromBody` and `UpdatesCount` |
| LoopAnalysis.LoopEntry | visitor/loop_visitor.py:20 | what one node adds to `loops`: its descriptor when it is a `while`, nothing otherwise; characterized by `OuterLoopFirst` and `LoopsMembership` |
| LoopAnalysis.Loops | visitor/loop_visitor.py:8-22 | the loop descriptors recorded along a walk; characterized by `LoopsMembership`, `LoopCount` and `OuterLoopFirst` |
| LoopAnalysis.UpdatesMembership | visitor/loop_visitor.py:29-35 | a node is among the recorded updates if and only if it is reached and is an `Assign` or `AugAssign` |
| LoopAnalysis.UpdatesExactlyFromBody | visitor/loop_visitor.py:15-19 | a loop's updates are exactly the assignment nodes reachable from its body, at any depth (inside an `if` or an inner `while`); none come from the test or the `else` part |
| LoopAnalysis.UpdatesCount | visitor/loop_visitor.py:27-35 | the number of updates equals the number of `Assign`/`AugAssign` nodes in the body |
| LoopAnalysis.NonUpdateDescends | visitor/loop_visitor.py:25-35 | a non-assignment node records nothing itself, but its children's updates are kept |
| LoopAnalysis.UpdateFirst | visitor/loop_visitor.py:29-35 | an assignment is recorded before anything below it |
| LoopAnalysis.OuterLoopFirst | visitor/loop_visitor.py:20-22 | a `while`'s descriptor (its own test, its body's updates) comes before the loops nested in its body, which come before those in its `else` part |
| LoopAnalysis.LoopsMembership | visitor/loop_visitor.py:10-13 | a descriptor is recorded if and only if some reached `while` node has that test as its condition and its body's updates as its updates |
| LoopAnalysis.LoopCount | visitor/loop_visitor.py:8-22 | one descriptor per `while` node of the subtree, `else` parts included |
| LoopAnalysis.LoopBodyVisitor.constructor | visitor/loop_visitor.py:26-27 | a new body visitor has no updates |
| LoopAnalysis.LoopBodyVisitor.Visit | visitor/loop_visitor.py:25-35 | visiting a node appends exactly that subtree's updates, in pre-order, to what was already recorded |
| LoopAnalysis.LoopBodyVisitor.VisitAssign | visitor/loop_visitor.py:29-31 | an `Assign` is appended, then its subtree is visited |
| LoopAnalysis.LoopBodyVisitor.VisitAugAssign | visitor/loop_visitor.py:33-35 | an `AugAssign` is appended, then its subtree is visited |
| LoopAnalysis.LoopBodyVisitor.GenericVisit | visitor/loop_visitor.py:31 | every child statement list is visited in field order, `orelse` included |
| LoopAnalysis.LoopBodyVisitor.VisitBlock | visitor/loop_visitor.py:17-18 | the `for stmt in node.body` loop of `visit_While`, which drives the shared body visitor, and each list field its `generic_visit` walks: statements are visited in order, and their updates are appended in that order |
| LoopAnalysis.LoopVisitor.constructor | visitor/loop_visitor.py:5-6 | a new loop visitor has no loops |
| LoopAnalysis.LoopVisitor.Visit | visitor/loop_visitor.py:4-22 | visiting a node appends exactly the descriptors of the `while` nodes of its subtree, in pre-order |
| LoopAnalysis.LoopVisitor.VisitWhile | visitor/loop_visitor.py:8-22 | one shared body visitor runs over the body statements; the descriptor (test, those updates) is appended before descending into the children |
| LoopAnalysis.LoopVisitor.GenericVisit | visitor/loop_visitor.py:22 | the children's loops are appended in field order |
| LoopAnalysis.LoopVisitor.VisitBlock | visitor/loop_visitor.py:22 | `generic_visit` walks one statement-list field in order, appending each statement's loops |
| FunctionAnalysis.ArgNames | visitor/function_visitor.py:12 | the names of the ordinary positional parameters, in declaration order, one per parameter |
| FunctionAnalysis.TopLevelEntry | visitor/function_visitor.py:16-20 | what one body statement adds to `loops`: a fresh `LoopVisitor`'s loops for a `while`, nothing otherwise; characterized by `TopLevelLoopsSplit` and `NoTopLevelWhileNoLoops` |
| FunctionAnalysis.TopLevelLoops | visitor/function_visitor.py:16-20 | the `loops` of a descriptor; characterized by `TopLevelLoopsSplit`, `TopLevelLoopsSnoc` and `NoTopLevelWhileNoLoops` |
| FunctionAnalysis.DescribeFunction | visitor/function_visitor.py:10-21 | the descriptor of a `def`; characterized through `ArgNames` and `TopLevelLoops`, and placed by `EnclosingFunctionFirst` and `FunctionCount` |
| FunctionAnalysis.FunctionEntry | visitor/function_visitor.py:21 | what one node adds to `functions`: its descriptor when it is a `def`, nothing otherwise; characterized by `EnclosingFunctionFirst` |
| FunctionAnalysis.Functions | visitor/function_visitor.py:5-22 | the descriptors recorded along a walk; characterized by `FunctionsMembership`, `NoInitialAssignments`, `FunctionCount` and `EnclosingFunctionFirst` |
| FunctionAnalysis.FunctionsMembership | visitor/function_visitor.py:10-14 | a descriptor is recorded if and only if some reached `def` has that name, those positional argument names and those top-level loops, with an empty `initial_assignments` |
| FunctionAnalysis.NoInitialAssignments | visitor/function_visitor.py:13 | every recorded descriptor has an empty `initial_assignments` |
| FunctionAnalysis.EnclosingFunctionFirst | visitor/function_visitor.py:21-22 | a function's descriptor precedes those of the functions nested in it |
| FunctionAnalysis.FunctionCount | visitor/function_visitor.py:9-22 | exactly one descriptor per `def` node, so functions with the same name are all kept |
| FunctionAnalysis.NoTopLevelWhileNoLoops | visitor/function_visitor.py:16-17 | a body with no top-level `while` has no loops, whatever is nested in its `if`s |
| FunctionAnalysis.TopLevelLoopsSplit | visitor/function_visitor.py:16-20 | `loops` concatenates, in body order, each top-level `while`'s own descriptor followed by the loops nested in it |
| FunctionAnalysis.TopLevelLoopsSnoc | visitor/function_visitor.py:16-20 | one more body statement extends `loops` by that statement's loops |
| FunctionAnalysis.FunctionVisitor.constructor | visitor/function_visitor.py:5-6 | a new visitor has no descriptors |
| FunctionAnalysis.FunctionVisitor.VisitModule | main.py:9-10 | visiting a module appends the descriptors of all its `def` nodes, in pre-order |
| FunctionAnalysis.FunctionVisitor.Visit | visitor/function_visitor.py:5-22 | visiting a node appends the descriptors of the `def` nodes of its subtree, in pre-order |
| FunctionAnalysis.FunctionVisitor.VisitFunctionDef | visitor/function_visitor.py:9-22 | the descriptor (name, positional argument names, empty initial assignments, loops from fresh loop visitors run on the top-level `while`s only) is appended before descending into the children |
| FunctionAnalysis.FunctionVisitor.GenericVisit | visitor/function_visitor.py:22 | the children's descriptors are appended in field order |
| FunctionAnalysis.FunctionVisitor.VisitBlock | visitor/function_visitor.py:22 | statements are visited in order |
| Scenario.NoDefNoFunctions | visitor/function_visitor.py:9 | a subtree with no `def` records no descriptors |
| Scenario.NoWhileNoLoops | visitor/loop_visitor.py:8 | a subtree with no `while` records no loops |
| Scenario.FactorialLoopDescriptors | test/factorial.py:3-5 | `factorial`'s loop has condition `n > 1` and updates `r *= n`, `n -= 1` |
| Scenario.FactorialDefDescriptors | test/factorial.py:1-6 | `factorial` is recorded with argument `n` and that single loop |
| Scenario.TailLoopDefDescriptors | test/factorial.py:9-12 | the inner `loop(n, r)` is recorded with no loops |
| Scenario.FactorialTailDefDescriptors | test/factorial.py:8-13 | `factorial__tail` is recorded first, then its inner `loop` |
| Scenario.FactorialModuleDescriptors | test/factorial.py:1-13 | the module gives three descriptors in order: `factorial` with its one loop, `factorial__tail` and `loop` with none |
| Scenario.AnalyseFactorialModule | main.py:9-10 | main.py's run of a fresh `FunctionVisitor` over test/factorial.py yields exactly those three descriptors |
| Scenario.FibonacciLoopDescriptors | test/fibonacci.py:6-8 | the loop's updates are the tuple assignment `a, b = b, a + b`, as one update, then `n -= 1` |
| Scenario.FibonacciDescriptor | test/fibonacci.py:1-9 | `fibonacci` has that one loop; the leading `if n <= 1: return n` contributes none |
| FactorialExample.FactorialTailLoop | test/factorial.py:9-12 | the inner `loop(n, r)`; characterized by `TailLoopProduct` |
| FactorialExample.TailLoopProduct | test/factorial.py:9-12 | `loop(n, r)` returns `r` times 1·2·…·n |
| FactorialExample.FactorialTail | test/factorial.py:8-13 | `factorial__tail(n)` is 1·2·…·n, and the seed 1 when n <= 1 |
| FactorialExample.Factorial | test/factorial.py:1-13 | the loop terminates on every integer; it equals `factorial__tail(n)` and 1·2·…·n, and is 1 when n <= 1 |
| FibonacciExample.FibonacciTailLoop | test/fibonacci.py:12-15 | the inner `loop(a, b, n)` from n >= 0; characterized by `TailLoopShift` |
| FibonacciExample.TailLoopRun | test/fibonacci.py:12-15 | the inner `loop` as written with a call budget, for every integer n; characterized by `TailLoopRunReturns` and `TailLoopRunDiverges` |
| FibonacciExample.TailLoopShift | test/fibonacci.py:12-15 | `loop` started on two consecutive Fibonacci numbers moves n steps along the sequence |
| FibonacciExample.FibonacciTail | test/fibonacci.py:11-16 | for n >= 0, `fibonacci__tail(n)` is the n-th Fibonacci number (so 0 at 0 and 1 at 1) |
| FibonacciExample.Fibonacci | test/fibonacci.py:1-16 | `fibonacci(n)` is n when n <= 1, negatives included, and the n-th Fibonacci number otherwise; it equals `fibonacci__tail(n)` for all n >= 0 |
| FibonacciExample.TailLoopRunReturns | test/fibonacci.py:12-15 | from n >= 0 the inner `loop` returns within n + 1 calls |
| FibonacciExample.TailLoopRunDiverges | test/fibonacci.py:12-15 | from n < 0 the inner `loop` never returns, whatever the call budget |
| FibonacciExample.TailAsWrittenLosesNegatives | test/fibonacci.py:1-16 | on every negative n, `fibonacci` returns n while `fibonacci__tail` does not return |
| FibonacciExample.FibonacciTailGuarded | test/fibonacci.py:2-3 | the tail version with `fibonacci`'s guard in front agrees with `fibonacci` on every integer, and its loop returns for n > 1 |
| AstFormat.Format | ast_utils.py:4-26 | `format_ast_node`; characterized by `TopLevelLayout`, `TopLevelSequenceLayout`, `NestedSequenceLayout`, `DictLayout`, `NestedSingleLine` and `TopLevelFlagOnlyForSequences` |
| AstFormat.FormatSequence | ast_utils.py:17-22 | the list and tuple case; characterized by `TopLevelLayout`, `TopLevelSequenceLayout`, `NestedSequenceLayout` and `TopLevelFlagOnlyForSequences` |
| AstFormat.FormatItems | ast_utils.py:20 | the elements formatted as not top-level, in order; characterized by `ItemsSingleLine`, `NestedSequenceLayout` and `TopLevelSequenceLayout` |
| AstFormat.FormatEntries | ast_utils.py:24 | the `k: v` strings of a dict in insertion order; characterized by `DictLayout` and `EntriesSingleLine` |
| AstFormat.FormatEntry | ast_utils.py:24 | one `k: v` string; characterized by `DictLayout` and `EntrySingleLine` |
| AstFormat.Join | ast_utils.py:22 | `str.join`; characterized by `JoinSingleLine` and `JoinedLines` |
| AstFormat.JoinSingleLine | ast_utils.py:22 | joining single-line parts with a separator that has no line break gives one line |
| AstFormat.JoinedLines | ast_utils.py:21-22 | parts joined by `",\n"` and closed by `"\n]"` give one line per part, with a comma after all but the last, then `]` |
| AstFormat.NestedSingleLine | ast_utils.py:20-24 | a value formatted below the top level (list, tuple or dict) is one line whenever its leaves are |
| AstFormat.ItemsSingleLine | ast_utils.py:20-22 | nested list items, and the nested list itself, are single lines |
| AstFormat.EntriesSingleLine | ast_utils.py:24 | each `k: v` entry of a dict is one line when its key and leaves are |
| AstFormat.EntrySingleLine | ast_utils.py:24 | the same, for one entry |
| AstFormat.TopLevelLayout | ast_utils.py:18-22 | a non-empty top-level list or tuple prints as `[`, then one line per element in order, each formatted as not top-level and with a trailing comma except the last, then `]` |
| AstFormat.TopLevelSequenceLayout | ast_utils.py:18-22 | at the top level a non-empty list or tuple, whatever its leaves, is `"[\n"`, its elements in order each formatted as not top-level and separated by `",\n"`, then `"\n]"` |
| AstFormat.TopLevelFlagOnlyForSequences | ast_utils.py:15-26 | the top-level flag changes only non-empty lists and tuples; an empty one is `[]` at every level |
| AstFormat.DictLayout | ast_utils.py:24 | an empty dict is `{}`; entries appear in insertion order as `k: v`, with `str` of the key and the value formatted as not top-level, separated by `", "` and braced |
| AstFormat.NestedSequenceLayout | ast_utils.py:20-22 | below the top level a non-empty list or tuple is `[`, its elements in order each formatted as not top-level and separated by `", "`, then `]` |

## Left out

- `iter2tail` (converter/tail_recursion.py:7-20) is only a docstring and comments, so nothing of it is modelled.
- `print_ast` (ast_utils.py:28-35) only prints. The file reading, `ast.parse` and printing in main.py are I/O. The scenario starts from the syntax tree written out by hand.
- The Python parser, `ast.dump`, `repr` and `str` are library behaviour. The formatter takes them as function parameters.
- `NodeVisitor`'s reflective dispatch (`visit_` + class name) becomes an explicit `match` on the statement kind.
- Expressions are leaves of the walk. No statement can occur inside a Python expression, so descending into one records nothing. Conditions and assigned values stay uninterpreted.
- Statement kinds other than assignment, `while`, `if`, `def` and `return` are one `Other` case holding its nested statements in field order. `for ... else`, `try`, `with` and `class` are not told apart.
- FunctionAnalysis.FunctionInfo: `initial_assignments` is an ordered list instead of a dictionary, because the source never fills it.
- FunctionAnalysis.FunctionVisitor.VisitFunctionDef: the in-place `extend` of `func_info["loops"]` becomes a local `seq` that grows in the loop and is then stored in the descriptor. What the visitor records is the same.
- Aliasing is not modelled. The descriptors share the body visitor's `updates` list object and the program's nodes by reference. Here they are values, and nothing mutates them after they are recorded.
- Python's recursion limit (`RecursionError` on deep trees, or in `loop` on large n) is not modelled.
- AstFormat.TopLevelLayout assumes that every leaf renders without a line break. `ast.dump(node, indent=2)` of a compound node does contain line breaks, and then the output has more lines than elements. That case is not described line by line; `AstFormat.TopLevelSequenceLayout` states the layout for it at the level of the string instead.
- AstFormat.Format: the default `is_top_level=True` (ast_utils.py:4), which `print_ast` relies on, is not a default here: `topLevel` is always passed, and the top-level call passes `true`.
- AstFormat.PyValue: dictionary keys are atoms rendered by `str`. Keys that are nodes or tuples are not modelled.
- FibonacciExample.FibonacciTail requires n >= 0, because the inner `loop` as written returns only from n >= 0. `TailLoopRun` models the negative case with a call budget.

## Findings

| source | as written | input that shows it | evidently intended | confidence | as-written member | corrected member |
|---|---|---|---|---|---|---|
| test/fibonacci.py:11-16 | `fibonacci__tail` calls `loop(0, 1, n)`, which stops only when it reaches n == 0; from a negative n it counts down forever | n = -1: `fibonacci(-1)` returns -1, while `fibonacci__tail(-1)` never returns (in Python, a `RecursionError`) | keep `fibonacci`'s `if n <= 1: return n` guard in front of the loop, so that the two versions agree on every integer | medium, not executed | FibonacciExample.TailAsWrittenLosesNegatives | FibonacciExample.FibonacciTailGuarded |
