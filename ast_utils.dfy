/** ast_utils.py: `format_ast_node`, a debug formatter for syntax-tree nodes
    and for lists, tuples and dictionaries holding them. Nodes are rendered
    by `ast.dump(node, indent=2)`, any other value by `repr`, and dictionary
    keys by `str` (the f-string `{k}`); all three are library behaviour and
    are parameters here. */
module AstFormat {

  /** A value handed to the formatter: `N` is the type of syntax-tree nodes,
      `A` the type of every other (atomic) value. A dictionary keeps its
      entries in insertion order. */
  datatype PyValue<N, A> =
    | Node(node: N)
    | List(items: seq<PyValue<N, A>>)
    | Tuple(items: seq<PyValue<N, A>>)
    | Dict(entries: seq<Entry<N, A>>)
    | Atom(atom: A)

  /** One `key: value` item of a dictionary. */
  datatype Entry<N, A> = Entry(key: A, value: PyValue<N, A>)

  /** The library renderers the formatter delegates its leaves to. */
  datatype Renderers<!N, !A> = Renderers(dump: N -> string, repr: A -> string, str: A -> string)

  /** `sep.join(parts)`. */
  function Join(sep: string, parts: seq<string>): string
  {
    if |parts| == 0 then "" else if |parts| == 1 then parts[0] else parts[0] + sep + Join(sep, parts[1..])
  }

  /** `format_ast_node(v, topLevel)`. */
  function Format<N, A>(v: PyValue<N, A>, topLevel: bool, R: Renderers<N, A>): string
    decreases v, 1
  {
    match v
    case Node(n) => R.dump(n)
    case List(items) => FormatSequence(items, topLevel, R)
    case Tuple(items) => FormatSequence(items, topLevel, R)
    case Dict(entries) => "{" + Join(", ", FormatEntries(entries, R)) + "}"
    case Atom(a) => R.repr(a)
  }

  /** A list or tuple: `[]` when empty; otherwise the elements, each
      formatted as not top-level, one per line at the top level and on one
      line below it. */
  function FormatSequence<N, A>(items: seq<PyValue<N, A>>, topLevel: bool, R: Renderers<N, A>): string
    decreases items, 1
  {
    if items == [] then "[]"
    else if topLevel then "[\n" + Join(",\n", FormatItems(items, R)) + "\n]"
    else "[" + Join(", ", FormatItems(items, R)) + "]"
  }

  /** The list comprehension `[format_ast_node(x, False) for x in node]`. */
  function FormatItems<N, A>(items: seq<PyValue<N, A>>, R: Renderers<N, A>): seq<string>
    decreases items, 0
  {
    seq(|items|, i requires 0 <= i < |items| => Format(items[i], false, R))
  }

  /** The generator `f"{k}: {format_ast_node(v, False)}"` over the entries. */
  function FormatEntries<N, A>(entries: seq<Entry<N, A>>, R: Renderers<N, A>): seq<string>
    decreases entries, 1
  {
    seq(|entries|, i requires 0 <= i < |entries| => FormatEntry(entries[i], R))
  }

  function FormatEntry<N, A>(e: Entry<N, A>, R: Renderers<N, A>): string
    decreases e, 0
  {
    R.str(e.key) + ": " + Format(e.value, false, R)
  }

  /** Every leaf of `v` renders without a line break (true of `repr` and
      `str` of numbers and names, not of `ast.dump` with an indent). */
  predicate LeavesSingleLine<N, A>(v: PyValue<N, A>, R: Renderers<N, A>)
    decreases v
  {
    match v
    case Node(n) => '\n' !in R.dump(n)
    case List(items) => forall i :: 0 <= i < |items| ==> LeavesSingleLine(items[i], R)
    case Tuple(items) => forall i :: 0 <= i < |items| ==> LeavesSingleLine(items[i], R)
    case Dict(entries) =>
      forall i :: 0 <= i < |entries| ==> '\n' !in R.str(entries[i].key) && LeavesSingleLine(entries[i].value, R)
    case Atom(a) => '\n' !in R.repr(a)
  }

  /** `s.split("\n")`: the lines of `s`; a string with k line breaks has
      k + 1 lines. */
  function Lines(s: string): (r: seq<string>)
    ensures |r| >= 1
  {
    if s == [] then [""]
    else if s[0] == '\n' then [""] + Lines(s[1..])
    else var rest := Lines(s[1..]); [[s[0]] + rest[0]] + rest[1..]
  }

  /** The element lines of a top-level list: every element followed by a
      comma, except the last. */
  function CommaTerminated(parts: seq<string>): (r: seq<string>)
  {
    seq(|parts|, i requires 0 <= i < |parts| => if i < |parts| - 1 then parts[i] + "," else parts[i])
  }

  lemma {:induction false} JoinSingleLine(sep: string, parts: seq<string>)
    requires '\n' !in sep
    requires forall i :: 0 <= i < |parts| ==> '\n' !in parts[i]
    ensures '\n' !in Join(sep, parts)
  {
    if |parts| > 1 {
      JoinSingleLine(sep, parts[1..]);
    }
  }

  lemma {:induction false} LinesOfSingleLine(s: string)
    requires '\n' !in s
    ensures Lines(s) == [s]
  {
    if s != [] {
      LinesOfSingleLine(s[1..]);
      assert [s[0]] + s[1..] == s;
    }
  }

  /** A line without a break, then a break: the line comes first. */
  lemma {:induction false} LinesAfterBreak(a: string, b: string)
    requires '\n' !in a
    ensures Lines(a + "\n" + b) == [a] + Lines(b)
  {
    if a == [] {
      assert a + "\n" + b == "\n" + b;
      assert ("\n" + b)[1..] == b;
    } else {
      assert (a + "\n" + b)[1..] == a[1..] + "\n" + b;
      LinesAfterBreak(a[1..], b);
      assert [a[0]] + a[1..] == a;
    }
  }

  /** Joining single-line parts with `",\n"` and closing with `"\n]"` puts one
      part per line, commas after all but the last, then the bracket. */
  lemma {:induction false} JoinedLines(parts: seq<string>)
    requires |parts| > 0
    requires forall i :: 0 <= i < |parts| ==> '\n' !in parts[i]
    ensures Lines(Join(",\n", parts) + "\n]") == CommaTerminated(parts) + ["]"]
  {
    LinesOfSingleLine("]");
    if |parts| == 1 {
      assert Join(",\n", parts) + "\n]" == parts[0] + "\n" + "]";
      LinesAfterBreak(parts[0], "]");
      assert CommaTerminated(parts) == [parts[0]];
    } else {
      JoinedLines(parts[1..]);
      var rest := Join(",\n", parts[1..]) + "\n]";
      assert Join(",\n", parts) + "\n]" == (parts[0] + ",") + "\n" + rest;
      LinesAfterBreak(parts[0] + ",", rest);
      assert CommaTerminated(parts) == [parts[0] + ","] + CommaTerminated(parts[1..]);
    }
  }

  /** Below the top level nothing adds a line break: a nested list, tuple or
      dictionary whose leaves render on one line is itself one line. */
  lemma {:induction false} NestedSingleLine<N, A>(v: PyValue<N, A>, R: Renderers<N, A>)
    requires LeavesSingleLine(v, R)
    ensures '\n' !in Format(v, false, R)
    decreases v, 1
  {
    match v
    case Node(_) =>
    case List(items) => ItemsSingleLine(items, R);
    case Tuple(items) => ItemsSingleLine(items, R);
    case Dict(entries) =>
      EntriesSingleLine(entries, R);
      JoinSingleLine(", ", FormatEntries(entries, R));
    case Atom(_) =>
  }

  lemma {:induction false} ItemsSingleLine<N, A>(items: seq<PyValue<N, A>>, R: Renderers<N, A>)
    requires forall i :: 0 <= i < |items| ==> LeavesSingleLine(items[i], R)
    ensures forall i :: 0 <= i < |items| ==> '\n' !in FormatItems(items, R)[i]
    ensures '\n' !in FormatSequence(items, false, R)
    decreases items, 0
  {
    forall i | 0 <= i < |items|
      ensures '\n' !in FormatItems(items, R)[i]
    {
      NestedSingleLine(items[i], R);
    }
    JoinSingleLine(", ", FormatItems(items, R));
  }

  lemma {:induction false} EntriesSingleLine<N, A>(entries: seq<Entry<N, A>>, R: Renderers<N, A>)
    requires forall i :: 0 <= i < |entries| ==> '\n' !in R.str(entries[i].key) && LeavesSingleLine(entries[i].value, R)
    ensures forall i :: 0 <= i < |entries| ==> '\n' !in FormatEntries(entries, R)[i]
    decreases entries, 1
  {
    forall i | 0 <= i < |entries|
      ensures '\n' !in FormatEntries(entries, R)[i]
    {
      EntrySingleLine(entries[i], R);
    }
  }

  lemma EntrySingleLine<N, A>(e: Entry<N, A>, R: Renderers<N, A>)
    requires '\n' !in R.str(e.key) && LeavesSingleLine(e.value, R)
    ensures '\n' !in FormatEntry(e, R)
    decreases e, 0
  {
    NestedSingleLine(e.value, R);
  }

  /** The layout of a non-empty top-level list or tuple whose leaves render
      on one line: a line `[`, then one line per element in order (the
      element formatted as not top-level, with a comma after all but the
      last), then a line `]`. */
  lemma TopLevelLayout<N, A>(v: PyValue<N, A>, R: Renderers<N, A>)
    requires v.List? || v.Tuple?
    requires v.items != []
    requires LeavesSingleLine(v, R)
    ensures Lines(Format(v, true, R)) == ["["] + CommaTerminated(FormatItems(v.items, R)) + ["]"]
    ensures |Lines(Format(v, true, R))| == |v.items| + 2
  {
    var parts := FormatItems(v.items, R);
    ItemsSingleLine(v.items, R);
    JoinedLines(parts);
    assert Format(v, true, R) == "[" + "\n" + (Join(",\n", parts) + "\n]");
    LinesAfterBreak("[", Join(",\n", parts) + "\n]");
  }

  /** `is_top_level` matters only for a non-empty list or tuple: every other
      value formats the same at the top level, on one line when its leaves
      do. */
  lemma TopLevelFlagOnlyForSequences<N, A>(v: PyValue<N, A>, R: Renderers<N, A>)
    requires !(v.List? || v.Tuple?) || v.items == []
    ensures Format(v, true, R) == Format(v, false, R)
    ensures (v.List? || v.Tuple?) ==> Format(v, true, R) == "[]"
    ensures LeavesSingleLine(v, R) ==> '\n' !in Format(v, true, R)
  {
    if LeavesSingleLine(v, R) {
      NestedSingleLine(v, R);
    }
  }

  /** A dictionary is braced, `{}` when empty, and lists its entries in
      insertion order: the first entry `k: v`, a `", "`, then what the rest
      of the dictionary formats to without its opening brace. */
  lemma DictLayout<N, A>(e: Entry<N, A>, rest: seq<Entry<N, A>>, topLevel: bool, R: Renderers<N, A>)
    ensures Format(Dict([]), topLevel, R) == "{}"
    ensures Format(Dict([e]), topLevel, R) == "{" + R.str(e.key) + ": " + Format(e.value, false, R) + "}"
    ensures rest != [] ==>
      var whole := Format(Dict([e] + rest), topLevel, R);
      var tail := Format(Dict(rest), topLevel, R);
      |tail| >= 1 && whole == "{" + R.str(e.key) + ": " + Format(e.value, false, R) + ", " + tail[1..]
  {
    assert FormatEntries([e], R) == [FormatEntry(e, R)];
    if rest != [] {
      var parts := FormatEntries(rest, R);
      assert FormatEntries([e] + rest, R) == [FormatEntry(e, R)] + parts;
      var tail := Format(Dict(rest), topLevel, R);
      assert tail == "{" + Join(", ", parts) + "}";
      assert tail[1..] == Join(", ", parts) + "}";
    }
  }

  /** Below the top level a non-empty list or tuple is bracketed and lists
      its elements in order, each formatted as not top-level: one element
      gives `[x]`; otherwise the first element, a `", "`, then what the rest
      formats to without its opening bracket. */
  lemma NestedSequenceLayout<N, A>(x: PyValue<N, A>, rest: seq<PyValue<N, A>>, R: Renderers<N, A>)
    ensures Format(List([x]), false, R) == "[" + Format(x, false, R) + "]"
    ensures Format(Tuple([x]), false, R) == "[" + Format(x, false, R) + "]"
    ensures rest != [] ==>
      var tail := Format(List(rest), false, R);
      |tail| >= 1 && Format(List([x] + rest), false, R) == "[" + Format(x, false, R) + ", " + tail[1..]
    ensures rest != [] ==>
      var tail := Format(Tuple(rest), false, R);
      |tail| >= 1 && Format(Tuple([x] + rest), false, R) == "[" + Format(x, false, R) + ", " + tail[1..]
  {
    assert FormatItems([x], R) == [Format(x, false, R)];
    if rest != [] {
      var parts := FormatItems(rest, R);
      assert FormatItems([x] + rest, R) == [Format(x, false, R)] + parts;
      var tail := FormatSequence(rest, false, R);
      assert tail == "[" + Join(", ", parts) + "]";
      assert tail[1..] == Join(", ", parts) + "]";
    }
  }

  /** At the top level a non-empty list or tuple, whatever its leaves, is
      `"[\n"`, its elements in order each formatted as not top-level and
      separated by `",\n"`, then `"\n]"`: one element gives `"[\n" + x + "\n]"`;
      otherwise the first element, a `",\n"`, then what the rest formats to
      at the top level without its opening `"[\n"`. */
  lemma TopLevelSequenceLayout<N, A>(x: PyValue<N, A>, rest: seq<PyValue<N, A>>, R: Renderers<N, A>)
    ensures Format(List([x]), true, R) == "[\n" + Format(x, false, R) + "\n]"
    ensures Format(Tuple([x]), true, R) == "[\n" + Format(x, false, R) + "\n]"
    ensures rest != [] ==>
      var tail := Format(List(rest), true, R);
      |tail| >= 2 && Format(List([x] + rest), true, R) == "[\n" + Format(x, false, R) + ",\n" + tail[2..]
    ensures rest != [] ==>
      var tail := Format(Tuple(rest), true, R);
      |tail| >= 2 && Format(Tuple([x] + rest), true, R) == "[\n" + Format(x, false, R) + ",\n" + tail[2..]
  {
    assert FormatItems([x], R) == [Format(x, false, R)];
    if rest != [] {
      var parts := FormatItems(rest, R);
      assert FormatItems([x] + rest, R) == [Format(x, false, R)] + parts;
      var tail := FormatSequence(rest, true, R);
      assert tail == "[\n" + Join(",\n", parts) + "\n]";
      assert tail[2..] == Join(",\n", parts) + "\n]";
    }
  }
}
