/**
 * The dynamic-type gate of the kernel: which names of a module stand for `Any`,
 * through imports and assignment aliases, computed by repeated in-place passes.
 */
module TypePrecision {

  import opened Collections

  datatype Alias = Alias(name: string, asname: string)

  /** The syntax the gate distinguishes. `Text` is a string constant with the expression it parses to, if
      any; `Other` is every remaining node; contexts and keyword wrappers are part of their owner. */
  datatype Node =
    | Name(id: string, load: bool)
    | Attribute(value: Node, attr: string)
    | Text(parsed: Option<Node>)
    | Literal
    | Subscript(base: Node, slice: Node)
    | Arg(annotation: Option<Node>)
    | Function(parts: seq<Node>, result: Option<Node>)
    | AnnAssign(target: Node, declared: Node, init: Option<Node>)
    | Assign(targets: seq<Node>, rhs: Node)
    | Call(func: Node, args: seq<Node>, keywords: seq<Node>)
    | Import(names: seq<Alias>)
    | ImportFrom(origin: string, names: seq<Alias>)
    | Other(children: seq<Node>)

  const TYPING: set<string> := {"typing", "typing_extensions"}

  function Bound(a: Alias): string {
    if a.asname != "" then a.asname else a.name
  }

  predicate Denotes(n: Node, word: string) {
    (n.Name? && n.id == word) || (n.Attribute? && n.attr == word)
  }

  function B(b: bool): nat {
    if b then 1 else 0
  }

  /** `_dynamic_count`. */
  function Count(n: Node, aliases: set<string>, modules: set<string>, quoted: bool): nat
    decreases n, 1
  {
    match n
    case Name(id, load) => B(id in aliases && load)
    case Attribute(v, attr) =>
      if v.Name? && v.id in modules && attr == "Any" then 1 else Count(v, aliases, modules, quoted)
    case Text(parsed) =>
      if quoted && parsed.Some? && !parsed.value.Text? && !parsed.value.Literal?
      then Count(parsed.value, aliases, modules, true) else 0
    case Literal => 0
    case Subscript(v, slice) =>
      if Denotes(v, "Literal") then Count(v, aliases, modules, false)
      else Count(v, aliases, modules, quoted) + Count(slice, aliases, modules, quoted)
    case Arg(annotation) => if annotation.Some? then Count(annotation.value, aliases, modules, true) else 0
    case Function(parts, result) =>
      CountAll(parts, aliases, modules, false) + if result.Some? then Count(result.value, aliases, modules, true) else 0
    case AnnAssign(target, annotation, init) =>
      Count(annotation, aliases, modules, true)
      + if init.Some? then Count(init.value, aliases, modules, annotation.Name? && annotation.id == "TypeAlias") else 0
    case Assign(targets, v) => CountAll(targets, aliases, modules, quoted) + Count(v, aliases, modules, quoted)
    case Call(func, args, keywords) =>
      if Denotes(func, "cast") then
        if args == [] then 0
        else Count(args[0], aliases, modules, true) + CountAll(args[1..], aliases, modules, false)
      else Count(func, aliases, modules, quoted) + CountAll(args, aliases, modules, quoted) + CountAll(keywords, aliases, modules, quoted)
    case Import(_) => 0
    case ImportFrom(_, _) => 0
    case Other(children) => CountAll(children, aliases, modules, quoted)
  }

  function CountAll(ns: seq<Node>, aliases: set<string>, modules: set<string>, quoted: bool): nat
    decreases ns, 0
  {
    if ns == [] then 0 else Count(ns[0], aliases, modules, quoted) + CountAll(ns[1..], aliases, modules, quoted)
  }

  /** More aliases never make an expression less dynamic. */
  lemma {:induction false} CountMonotone(n: Node, a: set<string>, b: set<string>, modules: set<string>, quoted: bool)
    requires a <= b
    ensures Count(n, a, modules, quoted) <= Count(n, b, modules, quoted)
    decreases n, 1
  {
    match n
    case Name(_, _) =>
    case Attribute(v, _) => CountMonotone(v, a, b, modules, quoted);
    case Text(parsed) => if parsed.Some? { CountMonotone(parsed.value, a, b, modules, true); }
    case Literal =>
    case Subscript(v, slice) =>
      CountMonotone(v, a, b, modules, if Denotes(v, "Literal") then false else quoted);
      CountMonotone(slice, a, b, modules, quoted);
    case Arg(annotation) => if annotation.Some? { CountMonotone(annotation.value, a, b, modules, true); }
    case Function(parts, result) =>
      CountAllMonotone(parts, a, b, modules, false);
      if result.Some? { CountMonotone(result.value, a, b, modules, true); }
    case AnnAssign(_, annotation, init) =>
      CountMonotone(annotation, a, b, modules, true);
      if init.Some? { CountMonotone(init.value, a, b, modules, annotation.Name? && annotation.id == "TypeAlias"); }
    case Assign(targets, v) =>
      CountAllMonotone(targets, a, b, modules, quoted);
      CountMonotone(v, a, b, modules, quoted);
    case Call(func, args, keywords) =>
      CountMonotone(func, a, b, modules, quoted);
      CountAllMonotone(args, a, b, modules, quoted);
      CountAllMonotone(keywords, a, b, modules, quoted);
      if args != [] {
        CountMonotone(args[0], a, b, modules, true);
        CountAllMonotone(args[1..], a, b, modules, false);
      }
    case Import(_) =>
    case ImportFrom(_, _) =>
    case Other(children) => CountAllMonotone(children, a, b, modules, quoted);
  }

  lemma {:induction false} CountAllMonotone(ns: seq<Node>, a: set<string>, b: set<string>, modules: set<string>, quoted: bool)
    requires a <= b
    ensures CountAll(ns, a, modules, quoted) <= CountAll(ns, b, modules, quoted)
    decreases ns, 0
  {
    if ns != [] {
      CountMonotone(ns[0], a, b, modules, quoted);
      CountAllMonotone(ns[1..], a, b, modules, quoted);
    }
  }

  // -------------------------------------------------- what makes a node dynamic

  /** A use of a dynamic name, or of `Any` as an attribute of a typing module. */
  predicate UsesAny(n: Node, aliases: set<string>, modules: set<string>) {
    || (n.Name? && n.load && n.id in aliases)
    || (n.Attribute? && n.value.Name? && n.value.id in modules && n.attr == "Any")
  }

  /** Whether the gate looks at `c` for the sake of `n`, and whether strings there are read as types. Annotations
      read strings; the value of a declared `TypeAlias` and the first argument of a cast do; what a subscript of
      `Literal` holds is not looked at, nor the target of a declaration, nor the keywords of a cast. */
  ghost predicate LooksAt(n: Node, quoted: bool, c: Node, strings: bool) {
    match n
    case Name(_, _) => false
    case Literal => false
    case Import(_) => false
    case ImportFrom(_, _) => false
    case Attribute(v, _) => c == v && strings == quoted
    case Text(parsed) => quoted && parsed == Some(c) && !c.Text? && !c.Literal? && strings
    case Subscript(v, slice) => if Denotes(v, "Literal") then c == v && !strings else c in [v, slice] && strings == quoted
    case Arg(annotation) => annotation == Some(c) && strings
    case Function(parts, result) => (c in parts && !strings) || (result == Some(c) && strings)
    case AnnAssign(_, declared, init) =>
      (c == declared && strings) || (init == Some(c) && (strings <==> declared.Name? && declared.id == "TypeAlias"))
    case Assign(targets, v) => (c in targets || c == v) && strings == quoted
    case Call(func, args, keywords) =>
      if Denotes(func, "cast") then exists i :: 0 <= i < |args| && args[i] == c && (strings <==> i == 0)
      else (c == func || c in args || c in keywords) && strings == quoted
    case Other(children) => c in children && strings == quoted
  }

  /** Looking from node to node along the path ends at a use of `Any`. */
  ghost predicate Exposes(n: Node, quoted: bool, path: seq<(Node, bool)>, aliases: set<string>, modules: set<string>)
    decreases |path|
  {
    if path == [] then UsesAny(n, aliases, modules)
    else LooksAt(n, quoted, path[0].0, path[0].1) && Exposes(path[0].0, path[0].1, path[1..], aliases, modules)
  }

  /** A word is denoted by its own name, or as an attribute of anything. */
  lemma DenotesIff(n: Node, word: string)
    ensures Denotes(n, word) <==> n == Name(word, true) || n == Name(word, false) || exists v :: n == Attribute(v, word)
  {
  }

  lemma {:induction false} CountAllIff(ns: seq<Node>, aliases: set<string>, modules: set<string>, quoted: bool)
    ensures CountAll(ns, aliases, modules, quoted) > 0 <==> exists i :: 0 <= i < |ns| && Count(ns[i], aliases, modules, quoted) > 0
  {
    if ns != [] {
      CountAllIff(ns[1..], aliases, modules, quoted);
      assert forall i :: 0 < i < |ns| ==> ns[i] == ns[1..][i - 1];
      assert forall i :: 0 <= i < |ns| - 1 ==> ns[1..][i] == ns[i + 1];
    }
  }

  ghost predicate SeesDynamic(n: Node, aliases: set<string>, modules: set<string>, quoted: bool) {
    exists c, strings :: LooksAt(n, quoted, c, strings) && Count(c, aliases, modules, strings) > 0
  }

  /** One look: a node counts exactly if it is a use itself, or looks at a node that counts. */
  lemma CountsIff(n: Node, aliases: set<string>, modules: set<string>, quoted: bool)
    ensures Count(n, aliases, modules, quoted) > 0 <==>
            UsesAny(n, aliases, modules) || SeesDynamic(n, aliases, modules, quoted)
  {
    match n
    case Function(_, _) => FunctionCountsIff(n, aliases, modules, quoted);
    case Assign(_, _) => AssignCountsIff(n, aliases, modules, quoted);
    case AnnAssign(_, _, _) => DeclarationCountsIff(n, aliases, modules, quoted);
    case Call(func, _, _) =>
      if Denotes(func, "cast") { CastCountsIff(n, aliases, modules, quoted); } else { CallCountsIff(n, aliases, modules, quoted); }
    case Other(_) => OtherCountsIff(n, aliases, modules, quoted);
    case Subscript(_, _) => SubscriptCountsIff(n, aliases, modules, quoted);
    case Attribute(v, _) => assert LooksAt(n, quoted, v, quoted);
    case Arg(annotation) => if annotation.Some? { assert LooksAt(n, quoted, annotation.value, true); }
    case Text(parsed) =>
      if quoted && parsed.Some? && !parsed.value.Text? && !parsed.value.Literal? { assert LooksAt(n, quoted, parsed.value, true); }
    case _ =>
  }

  lemma FunctionCountsIff(n: Node, aliases: set<string>, modules: set<string>, quoted: bool)
    requires n.Function?
    ensures Count(n, aliases, modules, quoted) > 0 <==> SeesDynamic(n, aliases, modules, quoted)
  {
    CountAllIff(n.parts, aliases, modules, false);
    if i :| 0 <= i < |n.parts| && Count(n.parts[i], aliases, modules, false) > 0 { assert LooksAt(n, quoted, n.parts[i], false); }
    if n.result.Some? { assert LooksAt(n, quoted, n.result.value, true); }
  }

  lemma DeclarationCountsIff(n: Node, aliases: set<string>, modules: set<string>, quoted: bool)
    requires n.AnnAssign?
    ensures Count(n, aliases, modules, quoted) > 0 <==> SeesDynamic(n, aliases, modules, quoted)
  {
    assert LooksAt(n, quoted, n.declared, true);
    if n.init.Some? { assert LooksAt(n, quoted, n.init.value, Quoted(n)); }
  }

  lemma SubscriptCountsIff(n: Node, aliases: set<string>, modules: set<string>, quoted: bool)
    requires n.Subscript?
    ensures Count(n, aliases, modules, quoted) > 0 <==> SeesDynamic(n, aliases, modules, quoted)
  {
    if Denotes(n.base, "Literal") {
      assert LooksAt(n, quoted, n.base, false);
    } else {
      assert LooksAt(n, quoted, n.base, quoted) && LooksAt(n, quoted, n.slice, quoted);
    }
  }

  lemma OtherCountsIff(n: Node, aliases: set<string>, modules: set<string>, quoted: bool)
    requires n.Other?
    ensures Count(n, aliases, modules, quoted) > 0 <==> SeesDynamic(n, aliases, modules, quoted)
  {
    CountAllIff(n.children, aliases, modules, quoted);
    if i :| 0 <= i < |n.children| && Count(n.children[i], aliases, modules, quoted) > 0 {
      assert LooksAt(n, quoted, n.children[i], quoted);
    }
  }

  lemma AssignCountsIff(n: Node, aliases: set<string>, modules: set<string>, quoted: bool)
    requires n.Assign?
    ensures Count(n, aliases, modules, quoted) > 0 <==> SeesDynamic(n, aliases, modules, quoted)
  {
    CountAllIff(n.targets, aliases, modules, quoted);
    assert LooksAt(n, quoted, n.rhs, quoted);
    if i :| 0 <= i < |n.targets| && Count(n.targets[i], aliases, modules, quoted) > 0 {
      assert LooksAt(n, quoted, n.targets[i], quoted);
    }
  }

  lemma CallCountsIff(n: Node, aliases: set<string>, modules: set<string>, quoted: bool)
    requires n.Call? && !Denotes(n.func, "cast")
    ensures Count(n, aliases, modules, quoted) > 0 <==> SeesDynamic(n, aliases, modules, quoted)
  {
    CountAllIff(n.args, aliases, modules, quoted);
    CountAllIff(n.keywords, aliases, modules, quoted);
    assert LooksAt(n, quoted, n.func, quoted);
    if i :| 0 <= i < |n.args| && Count(n.args[i], aliases, modules, quoted) > 0 { assert LooksAt(n, quoted, n.args[i], quoted); }
    if i :| 0 <= i < |n.keywords| && Count(n.keywords[i], aliases, modules, quoted) > 0 {
      assert LooksAt(n, quoted, n.keywords[i], quoted);
    }
  }

  lemma CastCountsIff(n: Node, aliases: set<string>, modules: set<string>, quoted: bool)
    requires n.Call? && Denotes(n.func, "cast")
    ensures Count(n, aliases, modules, quoted) > 0 <==> SeesDynamic(n, aliases, modules, quoted)
  {
    var args := n.args;
    if args != [] {
      CountAllIff(args[1..], aliases, modules, false);
      assert LooksAt(n, quoted, args[0], true);
      if i :| 0 <= i < |args[1..]| && Count(args[1..][i], aliases, modules, false) > 0 {
        assert args[i + 1] == args[1..][i];
        assert LooksAt(n, quoted, args[i + 1], false);
      }
      forall i | 0 < i < |args| && Count(args[i], aliases, modules, false) > 0
        ensures CountAll(args[1..], aliases, modules, false) > 0
      {
        assert args[1..][i - 1] == args[i];
      }
    }
  }

  lemma {:induction false} PathCounts(n: Node, quoted: bool, path: seq<(Node, bool)>, aliases: set<string>, modules: set<string>)
    requires Exposes(n, quoted, path, aliases, modules)
    ensures Count(n, aliases, modules, quoted) > 0
    decreases |path|
  {
    CountsIff(n, aliases, modules, quoted);
    if path != [] { PathCounts(path[0].0, path[0].1, path[1..], aliases, modules); }
  }

  lemma LooksInside(n: Node, quoted: bool, c: Node, strings: bool)
    requires LooksAt(n, quoted, c, strings)
    ensures c < n
  {
  }

  lemma {:induction false} CountHasPath(n: Node, quoted: bool, aliases: set<string>, modules: set<string>)
    returns (path: seq<(Node, bool)>)
    requires Count(n, aliases, modules, quoted) > 0
    ensures Exposes(n, quoted, path, aliases, modules)
    decreases n
  {
    CountsIff(n, aliases, modules, quoted);
    if UsesAny(n, aliases, modules) {
      path := [];
    } else {
      var c, strings :| LooksAt(n, quoted, c, strings) && Count(c, aliases, modules, strings) > 0;
      LooksInside(n, quoted, c, strings);
      var rest := CountHasPath(c, strings, aliases, modules);
      path := [(c, strings)] + rest;
    }
  }

  ghost predicate IsDynamic(n: Node, quoted: bool, aliases: set<string>, modules: set<string>) {
    exists path :: Exposes(n, quoted, path, aliases, modules)
  }

  /** Exactly when a node is dynamic: some chain of looks ends at a use of `Any` or of one of its aliases. */
  lemma DynamicIff(n: Node, aliases: set<string>, modules: set<string>, quoted: bool)
    ensures Count(n, aliases, modules, quoted) > 0 <==> IsDynamic(n, quoted, aliases, modules)
  {
    forall path | Exposes(n, quoted, path, aliases, modules) ensures Count(n, aliases, modules, quoted) > 0 {
      PathCounts(n, quoted, path, aliases, modules);
    }
    if Count(n, aliases, modules, quoted) > 0 {
      var path := CountHasPath(n, quoted, aliases, modules);
      assert Exposes(n, quoted, path, aliases, modules);
    }
  }

  // ------------------------------------------------------------------- walk

  function Maybe(n: Option<Node>): seq<Node> {
    if n.Some? then [n.value] else []
  }

  /** `ast.iter_child_nodes`; what a string parses to is not a child. */
  function Children(n: Node): seq<Node> {
    match n
    case Name(_, _) => []
    case Attribute(v, _) => [v]
    case Text(_) => []
    case Literal => []
    case Subscript(v, slice) => [v, slice]
    case Arg(annotation) => Maybe(annotation)
    case Function(parts, result) => parts + Maybe(result)
    case AnnAssign(target, annotation, init) => [target, annotation] + Maybe(init)
    case Assign(targets, v) => targets + [v]
    case Call(func, args, keywords) => [func] + args + keywords
    case Import(_) => []
    case ImportFrom(_, _) => []
    case Other(children) => children
  }

  /** The number of syntax nodes of a tree. */
  function Size(n: Node): nat
    decreases n, 1
  {
    1 + match n
        case Name(_, _) => 0
        case Attribute(v, _) => Size(v)
        case Text(_) => 0
        case Literal => 0
        case Subscript(v, slice) => Size(v) + Size(slice)
        case Arg(annotation) => if annotation.Some? then Size(annotation.value) else 0
        case Function(parts, result) => SizeAll(parts) + if result.Some? then Size(result.value) else 0
        case AnnAssign(target, annotation, init) =>
          Size(target) + Size(annotation) + if init.Some? then Size(init.value) else 0
        case Assign(targets, v) => SizeAll(targets) + Size(v)
        case Call(func, args, keywords) => Size(func) + SizeAll(args) + SizeAll(keywords)
        case Import(_) => 0
        case ImportFrom(_, _) => 0
        case Other(children) => SizeAll(children)
  }

  function SizeAll(ns: seq<Node>): nat
    decreases ns, 0
  {
    if ns == [] then 0 else Size(ns[0]) + SizeAll(ns[1..])
  }

  lemma {:induction false} SizeAllConcat(a: seq<Node>, b: seq<Node>)
    ensures SizeAll(a + b) == SizeAll(a) + SizeAll(b)
  {
    if a == [] {
      assert a + b == b;
    } else {
      assert (a + b)[1..] == a[1..] + b;
      SizeAllConcat(a[1..], b);
    }
  }

  lemma SizeOne(n: Node)
    ensures SizeAll([n]) == Size(n)
  {
    assert SizeAll([n]) == Size(n) + SizeAll([n][1..]);
  }

  lemma SizeMaybe(n: Option<Node>)
    ensures SizeAll(Maybe(n)) == if n.Some? then Size(n.value) else 0
  {
    if n.Some? { SizeOne(n.value); }
  }

  lemma SizeOfChildren(n: Node)
    ensures Size(n) == 1 + SizeAll(Children(n))
  {
    match n
    case Attribute(v, _) => SizeOne(v);
    case Arg(annotation) => SizeMaybe(annotation);
    case Subscript(v, slice) =>
      SizeOne(v);
      SizeOne(slice);
      SizeAllConcat([v], [slice]);
      assert [v] + [slice] == [v, slice];
    case Function(parts, result) =>
      SizeMaybe(result);
      SizeAllConcat(parts, Maybe(result));
    case AnnAssign(target, annotation, init) =>
      SizeOne(target);
      SizeOne(annotation);
      SizeMaybe(init);
      SizeAllConcat([target], [annotation]);
      assert [target] + [annotation] == [target, annotation];
      SizeAllConcat([target, annotation], Maybe(init));
    case Assign(targets, v) =>
      SizeOne(v);
      SizeAllConcat(targets, [v]);
    case Call(func, args, keywords) =>
      SizeOne(func);
      SizeAllConcat([func], args);
      SizeAllConcat([func] + args, keywords);
    case _ =>
  }

  /** The syntax nodes of a tree, as often as they occur. */
  ghost function AllNodes(n: Node): multiset<Node>
    decreases Size(n), 1
  {
    SizeOfChildren(n);
    multiset{n} + NodesOf(Children(n))
  }

  ghost function NodesOf(ns: seq<Node>): multiset<Node>
    decreases SizeAll(ns), 2
  {
    if ns == [] then multiset{} else AllNodes(ns[0]) + NodesOf(ns[1..])
  }

  lemma {:induction false} NodesOfConcat(a: seq<Node>, b: seq<Node>)
    ensures NodesOf(a + b) == NodesOf(a) + NodesOf(b)
  {
    if a == [] {
      assert a + b == b;
    } else {
      assert (a + b)[1..] == a[1..] + b;
      NodesOfConcat(a[1..], b);
    }
  }

  /** Visiting the first node of the queue and appending its children loses and repeats nothing. */
  lemma QueueStep(nodes: seq<Node>, todo: seq<Node>)
    requires todo != []
    ensures multiset(nodes + [todo[0]]) + NodesOf(todo[1..] + Children(todo[0])) == multiset(nodes) + NodesOf(todo)
    ensures SizeAll(todo) == 1 + SizeAll(todo[1..] + Children(todo[0]))
  {
    SizeOfChildren(todo[0]);
    SizeAllConcat(todo[1..], Children(todo[0]));
    NodesOfConcat(todo[1..], Children(todo[0]));
    assert multiset(nodes + [todo[0]]) == multiset(nodes) + multiset{todo[0]};
    Regroup(multiset(nodes), multiset{todo[0]}, NodesOf(Children(todo[0])), NodesOf(todo[1..]));
  }

  lemma Regroup(a: multiset<Node>, b: multiset<Node>, c: multiset<Node>, d: multiset<Node>)
    ensures (a + b) + (d + c) == a + ((b + c) + d)
  {
  }

  ghost predicate ClosedUnderChildren(nodes: seq<Node>) {
    forall n, c :: n in nodes && c in Children(n) ==> c in nodes
  }

  lemma {:induction false} TopIsIn(ns: seq<Node>, c: Node)
    requires c in ns
    ensures c in NodesOf(ns)
  {
    if c != ns[0] { TopIsIn(ns[1..], c); }
  }

  lemma {:induction false} ChildrenAreIn(ns: seq<Node>, n: Node, c: Node)
    requires n in NodesOf(ns) && c in Children(n)
    ensures c in NodesOf(ns)
    decreases SizeAll(ns)
  {
    var first := ns[0];
    SizeOfChildren(first);
    if n == first {
      TopIsIn(Children(first), c);
    } else if n in NodesOf(Children(first)) {
      ChildrenAreIn(Children(first), n, c);
    } else {
      ChildrenAreIn(ns[1..], n, c);
    }
  }

  lemma WalkIsClosed(root: Node, nodes: seq<Node>)
    requires multiset(nodes) == AllNodes(root)
    ensures ClosedUnderChildren(nodes)
  {
    assert NodesOf([root]) == AllNodes(root) + NodesOf([root][1..]);
    forall n, c | n in nodes && c in Children(n) ensures c in nodes {
      assert n in multiset(nodes);
      ChildrenAreIn([root], n, c);
      assert c in multiset(nodes);
    }
  }

  /** `ast.walk`: breadth first; it visits every node of the tree once. */
  method Walk(root: Node) returns (nodes: seq<Node>)
    ensures multiset(nodes) == AllNodes(root)
  {
    var todo := [root];
    nodes := [];
    assert NodesOf([root]) == AllNodes(root) + NodesOf([root][1..]);
    while todo != []
      invariant multiset(nodes) + NodesOf(todo) == AllNodes(root)
      decreases SizeAll(todo)
    {
      QueueStep(nodes, todo);
      nodes, todo := nodes + [todo[0]], todo[1..] + Children(todo[0]);
    }
  }

  // ---------------------------------------------------------------- aliases

  predicate Quoted(n: Node)
    requires n.AnnAssign?
  {
    n.declared.Name? && n.declared.id == "TypeAlias"
  }

  /** Ids of the names in a node list. */
  function NamesIn(ns: seq<Node>): set<string> {
    set n | n in ns && n.Name? :: n.id
  }

  /** The names one assignment makes dynamic, given the dynamic names so far. */
  function Contribution(n: Node, dynamic: set<string>, modules: set<string>): set<string> {
    if n.Assign? && Count(n.rhs, dynamic, modules, false) > 0 then NamesIn(n.targets)
    else if n.AnnAssign? && n.init.Some? && Count(n.init.value, dynamic, modules, Quoted(n)) > 0 then NamesIn([n.target])
    else {}
  }

  function ImportedAny(ns: seq<Node>): set<string> {
    {"Any"} + set n, a | n in ns && n.ImportFrom? && n.origin in TYPING && a in n.names && a.name == "Any" :: Bound(a)
  }

  function ImportedModules(ns: seq<Node>): set<string> {
    TYPING + set n, a | n in ns && n.Import? && a in n.names && a.name in TYPING :: Bound(a)
  }

  /** An assignment makes its named targets dynamic exactly if its value is, with strings read as types only where
      a `TypeAlias` is declared. Nothing else makes a name dynamic. */
  lemma ContributionIff(n: Node, dynamic: set<string>, modules: set<string>, x: string)
    ensures x in Contribution(n, dynamic, modules) <==>
            || (n.Assign? && IsDynamic(n.rhs, false, dynamic, modules) && exists t :: t in n.targets && t.Name? && t.id == x)
            || (n.AnnAssign? && n.init.Some? && n.target.Name? && n.target.id == x
                && IsDynamic(n.init.value, n.declared.Name? && n.declared.id == "TypeAlias", dynamic, modules))
  {
    if n.Assign? { DynamicIff(n.rhs, dynamic, modules, false); }
    if n.AnnAssign? && n.init.Some? {
      DynamicIff(n.init.value, dynamic, modules, Quoted(n));
      assert x in NamesIn([n.target]) <==> n.target.Name? && n.target.id == x by { assert n.target in [n.target]; }
    }
  }

  /** The names and modules that imports bring in, under the name they are bound to. */
  lemma ImportedIff(ns: seq<Node>, x: string)
    ensures x in ImportedAny(ns) <==>
            x == "Any" || exists n, a :: n in ns && n.ImportFrom? && (n.origin == "typing" || n.origin == "typing_extensions")
                                         && a in n.names && a.name == "Any" && x == if a.asname != "" then a.asname else "Any"
    ensures x in ImportedModules(ns) <==>
            x == "typing" || x == "typing_extensions"
            || exists n, a :: n in ns && n.Import? && a in n.names && (a.name == "typing" || a.name == "typing_extensions")
                              && x == if a.asname != "" then a.asname else a.name
  {
  }

  ghost predicate ClosedUnderAliases(s: set<string>, nodes: seq<Node>, modules: set<string>) {
    forall n :: n in nodes ==> Contribution(n, s, modules) <= s
  }

  /** The least set of names that holds the imported ones and is closed under assignment. */
  ghost predicate IsLeastAliasing(s: set<string>, nodes: seq<Node>, modules: set<string>) {
    && ImportedAny(nodes) <= s
    && ClosedUnderAliases(s, nodes, modules)
    && (forall t :: ImportedAny(nodes) <= t && ClosedUnderAliases(t, nodes, modules) ==> s <= t)
  }

  lemma ContributionMonotone(n: Node, a: set<string>, b: set<string>, modules: set<string>)
    requires a <= b
    ensures Contribution(n, a, modules) <= Contribution(n, b, modules)
  {
    if n.Assign? { CountMonotone(n.rhs, a, b, modules, false); }
    if n.AnnAssign? && n.init.Some? { CountMonotone(n.init.value, a, b, modules, Quoted(n)); }
  }

  /** Below every closed set: adding a contribution stays below it. */
  ghost predicate BelowClosed(s: set<string>, nodes: seq<Node>, modules: set<string>) {
    forall t :: ImportedAny(nodes) <= t && ClosedUnderAliases(t, nodes, modules) ==> s <= t
  }

  lemma ContributionStaysBelow(n: Node, s: set<string>, nodes: seq<Node>, modules: set<string>)
    requires n in nodes && BelowClosed(s, nodes, modules)
    ensures BelowClosed(s + Contribution(n, s, modules), nodes, modules)
  {
    forall t | ImportedAny(nodes) <= t && ClosedUnderAliases(t, nodes, modules)
      ensures s + Contribution(n, s, modules) <= t
    {
      ContributionMonotone(n, s, t, modules);
      assert Contribution(n, t, modules) <= t;
    }
  }

  /** There are fewer names than nodes once an assignment is among them. */
  lemma {:induction false} NamesBounded(ns: seq<Node>)
    ensures |NamesIn(ns)| <= |ns|
    ensures (exists n :: n in ns && !n.Name?) ==> |NamesIn(ns)| < |ns|
  {
    if ns != [] {
      var rest := ns[1..];
      NamesBounded(rest);
      assert ns == [ns[0]] + rest;
      var ids := if ns[0].Name? then {ns[0].id} else {};
      assert NamesIn(ns) == ids + NamesIn(rest);
      assert |ids + NamesIn(rest)| <= |ids| + |NamesIn(rest)|;
    }
  }

  lemma ContributionIsNamed(n: Node, s: set<string>, nodes: seq<Node>, modules: set<string>)
    requires n in nodes && ClosedUnderChildren(nodes)
    ensures Contribution(n, s, modules) <= NamesIn(nodes)
  {
    if n.Assign? {
      forall m | m in n.targets && m.Name? ensures m in nodes { assert m in Children(n); }
    } else if n.AnnAssign? {
      assert n.target in Children(n);
    }
  }

  /** `_aliases`. The pass bound is the number of nodes, and it always suffices: the loop ends at the
      least fixed point, however the nodes of the tree are enumerated. */
  method Aliases(root: Node) returns (dynamic: set<string>, modules: set<string>)
    ensures forall nodes: seq<Node> :: multiset(nodes) == AllNodes(root) ==>
      modules == ImportedModules(nodes) && IsLeastAliasing(dynamic, nodes, modules)
  {
    var walk := Walk(root);
    WalkIsClosed(root, walk);
    modules := ImportedModules(walk);
    dynamic := ImportedAny(walk);
    ghost var base := dynamic;
    var passes, changed := 0, true;
    while passes < |walk| && changed
      invariant 0 <= passes <= |walk|
      invariant base <= dynamic <= base + NamesIn(walk) && BelowClosed(dynamic, walk, modules)
      invariant changed ==> |dynamic| >= |base| + passes
      invariant changed && passes > 0 ==> exists n :: n in walk && !n.Name?
      invariant !changed ==> ClosedUnderAliases(dynamic, walk, modules)
      decreases |walk| - passes, changed
    {
      var before := |dynamic|;
      dynamic := Pass(walk, dynamic, modules, base);
      changed := |dynamic| != before;
      passes := passes + 1;
    }
    if changed {
      NamesBounded(walk);
      UnionBounded(base, NamesIn(walk), dynamic);
      assert false;
    }
    forall nodes: seq<Node> | multiset(nodes) == AllNodes(root)
      ensures modules == ImportedModules(nodes) && IsLeastAliasing(dynamic, nodes, modules)
    {
      OrderIsIrrelevant(walk, nodes, dynamic);
    }
  }

  /** The order in which a tree's nodes are visited plays no part in what the least set is. */
  lemma OrderIsIrrelevant(a: seq<Node>, b: seq<Node>, s: set<string>)
    requires multiset(a) == multiset(b)
    ensures ImportedModules(a) == ImportedModules(b)
    ensures IsLeastAliasing(s, a, ImportedModules(a)) <==> IsLeastAliasing(s, b, ImportedModules(b))
  {
    forall n ensures n in a <==> n in b {
      assert n in a <==> n in multiset(a);
      assert n in b <==> n in multiset(b);
    }
    assert ImportedAny(a) == ImportedAny(b);
    assert forall t: set<string>, modules: set<string> :: ClosedUnderAliases(t, a, modules) <==> ClosedUnderAliases(t, b, modules);
  }

  lemma UnionBounded(a: set<string>, b: set<string>, c: set<string>)
    requires c <= a + b
    ensures |c| <= |a| + |b|
  {
    SubsetSize(c, a + b);
    assert a + b == a + (b - a);
    SubsetSize(b - a, b);
  }

  /** One in-place pass over the nodes. */
  method Pass(walk: seq<Node>, start: set<string>, modules: set<string>, ghost base: set<string>) returns (dynamic: set<string>)
    requires ClosedUnderChildren(walk) && base <= start <= base + NamesIn(walk) && BelowClosed(start, walk, modules)
    ensures base <= dynamic <= base + NamesIn(walk) && BelowClosed(dynamic, walk, modules) && start <= dynamic
    ensures |dynamic| == |start| ==> dynamic == start && ClosedUnderAliases(dynamic, walk, modules)
    ensures |dynamic| != |start| ==> |dynamic| > |start| && exists n :: n in walk && !n.Name?
  {
    dynamic := start;
    for i := 0 to |walk|
      invariant base <= dynamic <= base + NamesIn(walk) && BelowClosed(dynamic, walk, modules) && start <= dynamic
      invariant dynamic == start ==> forall j :: 0 <= j < i ==> Contribution(walk[j], start, modules) <= start
      invariant dynamic != start ==> exists n :: n in walk && !n.Name?
    {
      ContributionStaysBelow(walk[i], dynamic, walk, modules);
      ContributionIsNamed(walk[i], dynamic, walk, modules);
      dynamic := dynamic + Contribution(walk[i], dynamic, modules);
    }
    SubsetSize(start, dynamic);
    if dynamic != start {
      ProperSubset(start, dynamic);
    }
  }

  lemma ProperSubset(a: set<string>, b: set<string>)
    requires a <= b && a != b
    ensures |a| < |b|
  {
    var x :| x in b && x !in a;
    SubsetSize(a, b - {x});
  }
}
