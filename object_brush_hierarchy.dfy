/**
 * The scene-hierarchy helpers of `ObjectBrushWindow`: the next free instance number for a
 * base name, found by walking every transform of a scene, and the slash-separated hierarchy
 * path of a transform together with its inverse, the lookup of a transform by path.
 *
 * A scene is its list of root objects, each a `Node` with a name and the list of its
 * children in sibling order. A transform is referred to by its index path: the index of its
 * root, then the index of each child on the way down. The empty path stands for null.
 */
module ObjectBrushHierarchy {
  import opened Wrappers
  import opened Strings
  import opened Decimal

  /** A game object of the scene: its name and its children. */
  datatype Node = Node(name: string, children: seq<Node>)

  /** The position of a transform: root index, then child indices. */
  type IndexPath = seq<nat>

  /** The number of objects in a subtree. */
  function NodeSize(n: Node): nat
    decreases n
  {
    1 + ForestSize(n.children)
  }

  /** The number of objects in a list of subtrees. */
  function ForestSize(ns: seq<Node>): nat
    decreases ns
  {
    if |ns| == 0 then 0 else ForestSize(ns[..|ns| - 1]) + NodeSize(ns[|ns| - 1])
  }

  /** The names in a subtree. */
  function NodeNames(n: Node): set<string>
    decreases n
  {
    {n.name} + ForestNames(n.children)
  }

  /** The names in a list of subtrees. */
  function ForestNames(ns: seq<Node>): set<string>
    decreases ns
  {
    if |ns| == 0 then {} else ForestNames(ns[..|ns| - 1]) + NodeNames(ns[|ns| - 1])
  }

  /** Names and sizes add up over concatenated lists. */
  lemma {:induction false} ForestAppend(a: seq<Node>, b: seq<Node>)
    ensures ForestNames(a + b) == ForestNames(a) + ForestNames(b)
    ensures ForestSize(a + b) == ForestSize(a) + ForestSize(b)
    decreases |b|
  {
    if |b| == 0 {
      assert a + b == a;
    } else {
      var ab := a + b;
      assert ab[..|ab| - 1] == a + b[..|b| - 1];
      assert ab[|ab| - 1] == b[|b| - 1];
      ForestAppend(a, b[..|b| - 1]);
    }
  }

  // ---- GetNextInstanceIndex ----------------------------------------------------------

  /** How a suffix is read: by `int.TryParse`, as written, or as an integer without a bound,
      as the corrected index is. */
  function ParseIndex(s: string, unbounded: bool): (r: Option<int>)
    ensures r.Some? ==> ParseInteger(s) == r
    ensures unbounded ==> r == ParseInteger(s)
    ensures !unbounded ==> r == ParseInt32(s)
  {
    if unbounded then ParseInteger(s) else ParseInt32(s)
  }

  /**
   * The instance number a name carries for a base name: the name starts with the base name
   * (ordinal comparison), one leading '_' or ' ' of the rest is dropped, and what remains is
   * a non-empty string that parses.
   */
  function InstanceNumber(baseName: string, name: string, unbounded: bool): (r: Option<int>)
    ensures r.Some? ==> StartsWith(name, baseName)
    ensures r.Some? && !unbounded ==> IsInt32(r.value)
    ensures r.Some? ==> var suffix := name[|baseName|..];
      |suffix| > 0 &&
      ParseIndex(if suffix[0] == '_' || suffix[0] == ' ' then suffix[1..] else suffix, unbounded) == r
  {
    if !StartsWith(name, baseName) then None
    else
      var suffix := name[|baseName|..];
      var digits := if |suffix| > 0 && (suffix[0] == '_' || suffix[0] == ' ') then suffix[1..] else suffix;
      if |digits| == 0 then None else ParseIndex(digits, unbounded)
  }

  /** The name the window gives a new instance: `{baseName}_{index}`. */
  function InstanceName(baseName: string, index: int): string {
    baseName + "_" + IntString(index)
  }

  /** `Stack.Push` of every child of a transform, in child order. */
  method PushChildren(stack: seq<Node>, t: Node) returns (pushed: seq<Node>)
    ensures pushed == stack + t.children
  {
    pushed := stack;
    for i := 0 to |t.children|
      invariant pushed == stack + t.children[..i]
    {
      pushed := pushed + [t.children[i]];
    }
    assert t.children[..|t.children|] == t.children;
  }

  /**
   * The traversal of `GetNextInstanceIndex`: every transform of the scene is visited (the
   * children are pushed whether or not the name matched), and the result is the largest
   * instance number among all names, or 0 when none is larger.
   */
  method MaxInstanceIndex(baseName: string, roots: seq<Node>, unbounded: bool) returns (maxIndex: int)
    ensures 0 <= maxIndex && (!unbounded ==> maxIndex <= Int32Max)
    ensures forall n :: n in ForestNames(roots) && InstanceNumber(baseName, n, unbounded).Some? ==>
      InstanceNumber(baseName, n, unbounded).value <= maxIndex
    ensures maxIndex == 0 || exists n :: n in ForestNames(roots) && InstanceNumber(baseName, n, unbounded) == Some(maxIndex)
  {
    maxIndex := 0;
    var stack: seq<Node> := [];
    for i := 0 to |roots|
      invariant stack == roots[..i]
    {
      stack := stack + [roots[i]];
    }
    assert roots[..|roots|] == roots;
    ghost var visited: set<string> := {};
    while |stack| > 0
      invariant ForestNames(roots) == visited + ForestNames(stack)
      invariant 0 <= maxIndex && (!unbounded ==> maxIndex <= Int32Max)
      invariant forall n :: n in visited && InstanceNumber(baseName, n, unbounded).Some? ==>
        InstanceNumber(baseName, n, unbounded).value <= maxIndex
      invariant maxIndex == 0 || exists n :: n in visited && InstanceNumber(baseName, n, unbounded) == Some(maxIndex)
      decreases ForestSize(stack)
    {
      ghost var before := stack;
      var t := stack[|stack| - 1];
      var rest := stack[..|stack| - 1];
      stack := rest;
      assert ForestSize(before) == ForestSize(rest) + 1 + ForestSize(t.children);
      assert ForestNames(before) == ForestNames(rest) + {t.name} + ForestNames(t.children);
      ForestAppend(rest, t.children);
      visited := visited + {t.name};
      maxIndex := ScanName(baseName, t.name, maxIndex, unbounded);
      stack := PushChildren(stack, t);
    }
  }

  /** The test of one visited name: its instance number replaces the maximum so far when it
      is larger. */
  method ScanName(baseName: string, name: string, maxIndex: int, unbounded: bool) returns (m: int)
    ensures var n := InstanceNumber(baseName, name, unbounded);
      m == if n.Some? && n.value > maxIndex then n.value else maxIndex
  {
    m := maxIndex;
    if !StartsWith(name, baseName) {
      return;
    }
    var suffix := name[|baseName|..];
    if |suffix| > 0 && (suffix[0] == '_' || suffix[0] == ' ') {
      suffix := suffix[1..];
    }
    if |suffix| > 0 {
      var index := ParseIndex(suffix, unbounded);
      if index.Some? && index.value > m {
        m := index.value;
      }
    }
    assert InstanceNumber(baseName, name, unbounded) == if |suffix| == 0 then None else ParseIndex(suffix, unbounded);
  }

  /**
   * `GetNextInstanceIndex`, with the numbers read and incremented without a bound: one more
   * than the largest instance number in the scene, so at least 1 and larger than every number
   * a name of the scene carries. No object of the scene has the name the new instance gets.
   */
  method GetNextInstanceIndex(baseName: string, roots: seq<Node>) returns (index: int)
    ensures 1 <= index
    ensures forall n :: n in ForestNames(roots) && InstanceNumber(baseName, n, true).Some? ==>
      InstanceNumber(baseName, n, true).value < index
    ensures index == 1 || exists n :: n in ForestNames(roots) && InstanceNumber(baseName, n, true) == Some(index - 1)
    ensures InstanceName(baseName, index) !in ForestNames(roots)
  {
    var maxIndex := MaxInstanceIndex(baseName, roots, true);
    index := maxIndex + 1;
    NumberedInstance(baseName, index);
  }

  /**
   * `GetNextInstanceIndex` as written: the numbers are read by `int.TryParse`, and
   * `maxIndex + 1` is C# `int` addition, which wraps around at `int.MaxValue`. Below that
   * number the result is larger than every instance number of the scene; once a name carries
   * `int.MaxValue` it is `int.MinValue`.
   */
  method GetNextInstanceIndexAsWritten(baseName: string, roots: seq<Node>) returns (index: int)
    ensures (forall n :: n in ForestNames(roots) && InstanceNumber(baseName, n, false).Some? ==>
               InstanceNumber(baseName, n, false).value < Int32Max) ==>
      1 <= index && forall n :: n in ForestNames(roots) && InstanceNumber(baseName, n, false).Some? ==>
        InstanceNumber(baseName, n, false).value < index
    ensures (exists n :: n in ForestNames(roots) && InstanceNumber(baseName, n, false) == Some(Int32Max)) ==>
      index == Int32Min
  {
    var maxIndex := MaxInstanceIndex(baseName, roots, false);
    index := Wrap32(maxIndex + 1);
    if maxIndex < Int32Max {
      Wrap32InRange(maxIndex + 1);
    } else {
      Wrap32Overflow();
    }
  }

  /** The name the window gives an instance carries its number, read either way when the
      number is an `int`. */
  lemma NumberedInstance(baseName: string, n: int)
    ensures InstanceNumber(baseName, InstanceName(baseName, n), true) == Some(n)
    ensures IsInt32(n) ==> InstanceNumber(baseName, InstanceName(baseName, n), false) == Some(n)
  {
    InstanceNameParts(baseName, n);
    IntStringParses(n);
  }

  /** The name of an instance is its base name, `_`, and the number's text. */
  lemma InstanceNameParts(baseName: string, n: int)
    ensures var name := InstanceName(baseName, n);
      StartsWith(name, baseName) && |name| > |baseName| &&
      name[|baseName|] == '_' && name[|baseName|..][1..] == IntString(n)
  {
    var name := InstanceName(baseName, n);
    assert name[..|baseName|] == baseName;
    assert name[|baseName|..] == "_" + IntString(n);
  }

  /**
   * A scene holding `Barrel_2147483647` makes the index as written `int.MinValue`. The new
   * instance is named `Barrel_-2147483648`, whose number is smaller than the existing one, so
   * the next instance gets that same index, and the same name, again.
   */
  method AsWrittenInstanceIndexWraps() returns (existing: string, index: int, again: int)
    ensures InstanceNumber("Barrel", existing, false) == Some(Int32Max)
    ensures index == Int32Min
    ensures InstanceNumber("Barrel", InstanceName("Barrel", index), false) == Some(Int32Min)
    ensures again == index
  {
    existing := InstanceName("Barrel", Int32Max);
    NumberedInstance("Barrel", Int32Max);
    var roots := [Node(existing, [])];
    assert ForestNames(roots) == {existing} by {
      assert roots[..0] == [];
    }
    index := GetNextInstanceIndexAsWritten("Barrel", roots);
    Wrap32Overflow();
    NumberedInstance("Barrel", Int32Min);
    var more := roots + [Node(InstanceName("Barrel", index), [])];
    ForestAppend(roots, [Node(InstanceName("Barrel", index), [])]);
    assert existing in ForestNames(more);
    again := GetNextInstanceIndexAsWritten("Barrel", more);
  }

  // ---- Hierarchy paths ---------------------------------------------------------------

  /** An index path that leads to an object of the scene. */
  predicate ValidPath(roots: seq<Node>, t: IndexPath)
    decreases |t|, 0
  {
    |t| >= 1 &&
    if |t| == 1 then t[0] < |roots|
    else ValidPath(roots, t[..|t| - 1]) && t[|t| - 1] < |NodeAt(roots, t[..|t| - 1]).children|
  }

  /** The object at a valid index path. */
  function NodeAt(roots: seq<Node>, t: IndexPath): Node
    requires ValidPath(roots, t)
    decreases |t|, 1
  {
    if |t| == 1 then roots[t[0]]
    else NodeAt(roots, t[..|t| - 1]).children[t[|t| - 1]]
  }

  /** The names from the root down to the object at an index path. */
  function NamesAlong(roots: seq<Node>, t: IndexPath): (names: seq<string>)
    requires ValidPath(roots, t)
    ensures |names| == |t|
    ensures names[|t| - 1] == NodeAt(roots, t).name
    decreases |t|
  {
    if |t| == 1 then [NodeAt(roots, t).name]
    else NamesAlong(roots, t[..|t| - 1]) + [NodeAt(roots, t).name]
  }

  /** The reverse of a list (`List.Reverse`). */
  function Reversed<T>(s: seq<T>): (r: seq<T>)
    ensures |r| == |s|
    ensures forall k :: 0 <= k < |s| ==> r[k] == s[|s| - 1 - k]
  {
    if |s| == 0 then [] else Reversed(s[1..]) + [s[0]]
  }

  /**
   * `GetHierarchyPath`: null for null; otherwise the names from the transform up through
   * its parents, reversed and joined with '/': the root-to-object names.
   */
  method GetHierarchyPath(roots: seq<Node>, t: IndexPath) returns (path: Option<string>)
    requires t == [] || ValidPath(roots, t)
    ensures t == [] ==> path.None?
    ensures t != [] ==> path == Some(Join(NamesAlong(roots, t), '/'))
  {
    if t == [] {
      return None;
    }
    ghost var names := NamesAlong(roots, t);
    var parts: seq<string> := [];
    var current := t;
    while current != []
      invariant |current| <= |t| && current == t[..|current|]
      invariant current != [] ==> ValidPath(roots, current)
      invariant |parts| == |t| - |current|
      invariant forall k :: 0 <= k < |parts| ==> parts[k] == names[|t| - 1 - k]
      decreases |current|
    {
      PrefixNames(roots, t, |current|);
      parts := parts + [NodeAt(roots, current).name];
      current := current[..|current| - 1];
    }
    var reversed := Reversed(parts);
    assert reversed == names;
    return Some(Join(reversed, '/'));
  }

  /** A prefix of a valid path is valid, and names the same objects. */
  lemma {:induction false} PrefixNames(roots: seq<Node>, t: IndexPath, n: nat)
    requires ValidPath(roots, t) && 1 <= n <= |t|
    ensures ValidPath(roots, t[..n])
    ensures NamesAlong(roots, t)[n - 1] == NodeAt(roots, t[..n]).name
    decreases |t|
  {
    if n < |t| {
      var p := t[..|t| - 1];
      assert p[..n] == t[..n];
      PrefixNames(roots, p, n);
    } else {
      assert t[..n] == t;
    }
  }

  /** `FirstOrDefault` by name, and `Transform.Find` of a name without '/': the first object
      of the list with that name. */
  function FirstNamedNode(ns: seq<Node>, name: string): (r: Option<nat>)
    ensures r.None? <==> forall j :: 0 <= j < |ns| ==> ns[j].name != name
    ensures r.Some? ==> r.value < |ns| && ns[r.value].name == name &&
                        forall j :: 0 <= j < r.value ==> ns[j].name != name
  {
    if |ns| == 0 then None
    else if ns[0].name == name then Some(0)
    else
      var r := FirstNamedNode(ns[1..], name);
      if r.None? then None else Some(r.value + 1)
  }

  /** The path the lookup follows for a list of names: the first root with the first name,
      then the first child with each next name; `None` as soon as one is missing. */
  function Resolve(roots: seq<Node>, parts: seq<string>): (r: Option<IndexPath>)
    requires |parts| >= 1
    ensures r.Some? ==> ValidPath(roots, r.value) && |r.value| == |parts|
    decreases |parts|
  {
    if |parts| == 1 then
      match FirstNamedNode(roots, parts[0])
      case None => None
      case Some(k) => Some([k])
    else
      match Resolve(roots, parts[..|parts| - 1])
      case None => None
      case Some(c) =>
        match FirstNamedNode(NodeAt(roots, c).children, parts[|parts| - 1])
        case None => None
        case Some(k) =>
          assert (c + [k])[..|c|] == c;
          Some(c + [k])
  }

  /**
   * `FindTransformByPath`: null for an empty path; otherwise the path is split at '/', the
   * first part picks the root and every further part a child, the first with that name each
   * time; null as soon as a part has no match. A transform found carries exactly the names of
   * the path.
   */
  method FindTransformByPath(roots: seq<Node>, path: string) returns (t: IndexPath)
    ensures path == "" ==> t == []
    ensures path != "" ==> t == Resolve(roots, Split(path, '/')).GetOr([])
    ensures t != [] ==> ValidPath(roots, t) && NamesAlong(roots, t) == Split(path, '/')
  {
    if path == "" {
      return [];
    }
    var parts := Split(path, '/');
    t := FollowParts(roots, parts);
    if t != [] {
      ResolveNames(roots, parts);
    }
  }

  /** A path the lookup finds carries exactly the names it was looked up by. */
  lemma {:induction false} ResolveNames(roots: seq<Node>, parts: seq<string>)
    requires |parts| >= 1 && Resolve(roots, parts).Some?
    ensures NamesAlong(roots, Resolve(roots, parts).value) == parts
    decreases |parts|
  {
    if |parts| > 1 {
      var shorter := parts[..|parts| - 1];
      ResolveNames(roots, shorter);
      var c := Resolve(roots, shorter).value;
      var t := Resolve(roots, parts).value;
      assert t[..|t| - 1] == c;
      assert parts == shorter + [parts[|parts| - 1]];
    }
  }

  /** The walk of `FindTransformByPath` over the parts of a path: the root by the first part,
      then a child for each further part. */
  method FollowParts(roots: seq<Node>, parts: seq<string>) returns (t: IndexPath)
    requires |parts| >= 1
    ensures t == Resolve(roots, parts).GetOr([])
  {
    var first := FollowRoot(roots, parts);
    if first.None? {
      ResolveMissingPrefix(roots, parts, 1);
      return [];
    }
    var current: IndexPath := first.value;
    var i := 1;
    while i < |parts|
      invariant 1 <= i <= |parts|
      invariant Resolve(roots, parts[..i]) == Some(current)
    {
      var next := FollowChild(roots, parts, i, current);
      if next.None? {
        ResolveMissingPrefix(roots, parts, i + 1);
        return [];
      }
      current := next.value;
      i := i + 1;
    }
    assert parts[..i] == parts;
    return current;
  }

  /** The first step of the walk: the first root named by the first part. */
  method FollowRoot(roots: seq<Node>, parts: seq<string>) returns (first: Option<IndexPath>)
    requires |parts| >= 1
    ensures first == Resolve(roots, parts[..1])
  {
    assert parts[..1] == [parts[0]];
    var root := FirstNamedNode(roots, parts[0]);
    first := if root.None? then None else Some([root.value]);
  }

  /** One further step of the walk: the first child of `current` named by part `i`. */
  method FollowChild(roots: seq<Node>, parts: seq<string>, i: nat, current: IndexPath) returns (next: Option<IndexPath>)
    requires 1 <= i < |parts| && Resolve(roots, parts[..i]) == Some(current)
    ensures next == Resolve(roots, parts[..i + 1])
  {
    assert parts[..i + 1] == parts[..i] + [parts[i]];
    ResolveAppend(roots, parts[..i], parts[i], current);
    var child := FirstNamedNode(NodeAt(roots, current).children, parts[i]);
    next := if child.None? then None else Some(current + [child.value]);
  }

  /** Following one more name from the path found for the names before it. */
  lemma ResolveAppend(roots: seq<Node>, prefix: seq<string>, name: string, c: IndexPath)
    requires |prefix| >= 1 && Resolve(roots, prefix) == Some(c)
    ensures ValidPath(roots, c)
    ensures var k := FirstNamedNode(NodeAt(roots, c).children, name);
      Resolve(roots, prefix + [name]) == if k.None? then None else Some(c + [k.value])
  {
    var longer := prefix + [name];
    assert longer[..|prefix|] == prefix;
  }

  /** Once a prefix of the names cannot be followed, neither can the whole list. */
  lemma {:induction false} ResolveMissingPrefix(roots: seq<Node>, parts: seq<string>, i: nat)
    requires 1 <= i <= |parts| && Resolve(roots, parts[..i]).None?
    ensures Resolve(roots, parts).None?
    decreases |parts|
  {
    if i == |parts| {
      assert parts[..i] == parts;
    } else {
      var shorter := parts[..|parts| - 1];
      assert shorter[..i] == parts[..i];
      ResolveMissingPrefix(roots, shorter, i);
    }
  }

  /** In a list of distinct names, the first object with an object's name is that object. */
  lemma FirstNamedDistinct(ns: seq<Node>, k: nat)
    requires k < |ns| && forall i, j :: 0 <= i < j < |ns| ==> ns[i].name != ns[j].name
    ensures FirstNamedNode(ns, ns[k].name) == Some(k)
  {
  }

  /** A scene whose objects have non-empty names without '/' and whose siblings (and roots)
      have distinct names. */
  predicate WellNamed(ns: seq<Node>)
    decreases ns
  {
    (forall i, j :: 0 <= i < j < |ns| ==> ns[i].name != ns[j].name) &&
    forall i :: 0 <= i < |ns| ==> ns[i].name != "" && '/' !in ns[i].name && WellNamed(ns[i].children)
  }

  /** Along a valid path of a well-named scene, the object's children are well named too, and
      every name on the way is non-empty and free of '/'. */
  lemma {:induction false} WellNamedAlong(roots: seq<Node>, t: IndexPath)
    requires WellNamed(roots) && ValidPath(roots, t)
    ensures WellNamed(NodeAt(roots, t).children)
    ensures forall k :: 0 <= k < |t| ==> NamesAlong(roots, t)[k] != "" && '/' !in NamesAlong(roots, t)[k]
    decreases |t|
  {
    if |t| > 1 {
      var p := t[..|t| - 1];
      WellNamedAlong(roots, p);
      assert NamesAlong(roots, t) == NamesAlong(roots, p) + [NodeAt(roots, t).name];
    }
  }

  /** In a well-named scene the lookup by names follows an index path back to itself. */
  lemma {:induction false} ResolveNamesAlong(roots: seq<Node>, t: IndexPath)
    requires WellNamed(roots) && ValidPath(roots, t)
    ensures Resolve(roots, NamesAlong(roots, t)) == Some(t)
    decreases |t|
  {
    if |t| > 1 {
      var p := t[..|t| - 1];
      var name := NodeAt(roots, t).name;
      assert NamesAlong(roots, t) == NamesAlong(roots, p) + [name];
      ResolveNamesAlong(roots, p);
      ResolveAppend(roots, NamesAlong(roots, p), name, p);
      WellNamedAlong(roots, p);
      var children := NodeAt(roots, p).children;
      var k := t[|t| - 1];
      assert name == children[k].name;
      FirstNamedDistinct(children, k);
      LastSplit(t);
    } else {
      FirstNamedDistinct(roots, t[0]);
      assert [t[0]] == t;
    }
  }

  /** A non-empty path is its parent path followed by its last index. */
  lemma LastSplit(t: IndexPath)
    requires |t| >= 1
    ensures t[..|t| - 1] + [t[|t| - 1]] == t
  {
  }

  /**
   * The round trip of the parent bindings: in a well-named scene, looking up the hierarchy
   * path of a transform finds that same transform.
   */
  lemma FindOfHierarchyPath(roots: seq<Node>, t: IndexPath)
    requires WellNamed(roots) && ValidPath(roots, t)
    ensures var path := Join(NamesAlong(roots, t), '/');
      path != "" && Resolve(roots, Split(path, '/')) == Some(t)
  {
    var names := NamesAlong(roots, t);
    WellNamedAlong(roots, t);
    SplitJoin(names, '/');
    JoinNonEmpty(names, '/');
    ResolveNamesAlong(roots, t);
  }

  /** Joining a list that starts with a non-empty string gives a non-empty string. */
  lemma JoinNonEmpty(parts: seq<string>, sep: char)
    requires |parts| >= 1 && parts[0] != ""
    ensures Join(parts, sep) != ""
  {
    if |parts| > 1 {
      assert |Join(parts, sep)| >= |parts[0]|;
    }
  }
}
