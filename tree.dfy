/** The project-tree printer (p.py): a directory tree rendered as lines with
    box-drawing prefixes, a depth limit, a directories-only filter and a set of
    directory names that are listed but never expanded. */
module ProjectTree {
  import opened Wrappers

  /** A file system entry as `Path.is_dir` and `Path.is_file` see it: a
      directory (possibly unreadable), a regular file, or neither (a FIFO, a
      socket, a dangling link), which sorts among the directories. */
  datatype Node = Node(name: string, isDir: bool, isFile: bool, readable: bool, children: seq<Node>)

  /** Directory names that are shown but not expanded unless the caller adds more. */
  const DefaultPruneDirs: set<string> := {".git", "__pycache__", ".venv", "alembic"}

  const LastBranch := "└── "
  const MidBranch := "├── "
  const LastExt := "    "
  const MidExt := "│   "

  /** The keyword arguments of render_tree. */
  datatype Options = Options(maxDepth: Option<int>, dirsOnly: bool, prune: set<string>)

  /** The prune set built by main: the defaults together with every --prune value. */
  function PruneDirNames(extra: seq<string>): (r: set<string>)
    ensures forall n :: n in r <==> n in DefaultPruneDirs || n in extra
    ensures DefaultPruneDirs <= r
  {
    DefaultPruneDirs + set n | n in extra
  }

  // ---------------------------------------------------------------------------
  // The sort key of iter_children: (is_file, name.lower())
  // ---------------------------------------------------------------------------

  function LowerChar(c: char): char {
    if 'A' <= c <= 'Z' then (c as int + 32) as char else c
  }

  function Lower(s: string): string {
    if s == [] then [] else [LowerChar(s[0])] + Lower(s[1..])
  }

  /** Python's `<` on strings: lexicographic by code point, a proper prefix first. */
  predicate StrLess(a: string, b: string) {
    if a == [] then b != []
    else b != [] && (a[0] < b[0] || (a[0] == b[0] && StrLess(a[1..], b[1..])))
  }

  lemma {:induction false} StrLessIrreflexive(a: string)
    ensures !StrLess(a, a)
  {
    if a != [] { StrLessIrreflexive(a[1..]); }
  }

  lemma {:induction false} StrLessTransitive(a: string, b: string, c: string)
    requires StrLess(a, b) && StrLess(b, c)
    ensures StrLess(a, c)
  {
    if a != [] && a[0] == b[0] && b[0] == c[0] {
      StrLessTransitive(a[1..], b[1..], c[1..]);
    }
  }

  lemma {:induction false} StrLessTotal(a: string, b: string)
    requires a != b
    ensures StrLess(a, b) || StrLess(b, a)
  {
    if a != [] && b != [] && a[0] == b[0] {
      assert a == [a[0]] + a[1..] && b == [b[0]] + b[1..];
      StrLessTotal(a[1..], b[1..]);
    }
  }

  predicate IsFile(n: Node) { n.isFile }

  /** The tuple comparison (is_file, name.lower()) < (is_file', name'.lower()); False sorts before True. */
  predicate KeyLess(a: Node, b: Node) {
    (!IsFile(a) && IsFile(b)) || (IsFile(a) == IsFile(b) && StrLess(Lower(a.name), Lower(b.name)))
  }

  /** `a` may stand before `b` in a sorted list. */
  predicate KeyLe(a: Node, b: Node) { !KeyLess(b, a) }

  lemma KeyLeTransitive(a: Node, b: Node, c: Node)
    requires KeyLe(a, b) && KeyLe(b, c)
    ensures KeyLe(a, c)
  {
    if KeyLess(c, a) {
      if Lower(a.name) != Lower(b.name) { StrLessTotal(Lower(a.name), Lower(b.name)); }
      if KeyLess(a, b) && IsFile(c) == IsFile(a) && IsFile(a) == IsFile(b) {
        StrLessTransitive(Lower(c.name), Lower(a.name), Lower(b.name));
      }
    }
  }

  lemma KeyLessAsymmetric(a: Node, b: Node)
    requires KeyLess(a, b)
    ensures !KeyLess(b, a)
  {
    if KeyLess(b, a) && IsFile(a) == IsFile(b) {
      StrLessTransitive(Lower(a.name), Lower(b.name), Lower(a.name));
      StrLessIrreflexive(Lower(a.name));
    }
  }

  /** Every element may stand before every later one. */
  predicate Ordered(s: seq<Node>) {
    forall i, j :: 0 <= i < j < |s| ==> KeyLe(s[i], s[j])
  }

  /** Stable insertion of `x` in front of the first element that is not smaller. */
  function Insert(x: Node, s: seq<Node>): (r: seq<Node>)
    ensures multiset(r) == multiset(s) + multiset{x}
  {
    if s == [] || !KeyLess(s[0], x) then [x] + s
    else
      assert s == [s[0]] + s[1..];
      [s[0]] + Insert(x, s[1..])
  }

  /** Insertion into a sorted list keeps it sorted. */
  lemma {:induction false} InsertOrdered(x: Node, s: seq<Node>)
    requires Ordered(s)
    ensures Ordered(Insert(x, s))
  {
    if s == [] || !KeyLess(s[0], x) {
      InsertFront(x, s);
    } else {
      assert Ordered(s[1..]);
      var t := Insert(x, s[1..]);
      InsertOrdered(x, s[1..]);
      InsertBehind(x, s, t);
    }
  }

  lemma InsertFront(x: Node, s: seq<Node>)
    requires Ordered(s) && (s == [] || !KeyLess(s[0], x))
    ensures Ordered([x] + s)
  {
    var r := [x] + s;
    forall i, j | 0 <= i < j < |r| ensures KeyLe(r[i], r[j]) {
      assert r[j] == s[j - 1];
      if i == 0 && j > 1 { KeyLeTransitive(x, s[0], s[j - 1]); }
      if i > 0 { assert r[i] == s[i - 1]; }
    }
  }

  lemma InsertBehind(x: Node, s: seq<Node>, t: seq<Node>)
    requires Ordered(s) && s != [] && KeyLess(s[0], x)
    requires Ordered(t) && multiset(t) == multiset(s[1..]) + multiset{x}
    ensures multiset([s[0]] + t) == multiset(s) + multiset{x}
    ensures Ordered([s[0]] + t)
  {
    assert s == [s[0]] + s[1..];
    forall j | 0 <= j < |t| ensures KeyLe(s[0], t[j]) {
      assert t[j] in multiset(t);
      if t[j] == x {
        KeyLessAsymmetric(s[0], x);
      } else {
        assert t[j] in multiset(s[1..]);
        var k :| 0 <= k < |s[1..]| && s[1..][k] == t[j];
        assert s[k + 1] == t[j];
      }
    }
    var r := [s[0]] + t;
    forall i, j | 0 <= i < j < |r| ensures KeyLe(r[i], r[j]) {
      assert r[j] == t[j - 1];
      if i > 0 { assert r[i] == t[i - 1]; }
    }
  }

  /** `list.sort` with the iter_children key: a stable insertion sort. */
  function SortByKey(s: seq<Node>): (r: seq<Node>)
    ensures multiset(r) == multiset(s)
  {
    if s == [] then []
    else
      assert s == [s[0]] + s[1..];
      Insert(s[0], SortByKey(s[1..]))
  }

  /** The sort's result is ordered by the key. */
  lemma {:induction false} SortByKeyOrdered(s: seq<Node>)
    ensures Ordered(SortByKey(s))
  {
    if s != [] {
      SortByKeyOrdered(s[1..]);
      InsertOrdered(s[0], SortByKey(s[1..]));
    }
  }

  /** iter_children: the sorted listing of a directory; an unreadable one lists nothing. */
  function IterChildren(n: Node): (r: seq<Node>)
    ensures !n.readable ==> r == []
    ensures n.readable ==> multiset(r) == multiset(n.children)
    ensures forall c :: c in r ==> c in n.children
  {
    if !n.readable then []
    else
      var r := SortByKey(n.children);
      assert forall c :: c in r ==> c in n.children by {
        forall c | c in r ensures c in n.children {
          assert c in multiset(r);
        }
      }
      r
  }

  /** Siblings are listed everything that is not a regular file first, then
      the files, each group ordered by lower-cased name. */
  lemma IterChildrenOrder(n: Node)
    ensures var r := IterChildren(n);
            && (forall i, j :: 0 <= i < j < |r| && r[i].isFile ==> r[j].isFile)
            && (forall i, j :: 0 <= i < j < |r| && r[i].isFile == r[j].isFile ==>
                  !StrLess(Lower(r[j].name), Lower(r[i].name)))
  {
    var r := IterChildren(n);
    if n.readable {
      SortByKeyOrdered(n.children);
    }
    assert Ordered(r);
  }

  /** The list comprehension of walk: every child, or only the directories, in their order. */
  function Visible(cs: seq<Node>, dirsOnly: bool): (r: seq<Node>)
    ensures forall c :: c in r <==> c in cs && (!dirsOnly || c.isDir)
    ensures !dirsOnly ==> r == cs
  {
    if cs == [] then []
    else
      assert forall c :: c in cs <==> c == cs[0] || c in cs[1..] by {
        assert cs == [cs[0]] + cs[1..];
      }
      if !dirsOnly || cs[0].isDir then [cs[0]] + Visible(cs[1..], dirsOnly)
      else Visible(cs[1..], dirsOnly)
  }

  // ---------------------------------------------------------------------------
  // walk: the entries below a directory
  // ---------------------------------------------------------------------------

  /** One listed child: the printed line is prefix + branch + name, the branch
      being the corner for the last child of its directory and the tee otherwise. */
  datatype Entry = Entry(prefix: string, isLast: bool, node: Node, depth: int) {
    function Line(): string { prefix + Branch(isLast) + node.name }
  }

  function Branch(isLast: bool): string { if isLast then LastBranch else MidBranch }
  function Ext(isLast: bool): string { if isLast then LastExt else MidExt }

  predicate Pruned(n: Node, opts: Options) { n.isDir && n.name in opts.prune }

  /** A pruned directory is never followed by one of its own descendants: the
      next entry is a sibling or belongs to a shallower directory. */
  predicate PrunedNotExpanded(r: seq<Entry>, opts: Options) {
    forall j :: 0 <= j < |r| - 1 && Pruned(r[j].node, opts) ==> r[j + 1].depth <= r[j].depth
  }

  /** Whether round i of walk recurses into the child. */
  predicate Expands(child: Node, depth: int, opts: Options) {
    child.isDir && !Pruned(child, opts) && (opts.maxDepth.None? || depth < opts.maxDepth.value)
  }

  /** Dropping entries from a sorted list leaves it sorted. */
  lemma {:induction false} VisibleOrdered(cs: seq<Node>, dirsOnly: bool)
    requires Ordered(cs)
    ensures Ordered(Visible(cs, dirsOnly))
  {
    if cs != [] {
      var t := Visible(cs[1..], dirsOnly);
      assert Ordered(cs[1..]) by {
        forall i, j | 0 <= i < j < |cs[1..]| ensures KeyLe(cs[1..][i], cs[1..][j]) {
          assert cs[1..][i] == cs[i + 1] && cs[1..][j] == cs[j + 1];
        }
      }
      VisibleOrdered(cs[1..], dirsOnly);
      if !dirsOnly || cs[0].isDir {
        forall j | 0 <= j < |t| ensures KeyLe(cs[0], t[j]) {
          assert t[j] in t;
          var k :| 0 <= k < |cs[1..]| && cs[1..][k] == t[j];
          assert cs[k + 1] == t[j];
        }
        var r := [cs[0]] + t;
        forall i, j | 0 <= i < j < |r| ensures KeyLe(r[i], r[j]) {
          assert r[j] == t[j - 1];
          if i > 0 { assert r[i] == t[i - 1]; }
        }
      }
    }
  }

  /** The children walk lists for `dir`: iter_children, then the dirs_only filter. */
  function Listed(dir: Node, opts: Options): (cs: seq<Node>)
    ensures forall c :: c in cs ==> c in dir.children
    ensures opts.dirsOnly ==> forall c :: c in cs ==> c.isDir
  {
    Visible(IterChildren(dir), opts.dirsOnly)
  }

  /** The order of iter_children survives the dirs_only filter: what walk
      lists is non-files first, then files, each group by lower-cased name. */
  lemma ListedOrder(dir: Node, opts: Options)
    ensures var r := Listed(dir, opts);
            && (forall i, j :: 0 <= i < j < |r| && r[i].isFile ==> r[j].isFile)
            && (forall i, j :: 0 <= i < j < |r| && r[i].isFile == r[j].isFile ==>
                  !StrLess(Lower(r[j].name), Lower(r[i].name)))
  {
    if dir.readable {
      SortByKeyOrdered(dir.children);
    }
    assert Ordered(IterChildren(dir));
    VisibleOrdered(IterChildren(dir), opts.dirsOnly);
    assert Ordered(Listed(dir, opts));
  }

  /** walk(dir, prefix, depth) as the list of entries it appends. */
  function WalkEntries(dir: Node, prefix: string, depth: int, opts: Options): (r: seq<Entry>)
    decreases dir, 2
  {
    if opts.maxDepth.Some? && depth > opts.maxDepth.value then []
    else ChildrenEntries(dir, |Listed(dir, opts)|, prefix, depth, opts)
  }

  /** The entries appended by the first k rounds of walk's loop over the children of `dir`. */
  function ChildrenEntries(dir: Node, k: nat, prefix: string, depth: int, opts: Options): (r: seq<Entry>)
    requires k <= |Listed(dir, opts)|
    decreases dir, 1, k
  {
    if k == 0 then []
    else ChildrenEntries(dir, k - 1, prefix, depth, opts) + ChildEntries(dir, k - 1, prefix, depth, opts)
  }

  /** The entries appended by round i of walk's loop: the child's own line,
      then, for an expandable directory, everything below it. */
  function ChildEntries(dir: Node, i: nat, prefix: string, depth: int, opts: Options): (r: seq<Entry>)
    requires i < |Listed(dir, opts)|
    decreases dir, 0
    ensures |r| > 0 && r[0] == Entry(prefix, i == |Listed(dir, opts)| - 1, Listed(dir, opts)[i], depth)
    ensures !Expands(Listed(dir, opts)[i], depth, opts) ==> r == [r[0]]
  {
    var cs := Listed(dir, opts);
    var child := cs[i];
    assert child in dir.children;
    var isLast := i == |cs| - 1;
    var e := Entry(prefix, isLast, child, depth);
    if Expands(child, depth, opts) then [e] + WalkEntries(child, prefix + Ext(isLast), depth + 1, opts)
    else [e]
  }

  /** The child listed in round i of walk's loop, with what walk knows about it. */
  lemma ListedChild(dir: Node, i: nat, opts: Options)
    requires i < |Listed(dir, opts)|
    ensures var c := Listed(dir, opts)[i]; c in dir.children && (opts.dirsOnly ==> c.isDir)
  {
    assert Listed(dir, opts)[i] in Listed(dir, opts);
  }

  // ---- depth limit, dirs_only filter, pruning ----

  /** Every entry of `r` is at `depth` or deeper, within the depth limit and
      passes the dirs_only filter; the first one is at `depth` exactly; and no
      pruned directory is followed by an entry of its own. */
  predicate Bounded(r: seq<Entry>, depth: int, opts: Options) {
    && (forall j :: 0 <= j < |r| ==> WithinLimits(r[j], depth, opts))
    && (|r| > 0 ==> r[0].depth == depth)
    && PrunedNotExpanded(r, opts)
  }

  /** One entry is at `depth` or deeper, within the depth limit and passes the dirs_only filter. */
  predicate WithinLimits(e: Entry, depth: int, opts: Options) {
    && depth <= e.depth
    && (opts.maxDepth.Some? ==> e.depth <= opts.maxDepth.value)
    && (opts.dirsOnly ==> e.node.isDir)
  }

  lemma BoundedConcat(a: seq<Entry>, b: seq<Entry>, depth: int, opts: Options)
    requires Bounded(a, depth, opts) && Bounded(b, depth, opts)
    ensures Bounded(a + b, depth, opts)
  {
    var r := a + b;
    forall j | 0 <= j < |r| ensures r[j] == (if j < |a| then a[j] else b[j - |a|]) { }
    forall j | 0 <= j < |r| - 1 && Pruned(r[j].node, opts)
      ensures r[j + 1].depth <= r[j].depth
    {
      if j == |a| - 1 { assert r[j + 1] == b[0]; }
    }
  }

  lemma BoundedBelow(e: Entry, below: seq<Entry>, depth: int, opts: Options)
    requires e.depth == depth && !Pruned(e.node, opts)
    requires opts.maxDepth.Some? ==> depth <= opts.maxDepth.value
    requires opts.dirsOnly ==> e.node.isDir
    requires Bounded(below, depth + 1, opts)
    ensures Bounded([e] + below, depth, opts)
  {
    var r := [e] + below;
    forall j | 1 <= j < |r| ensures r[j] == below[j - 1] { }
  }

  /** walk stays within the depth limit and the dirs_only filter, and never
      expands a pruned directory. */
  lemma {:induction false} WalkEntriesBounded(dir: Node, prefix: string, depth: int, opts: Options)
    decreases dir, 2
    ensures Bounded(WalkEntries(dir, prefix, depth, opts), depth, opts)
  {
    if !(opts.maxDepth.Some? && depth > opts.maxDepth.value) {
      ChildrenEntriesBounded(dir, |Listed(dir, opts)|, prefix, depth, opts);
    }
  }

  lemma {:induction false} ChildrenEntriesBounded(dir: Node, k: nat, prefix: string, depth: int, opts: Options)
    requires k <= |Listed(dir, opts)|
    requires opts.maxDepth.Some? ==> depth <= opts.maxDepth.value
    decreases dir, 1, k
    ensures Bounded(ChildrenEntries(dir, k, prefix, depth, opts), depth, opts)
  {
    if k > 0 {
      var a := ChildrenEntries(dir, k - 1, prefix, depth, opts);
      var b := ChildEntries(dir, k - 1, prefix, depth, opts);
      assert ChildrenEntries(dir, k, prefix, depth, opts) == a + b;
      ChildrenEntriesBounded(dir, k - 1, prefix, depth, opts);
      ChildEntriesBounded(dir, k - 1, prefix, depth, opts);
      BoundedConcat(a, b, depth, opts);
    }
  }

  lemma {:induction false} ChildEntriesBounded(dir: Node, i: nat, prefix: string, depth: int, opts: Options)
    requires i < |Listed(dir, opts)|
    requires opts.maxDepth.Some? ==> depth <= opts.maxDepth.value
    decreases dir, 0
    ensures Bounded(ChildEntries(dir, i, prefix, depth, opts), depth, opts)
  {
    var child := Listed(dir, opts)[i];
    var isLast := i == |Listed(dir, opts)| - 1;
    ListedChild(dir, i, opts);
    var r := ChildEntries(dir, i, prefix, depth, opts);
    if Expands(child, depth, opts) {
      WalkEntriesBounded(child, prefix + Ext(isLast), depth + 1, opts);
      BoundedBelow(r[0], r[1..], depth, opts);
      assert r == [r[0]] + r[1..];
    }
  }

  // ---- prefixes ----

  /** Every entry of `r` extends `prefix` by four characters per level below `depth`. */
  predicate Indented(r: seq<Entry>, prefix: string, depth: int) {
    forall j :: 0 <= j < |r| ==> IndentedBy(r[j], prefix, depth)
  }

  predicate IndentedBy(e: Entry, prefix: string, depth: int) {
    prefix <= e.prefix && |e.prefix| == |prefix| + 4 * (e.depth - depth)
  }

  lemma IndentedConcat(a: seq<Entry>, b: seq<Entry>, prefix: string, depth: int)
    requires Indented(a, prefix, depth) && Indented(b, prefix, depth)
    ensures Indented(a + b, prefix, depth)
  {
    forall j | 0 <= j < |a + b| ensures (a + b)[j] == (if j < |a| then a[j] else b[j - |a|]) { }
  }

  lemma IndentedBelow(e: Entry, below: seq<Entry>, prefix: string, ext: string, depth: int)
    requires |ext| == 4 && e.prefix == prefix && e.depth == depth
    requires Indented(below, prefix + ext, depth + 1)
    ensures Indented([e] + below, prefix, depth)
  {
    var r := [e] + below;
    forall j | 1 <= j < |r| ensures IndentedBy(r[j], prefix, depth) {
      assert r[j] == below[j - 1] && IndentedBy(below[j - 1], prefix + ext, depth + 1);
      assert r[j].prefix[..|prefix|] == (prefix + ext)[..|prefix|] == prefix;
    }
  }

  /** Each entry of walk(dir, prefix, depth) starts with `prefix`, indented four
      characters per level. */
  lemma {:induction false} WalkEntriesIndented(dir: Node, prefix: string, depth: int, opts: Options)
    decreases dir, 2
    ensures Indented(WalkEntries(dir, prefix, depth, opts), prefix, depth)
  {
    if !(opts.maxDepth.Some? && depth > opts.maxDepth.value) {
      ChildrenEntriesIndented(dir, |Listed(dir, opts)|, prefix, depth, opts);
    }
  }

  lemma {:induction false} ChildrenEntriesIndented(dir: Node, k: nat, prefix: string, depth: int, opts: Options)
    requires k <= |Listed(dir, opts)|
    decreases dir, 1, k
    ensures Indented(ChildrenEntries(dir, k, prefix, depth, opts), prefix, depth)
  {
    if k > 0 {
      var a := ChildrenEntries(dir, k - 1, prefix, depth, opts);
      var b := ChildEntries(dir, k - 1, prefix, depth, opts);
      assert ChildrenEntries(dir, k, prefix, depth, opts) == a + b;
      assert Indented(a, prefix, depth) by {
        ChildrenEntriesIndented(dir, k - 1, prefix, depth, opts);
      }
      assert Indented(b, prefix, depth) by {
        ChildEntriesIndented(dir, k - 1, prefix, depth, opts);
      }
      IndentedConcat(a, b, prefix, depth);
    }
  }

  /** The entries below child i carry the child's prefix extended by four spaces
      when the child is the last one, by a vertical bar and three spaces otherwise. */
  lemma {:induction false} ChildEntriesIndented(dir: Node, i: nat, prefix: string, depth: int, opts: Options)
    requires i < |Listed(dir, opts)|
    decreases dir, 0
    ensures var r := ChildEntries(dir, i, prefix, depth, opts);
            && Indented(r, prefix, depth)
            && Indented(r[1..], prefix + Ext(i == |Listed(dir, opts)| - 1), depth + 1)
  {
    var child := Listed(dir, opts)[i];
    var isLast := i == |Listed(dir, opts)| - 1;
    ListedChild(dir, i, opts);
    var r := ChildEntries(dir, i, prefix, depth, opts);
    if Expands(child, depth, opts) {
      var below := WalkEntries(child, prefix + Ext(isLast), depth + 1, opts);
      assert r == [r[0]] + below && r[1..] == below;
      WalkEntriesIndented(child, prefix + Ext(isLast), depth + 1, opts);
      IndentedBelow(r[0], below, prefix, Ext(isLast), depth);
    } else {
      assert r == [r[0]] && r[1..] == [];
      assert IndentedBy(r[0], prefix, depth);
    }
  }

  /** The printed form of a list of entries. */
  function Lines(es: seq<Entry>): (r: seq<string>)
    ensures |r| == |es|
  {
    if es == [] then [] else [es[0].Line()] + Lines(es[1..])
  }

  lemma {:induction false} LinesAt(es: seq<Entry>, j: nat)
    requires j < |es|
    ensures Lines(es)[j] == es[j].Line()
  {
    if j > 0 { LinesAt(es[1..], j - 1); }
  }

  lemma {:induction false} LinesConcat(a: seq<Entry>, b: seq<Entry>)
    ensures Lines(a + b) == Lines(a) + Lines(b)
  {
    if a != [] {
      calc {
        Lines(a + b);
        [(a + b)[0].Line()] + Lines((a + b)[1..]);
        { assert (a + b)[0] == a[0] && (a + b)[1..] == a[1..] + b; }
        [a[0].Line()] + Lines(a[1..] + b);
        { LinesConcat(a[1..], b); }
        [a[0].Line()] + (Lines(a[1..]) + Lines(b));
        ([a[0].Line()] + Lines(a[1..])) + Lines(b);
        Lines(a) + Lines(b);
      }
    } else {
      assert a + b == b;
    }
  }

  /** render_tree as a function: the root's name, then the root's entries. */
  function TreeLines(root: Node, opts: Options): seq<string> {
    [root.name] + (if root.isDir then Lines(WalkEntries(root, "", 1, opts)) else [])
  }

  /** The lines of round i of walk's loop for a child that is not expanded: its own line. */
  lemma LeafLines(dir: Node, i: nat, prefix: string, depth: int, opts: Options)
    requires i < |Listed(dir, opts)| && !Expands(Listed(dir, opts)[i], depth, opts)
    ensures var cs := Listed(dir, opts);
            Lines(ChildEntries(dir, i, prefix, depth, opts)) == [prefix + Branch(i == |cs| - 1) + cs[i].name]
  {
  }

  /** The lines of round i of walk's loop for an expanded directory: its own
      line, then the lines of the walk below it. */
  lemma ExpandedLines(dir: Node, i: nat, prefix: string, depth: int, opts: Options)
    requires i < |Listed(dir, opts)| && Expands(Listed(dir, opts)[i], depth, opts)
    ensures var cs := Listed(dir, opts);
            && cs[i] in dir.children
            && Lines(ChildEntries(dir, i, prefix, depth, opts))
               == [prefix + Branch(i == |cs| - 1) + cs[i].name]
                  + Lines(WalkEntries(cs[i], prefix + Ext(i == |cs| - 1), depth + 1, opts))
  {
    var cs := Listed(dir, opts);
    assert cs[i] in cs;
    var round := ChildEntries(dir, i, prefix, depth, opts);
    var rest := WalkEntries(cs[i], prefix + Ext(i == |cs| - 1), depth + 1, opts);
    assert round == [round[0]] + rest;
    LinesConcat([round[0]], rest);
    assert Lines([round[0]]) == [round[0].Line()];
  }

  /** Appending to the list walk accumulates into is associative; stated
      once so that the loops below need not prove it in their larger contexts. */
  lemma AppendAssoc(a: seq<string>, b: seq<string>, c: seq<string>)
    ensures (a + b) + c == a + (b + c)
  {
  }

  /** walk: appends to `lines` the lines of every entry below `dir`. */
  method Walk(dir: Node, prefix: string, depth: int, opts: Options, lines: seq<string>) returns (out: seq<string>)
    decreases dir, 1
    ensures out == lines + Lines(WalkEntries(dir, prefix, depth, opts))
  {
    out := lines;
    if opts.maxDepth.Some? && depth > opts.maxDepth.value {
      return;
    }
    var children := Visible(IterChildren(dir), opts.dirsOnly);
    assert children == Listed(dir, opts);
    for i := 0 to |children|
      invariant out == lines + Lines(ChildrenEntries(dir, i, prefix, depth, opts))
    {
      ghost var done := ChildrenEntries(dir, i, prefix, depth, opts);
      ghost var round := ChildEntries(dir, i, prefix, depth, opts);
      assert ChildrenEntries(dir, i + 1, prefix, depth, opts) == done + round;
      out := WalkChild(dir, i, prefix, depth, opts, out);
      LinesConcat(done, round);
      AppendAssoc(lines, Lines(done), Lines(round));
    }
  }

  /** One round of walk's loop: list child i of `dir`, and expand it when it is
      a directory that is neither pruned nor at the depth limit. */
  method WalkChild(dir: Node, i: nat, prefix: string, depth: int, opts: Options, lines: seq<string>) returns (out: seq<string>)
    requires i < |Listed(dir, opts)|
    decreases dir, 0
    ensures out == lines + Lines(ChildEntries(dir, i, prefix, depth, opts))
  {
    var children := Listed(dir, opts);
    var child := children[i];
    var isLast := i == |children| - 1;
    var line := prefix + Branch(isLast) + child.name;
    if child.isDir && child.name in opts.prune {
      // a pruned directory is listed but not expanded
      LeafLines(dir, i, prefix, depth, opts);
      out := lines + [line];
    } else if child.isDir && (opts.maxDepth.None? || depth < opts.maxDepth.value) {
      ExpandedLines(dir, i, prefix, depth, opts);
      out := Walk(child, prefix + Ext(isLast), depth + 1, opts, lines + [line]);
      AppendAssoc(lines, [line], Lines(WalkEntries(child, prefix + Ext(isLast), depth + 1, opts)));
    } else {
      LeafLines(dir, i, prefix, depth, opts);
      out := lines + [line];
    }
  }

  /** render_tree: the root's name, then (for a directory) walk from depth 1. */
  method RenderTree(root: Node, opts: Options) returns (lines: seq<string>)
    ensures lines == TreeLines(root, opts)
    ensures |lines| >= 1 && lines[0] == root.name
    ensures !root.isDir ==> lines == [root.name]
    ensures opts.maxDepth.Some? && opts.maxDepth.value <= 0 ==> lines == [root.name]
    ensures root.isDir ==>
              var es := WalkEntries(root, "", 1, opts);
              |lines| == |es| + 1 && forall j :: 0 <= j < |es| ==> lines[j + 1] == es[j].Line()
  {
    lines := [root.name];
    if root.isDir {
      lines := Walk(root, "", 1, opts, lines);
      var es := WalkEntries(root, "", 1, opts);
      forall j | 0 <= j < |es| ensures lines[j + 1] == es[j].Line() {
        LinesAt(es, j);
      }
    }
  }
}
