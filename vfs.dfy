/**
 * The primitives of the virtual filesystem (components/ContainerCard.tsx,
 * lines 6-48): own-property access on a directory's `children` object,
 * lexical path resolution, lookup by path and the copy-on-write update of
 * one directory's children, with the tree invariant they keep.
 */
module Vfs {
  import opened Text
  import opened Types

  // ---------------------------------------------------------------------------
  // A directory's `children` object

  /** The keys of a `children` object, in insertion order. */
  function Keys(children: seq<Entry>): (r: seq<string>)
    ensures |r| == |children|
    ensures forall i :: 0 <= i < |r| ==> r[i] == children[i].key
    decreases |children|
  {
    if |children| == 0 then [] else [children[0].key] + Keys(children[1..])
  }

  /** A non-empty sequence of children is its head in front of its tail. */
  lemma ConsTail(children: seq<Entry>)
    requires |children| > 0
    ensures [children[0]] + children[1..] == children
  {
  }

  /** The own property `children[key]`, if there is one. */
  function Find(children: seq<Entry>, key: string): (r: Option<FsNode>)
    ensures r.Some? <==> key in Keys(children)
    decreases |children|
  {
    if |children| == 0 then None
    else if children[0].key == key then Some(children[0].node)
    else Find(children[1..], key)
  }

  /** The keys of two runs of children side by side. */
  lemma KeysAppend(a: seq<Entry>, b: seq<Entry>)
    ensures Keys(a + b) == Keys(a) + Keys(b)
  {
    assert forall i | 0 <= i < |a + b| :: Keys(a + b)[i] == (Keys(a) + Keys(b))[i];
  }

  /** A key is looked up in the first run of children and, when it is not there, in the second. */
  lemma {:induction false} FindAppend(a: seq<Entry>, b: seq<Entry>, key: string)
    ensures Find(a + b, key) == if key in Keys(a) then Find(a, key) else Find(b, key)
    decreases |a|
  {
    if |a| == 0 {
      assert a + b == b;
    } else {
      assert (a + b)[1..] == a[1..] + b;
      assert Keys(a) == [a[0].key] + Keys(a[1..]);
      FindAppend(a[1..], b, key);
    }
  }

  /** In children with distinct keys, the key at position `i` finds the node at position `i`. */
  lemma {:induction false} FindAt(children: seq<Entry>, i: nat)
    requires DistinctKeys(children) && i < |children|
    ensures Find(children, children[i].key) == Some(children[i].node)
    decreases i
  {
    if i > 0 {
      assert children[0].key != children[i].key;
      var rest := children[1..];
      assert rest[i - 1] == children[i];
      assert DistinctKeys(rest) by {
        forall a, b | 0 <= a < b < |rest| ensures rest[a].key != rest[b].key {
          assert rest[a] == children[a + 1] && rest[b] == children[b + 1];
        }
      }
      FindAt(rest, i - 1);
    }
  }

  /**
   * A copy of the children object with one property set: an existing key
   * keeps its place and gets the new value, a new key is appended.
   */
  function Put(children: seq<Entry>, key: string, node: FsNode): (r: seq<Entry>)
    ensures Keys(r) == if key in Keys(children) then Keys(children) else Keys(children) + [key]
    ensures key !in Keys(children) ==> r == children + [Entry(key, node)]
    decreases |children|
  {
    if |children| == 0 then [Entry(key, node)]
    else if children[0].key == key then [Entry(key, node)] + children[1..]
    else
      var rest := Put(children[1..], key, node);
      assert Keys([children[0]] + rest) == [children[0].key] + Keys(rest);
      [children[0]] + rest
  }

  /** After a put, the key holds the new node and every other key what it held before. */
  lemma {:induction false} FindPut(children: seq<Entry>, key: string, node: FsNode, k: string)
    ensures Find(Put(children, key, node), k) == if k == key then Some(node) else Find(children, k)
    decreases |children|
  {
    if |children| > 0 && children[0].key != key {
      FindPut(children[1..], key, node, k);
      assert Put(children, key, node)[1..] == Put(children[1..], key, node);
    }
  }

  // ---------------------------------------------------------------------------
  // The tree invariant

  /** A name a node may have below the root: non-empty, without the separator. */
  predicate ValidName(name: string) {
    name != "" && '/' !in name
  }

  predicate DistinctKeys(children: seq<Entry>) {
    forall i, j :: 0 <= i < j < |children| ==> children[i].key != children[j].key
  }

  /**
   * Every key of every directory equals the name of the child it holds, is a
   * valid name and occurs once.
   */
  predicate WellFormed(node: FsNode)
    decreases node, 1
  {
    match node
    case File(_, _) => true
    case Directory(_, children) => ChildrenWellFormed(children)
  }

  predicate ChildrenWellFormed(children: seq<Entry>)
    decreases children, 0
  {
    DistinctKeys(children) && forall i | 0 <= i < |children| :: EntryWellFormed(children[i])
  }

  /** One child: its key is its own valid name, and it is well formed itself. */
  predicate EntryWellFormed(e: Entry)
    decreases e, 2
  {
    e.key == e.node.name && ValidName(e.key) && WellFormed(e.node)
  }

  /** A container's root: a well-formed directory named `/`. */
  predicate ValidRoot(root: FsNode) {
    root.Directory? && root.name == "/" && WellFormed(root)
  }

  /** A well-formed entry in front of well-formed children with other keys. */
  lemma ConsWellFormed(e: Entry, rest: seq<Entry>)
    requires EntryWellFormed(e) && ChildrenWellFormed(rest) && e.key !in Keys(rest)
    ensures ChildrenWellFormed([e] + rest)
  {
    var r := [e] + rest;
    forall i, j | 0 <= i < j < |r| ensures r[i].key != r[j].key {
      assert r[j] == rest[j - 1];
      if i == 0 {
        assert r[j].key == Keys(rest)[j - 1];
      } else {
        assert r[i] == rest[i - 1];
      }
    }
    forall i | 0 <= i < |r| ensures EntryWellFormed(r[i]) {
      if i > 0 {
        assert r[i] == rest[i - 1];
      }
    }
  }

  /** The tail of well-formed children is well formed and does not repeat the first key. */
  lemma TailWellFormed(children: seq<Entry>)
    requires ChildrenWellFormed(children) && |children| > 0
    ensures EntryWellFormed(children[0])
    ensures ChildrenWellFormed(children[1..]) && children[0].key !in Keys(children[1..])
  {
    var rest := children[1..];
    forall i, j | 0 <= i < j < |rest| ensures rest[i].key != rest[j].key {
      assert rest[i] == children[i + 1] && rest[j] == children[j + 1];
    }
    forall i | 0 <= i < |rest| ensures EntryWellFormed(rest[i]) {
      assert rest[i] == children[i + 1];
    }
  }

  /** Putting a well-formed node under its own valid name keeps the children well formed. */
  lemma {:induction false} PutWellFormed(children: seq<Entry>, key: string, node: FsNode)
    requires ChildrenWellFormed(children) && EntryWellFormed(Entry(key, node))
    ensures ChildrenWellFormed(Put(children, key, node))
    decreases |children|
  {
    if |children| == 0 {
      assert Put(children, key, node) == [Entry(key, node)] + [];
      ConsWellFormed(Entry(key, node), []);
    } else {
      TailWellFormed(children);
      var rest := children[1..];
      if children[0].key == key {
        ConsWellFormed(Entry(key, node), rest);
      } else {
        PutWellFormed(rest, key, node);
        ConsWellFormed(children[0], Put(rest, key, node));
      }
    }
  }

  // ---------------------------------------------------------------------------
  // Paths

  /** The non-empty pieces of a path split at `/`. */
  function Segments(path: string): (r: seq<string>)
    ensures forall i :: 0 <= i < |r| ==> ValidName(r[i])
  {
    var parts := Split(path, '/');
    var r := NonEmpty(parts);
    assert forall i :: 0 <= i < |r| ==> r[i] in parts;
    r
  }

  /** The absolute path of a segment sequence: `/` and the segments joined by `/`. */
  function PathOf(parts: seq<string>): string {
    "/" + Join(parts, "/")
  }

  /** A segment resolution neither skips nor pops. */
  predicate Plain(segment: string) {
    ValidName(segment) && segment != "." && segment != ".."
  }

  predicate AllPlain(parts: seq<string>) {
    forall i :: 0 <= i < |parts| ==> Plain(parts[i])
  }

  /** An absolute path in normal form, as `resolvePath` produces: `/` and plain segments. */
  predicate Normalized(path: string) {
    path == PathOf(Segments(path)) && AllPlain(Segments(path))
  }

  /** One step of `resolvePath`'s loop: `..` pops (nothing on an empty stack), `.` is skipped, the rest is pushed. */
  function Push(stack: seq<string>, part: string): seq<string> {
    if part == ".." then (if |stack| == 0 then stack else stack[..|stack| - 1])
    else if part != "." then stack + [part]
    else stack
  }

  /** The segment stack after the loop of `resolvePath` has consumed `parts`, starting from `base`. */
  function Walk(base: seq<string>, parts: seq<string>): seq<string>
    decreases |parts|
  {
    if |parts| == 0 then base else Push(Walk(base, parts[..|parts| - 1]), parts[|parts| - 1])
  }

  /**
   * `resolvePath(currentPath, targetPath)`: an empty target leaves the current
   * path; an absolute target starts from the root, a relative one from the
   * current path's segments.
   */
  function Resolve(currentPath: string, targetPath: string): string {
    if targetPath == "" then currentPath
    else
      var base := if StartsWith(targetPath, "/") then [] else Segments(currentPath);
      PathOf(Walk(base, Segments(targetPath)))
  }

  /** The walk over one more part is one more push. */
  lemma WalkStep(base: seq<string>, parts: seq<string>, i: nat)
    requires i < |parts|
    ensures Walk(base, parts[..i + 1]) == Push(Walk(base, parts[..i]), parts[i])
  {
    assert parts[..i + 1][..i] == parts[..i];
  }

  /** The loop of `resolvePath`, pushing and popping on an array of segments. */
  method ResolvePath(currentPath: string, targetPath: string) returns (newPath: string)
    ensures newPath == Resolve(currentPath, targetPath)
  {
    if targetPath == "" {
      return currentPath;
    }
    var isAbsolute := StartsWith(targetPath, "/");
    var baseParts := if isAbsolute then [] else Segments(currentPath);
    ghost var start := baseParts;
    var targetParts := Segments(targetPath);
    for i := 0 to |targetParts|
      invariant baseParts == Walk(start, targetParts[..i])
    {
      WalkStep(start, targetParts, i);
      var part := targetParts[i];
      if part == ".." {
        if |baseParts| > 0 {
          baseParts := baseParts[..|baseParts| - 1];
        }
      } else if part != "." {
        baseParts := baseParts + [part];
      }
    }
    assert targetParts[..|targetParts|] == targetParts;
    newPath := "/" + Join(baseParts, "/");
  }

  // ---------------------------------------------------------------------------
  // Lookup

  /** The node reached from `node` by following `segments`, if every step finds a directory child. */
  function NodeAt(node: FsNode, segments: seq<string>): Option<FsNode>
    decreases |segments|
  {
    if |segments| == 0 then Some(node)
    else match node
      case File(_, _) => None
      case Directory(_, children) =>
        match Find(children, segments[0])
        case None => None
        case Some(child) => NodeAt(child, segments[1..])
  }

  /** `getNodeByPath(path, root)`; its shortcut for `/` agrees with the walk. */
  function Lookup(path: string, root: FsNode): (r: Option<FsNode>)
    ensures r == NodeAt(root, Segments(path))
  {
    SegmentsOfPath([]);
    if path == "/" then Some(root) else NodeAt(root, Segments(path))
  }

  predicate IsDirectory(n: Option<FsNode>) {
    n.Some? && n.value.Directory?
  }

  /** The loop of `getNodeByPath`, descending one segment at a time. */
  method GetNodeByPath(path: string, root: FsNode) returns (r: Option<FsNode>)
    ensures r == Lookup(path, root)
  {
    if path == "/" {
      return Some(root);
    }
    var parts := Segments(path);
    var current := root;
    for i := 0 to |parts|
      invariant NodeAt(root, parts) == NodeAt(current, parts[i..])
    {
      assert parts[i..][1..] == parts[i + 1..];
      if current.Directory? && Find(current.children, parts[i]).Some? {
        current := Find(current.children, parts[i]).value;
      } else {
        return None;
      }
    }
    return Some(current);
  }

  // ---------------------------------------------------------------------------
  // Copy-on-write update

  /**
   * The tree with the children `cs` of the directory at `segments` replaced
   * by `f(cs)`; a tree without a directory there comes back as it was.
   */
  function ModifyAt(node: FsNode, segments: seq<string>, f: seq<Entry> -> seq<Entry>): (r: FsNode)
    ensures r.name == node.name && r.Directory? == node.Directory?
    decreases |segments|
  {
    match node
    case File(_, _) => node
    case Directory(name, children) =>
      if |segments| == 0 then Directory(name, f(children))
      else match Find(children, segments[0])
        case None => node
        case Some(child) => Directory(name, Put(children, segments[0], ModifyAt(child, segments[1..], f)))
  }

  /**
   * `modifyNodeChildren(root, path, modifier)`. The deep clone and the in-place
   * assignment on it amount to building the updated tree as a new value; the
   * clone's node is found by the same walk as `Lookup`.
   */
  function ModifyNodeChildren(root: FsNode, path: string, f: seq<Entry> -> seq<Entry>): FsNode {
    ModifyAt(root, Segments(path), f)
  }

  /** The modifier `mkdir`, `touch` and a build pass: the children with `node` put under `name`. */
  function AddEntry(name: string, node: FsNode): seq<Entry> -> seq<Entry> {
    children => Put(children, name, node)
  }

  // ---------------------------------------------------------------------------
  // Lemmas: paths

  /** The path of plain-named segments splits back into those segments. */
  lemma SegmentsOfPath(parts: seq<string>)
    requires forall i :: 0 <= i < |parts| ==> ValidName(parts[i])
    ensures Segments(PathOf(parts)) == parts
  {
    if |parts| == 0 {
      assert Split("/", '/') == ["", ""] by {
        assert "/"[1..] == "";
      }
    } else {
      assert PathOf(parts) == "" + ['/'] + Join(parts, "/");
      SplitConcat("", Join(parts, "/"), '/');
      SplitJoin(parts, '/');
      NonEmptyConcat([""], parts);
      NonEmptyKeeps(parts);
    }
  }

  /** `/` is in normal form, with no segments. */
  lemma RootNormalized()
    ensures Segments("/") == [] && Normalized("/")
  {
    SegmentsOfPath([]);
  }

  /** Plain segments are pushed unchanged. */
  lemma {:induction false} WalkPlain(base: seq<string>, parts: seq<string>)
    requires AllPlain(parts)
    ensures Walk(base, parts) == base + parts
    decreases |parts|
  {
    if |parts| > 0 {
      WalkPlain(base, parts[..|parts| - 1]);
      assert parts[..|parts| - 1] + [parts[|parts| - 1]] == parts;
    }
  }

  /** Pushing and popping valid segments on a plain stack leaves it plain. */
  lemma {:induction false} WalkStaysPlain(base: seq<string>, parts: seq<string>)
    requires AllPlain(base)
    requires forall i :: 0 <= i < |parts| ==> ValidName(parts[i])
    ensures AllPlain(Walk(base, parts))
    decreases |parts|
  {
    if |parts| > 0 {
      WalkStaysPlain(base, parts[..|parts| - 1]);
    }
  }

  /**
   * A non-empty target resolves to an absolute path in normal form, provided
   * it is absolute or the current path's own segments are plain.
   */
  lemma ResolveNormalized(currentPath: string, targetPath: string)
    requires targetPath != ""
    requires StartsWith(targetPath, "/") || AllPlain(Segments(currentPath))
    ensures Normalized(Resolve(currentPath, targetPath))
    ensures StartsWith(Resolve(currentPath, targetPath), "/")
  {
    var base := if StartsWith(targetPath, "/") then [] else Segments(currentPath);
    var stack := Walk(base, Segments(targetPath));
    WalkStaysPlain(base, Segments(targetPath));
    SegmentsOfPath(stack);
  }

  /** An empty target leaves the current path as it is, whatever it is. */
  lemma ResolveEmpty(currentPath: string)
    ensures Resolve(currentPath, "") == currentPath
  {
  }

  /** An absolute target does not depend on the current path. */
  lemma ResolveAbsolute(currentPath: string, otherPath: string, targetPath: string)
    requires StartsWith(targetPath, "/")
    ensures Resolve(currentPath, targetPath) == Resolve(otherPath, targetPath)
  {
  }

  /** `.` resolves to the current path when that is in normal form. */
  lemma ResolveDot(path: string)
    requires Normalized(path)
    ensures Resolve(path, ".") == path
  {
    SplitWithoutSeparator(".", '/');
    assert Segments(".") == ["."];
    assert Walk(Segments(path), ["."]) == Segments(path) by {
      assert ["."][..0] == [];
    }
  }

  /** `..` drops the last segment, and is a no-op at the root. */
  lemma ResolveParent(path: string)
    requires Normalized(path)
    ensures Resolve(path, "..") == PathOf(if Segments(path) == [] then [] else Segments(path)[..|Segments(path)| - 1])
    ensures Resolve("/", "..") == "/"
  {
    SplitWithoutSeparator("..", '/');
    assert Segments("..") == [".."];
    assert [".."][..0] == [];
    RootNormalized();
  }

  /** A resolved path resolves to itself again, from anywhere. */
  lemma ResolveIdempotent(currentPath: string, targetPath: string, otherPath: string)
    requires targetPath != ""
    requires StartsWith(targetPath, "/") || AllPlain(Segments(currentPath))
    ensures Resolve(otherPath, Resolve(currentPath, targetPath)) == Resolve(currentPath, targetPath)
  {
    var r := Resolve(currentPath, targetPath);
    ResolveNormalized(currentPath, targetPath);
    assert r != "" && StartsWith(r, "/");
    WalkPlain([], Segments(r));
    assert [] + Segments(r) == Segments(r);
  }

  /** `currentPath` extended by one child name, as `pwd` shows it after `cd name`. */
  function ChildPath(path: string, name: string): string {
    if path == "/" then "/" + name else path + "/" + name
  }

  /** A valid name is a path of one segment. */
  lemma SegmentsOfName(name: string)
    requires ValidName(name)
    ensures Segments(name) == [name]
  {
    SplitWithoutSeparator(name, '/');
    NonEmptyKeeps([name]);
  }

  /** The path of one more segment is the child path of the shorter one. */
  lemma PathOfSnoc(parts: seq<string>, name: string)
    requires |parts| > 0 ==> parts[0] != ""
    ensures PathOf(parts + [name]) == ChildPath(PathOf(parts), name)
  {
    if parts == [] {
      assert [] + [name] == [name];
    } else {
      JoinSnoc(parts, name, "/");
      assert |Join(parts, "/")| >= |parts[0]| > 0;
    }
  }

  /** A plain name resolves to the child path of a normal-form path. */
  lemma ResolveChild(path: string, name: string)
    requires Normalized(path) && Plain(name)
    ensures Resolve(path, name) == ChildPath(path, name)
    ensures Segments(Resolve(path, name)) == Segments(path) + [name]
  {
    var s := Segments(path);
    SegmentsOfName(name);
    assert !StartsWith(name, "/");
    assert Walk(s, [name]) == s + [name] by {
      assert [name][..0] == [];
    }
    PathOfSnoc(s, name);
    SegmentsOfPath(s + [name]);
  }

  /** Appending `/` and a valid name appends that name to the segments. */
  lemma SegmentsOfChild(path: string, name: string)
    requires ValidName(name)
    ensures Segments(path + "/" + name) == Segments(path) + [name]
  {
    assert path + "/" + name == path + ['/'] + name;
    SplitConcat(path, name, '/');
    SplitWithoutSeparator(name, '/');
    NonEmptyConcat(Split(path, '/'), [name]);
    NonEmptyKeeps([name]);
  }

  // ---------------------------------------------------------------------------
  // Lemmas: lookup

  /**
   * Lookup of a path is lookup of its first part followed by lookup of the
   * rest from there: no partial result survives a failed step.
   */
  lemma {:induction false} NodeAtConcat(node: FsNode, p: seq<string>, q: seq<string>)
    ensures NodeAt(node, p + q) == match NodeAt(node, p) case None => None case Some(m) => NodeAt(m, q)
    decreases |p|
  {
    if |p| > 0 {
      assert (p + q)[0] == p[0] && (p + q)[1..] == p[1..] + q;
      match node
      case File(_, _) =>
      case Directory(_, children) =>
        match Find(children, p[0])
        case None =>
        case Some(child) => NodeAtConcat(child, p[1..], q);
    } else {
      assert p + q == q;
    }
  }

  /** A one-segment lookup is the own property of that name, in a directory. */
  lemma NodeAtChild(node: FsNode, key: string)
    ensures NodeAt(node, [key]) == if node.Directory? then Find(node.children, key) else None
  {
    assert [key][1..] == [];
  }

  /** Lookup stops for good at a missing child or at a file. */
  lemma ShortCircuit(root: FsNode, p: seq<string>, q: seq<string>)
    requires NodeAt(root, p).None? || (NodeAt(root, p).value.File? && |q| > 0)
    ensures NodeAt(root, p + q) == None
  {
    NodeAtConcat(root, p, q);
  }

  /** `getNodeByPath('/', root)` is the root itself. */
  lemma LookupRoot(root: FsNode)
    ensures Lookup("/", root) == Some(root)
  {
  }

  /** A child found in well-formed children is well formed and named by its key. */
  lemma {:induction false} FindWellFormed(children: seq<Entry>, key: string)
    requires ChildrenWellFormed(children) && Find(children, key).Some?
    ensures EntryWellFormed(Entry(key, Find(children, key).value))
    decreases |children|
  {
    TailWellFormed(children);
    if children[0].key != key {
      FindWellFormed(children[1..], key);
    }
  }

  /** Every node reached in a well-formed tree is well formed and carries the last segment as its name. */
  lemma {:induction false} NodeAtWellFormed(node: FsNode, p: seq<string>)
    requires WellFormed(node) && NodeAt(node, p).Some?
    ensures WellFormed(NodeAt(node, p).value)
    ensures |p| > 0 ==> NodeAt(node, p).value.name == p[|p| - 1]
    decreases |p|
  {
    if |p| > 0 {
      var child := Find(node.children, p[0]).value;
      FindWellFormed(node.children, p[0]);
      NodeAtWellFormed(child, p[1..]);
      assert |p| > 1 ==> p[1..][|p[1..]| - 1] == p[|p| - 1];
    }
  }

  // ---------------------------------------------------------------------------
  // Lemmas: copy-on-write update

  predicate IsPrefix(p: seq<string>, q: seq<string>) {
    |p| <= |q| && q[..|p|] == p
  }

  /** Without a directory at `p`, the update returns the tree unchanged. */
  lemma {:induction false} ModifyMissing(root: FsNode, p: seq<string>, f: seq<Entry> -> seq<Entry>)
    requires !IsDirectory(NodeAt(root, p))
    ensures ModifyAt(root, p, f) == root
    decreases |p|
  {
    if |p| > 0 && root.Directory? {
      match Find(root.children, p[0])
      case None =>
      case Some(child) =>
        ModifyMissing(child, p[1..], f);
        PutExisting(root.children, p[0], child);
    }
  }

  /** Putting back the value a key already has changes nothing. */
  lemma {:induction false} PutExisting(children: seq<Entry>, key: string, node: FsNode)
    requires Find(children, key) == Some(node)
    ensures Put(children, key, node) == children
    decreases |children|
  {
    if children[0].key != key {
      PutExisting(children[1..], key, node);
    }
    ConsTail(children);
  }

  /** At `p` the directory keeps its name and its children become `f` of the old ones. */
  lemma {:induction false} ModifyTarget(root: FsNode, p: seq<string>, f: seq<Entry> -> seq<Entry>)
    requires IsDirectory(NodeAt(root, p))
    ensures NodeAt(ModifyAt(root, p, f), p)
         == Some(Directory(NodeAt(root, p).value.name, f(NodeAt(root, p).value.children)))
    decreases |p|
  {
    if |p| > 0 {
      var child := Find(root.children, p[0]).value;
      ModifyTarget(child, p[1..], f);
      var m := ModifyAt(child, p[1..], f);
      FindPut(root.children, p[0], m, p[0]);
      assert ModifyAt(root, p, f) == Directory(root.name, Put(root.children, p[0], m));
    }
  }

  /** Below `p`, the updated tree holds what the new children hold. */
  lemma ModifyBelow(root: FsNode, p: seq<string>, q: seq<string>, f: seq<Entry> -> seq<Entry>)
    requires IsDirectory(NodeAt(root, p))
    ensures NodeAt(ModifyAt(root, p, f), p + q)
         == NodeAt(Directory(NodeAt(root, p).value.name, f(NodeAt(root, p).value.children)), q)
  {
    ModifyTarget(root, p, f);
    NodeAtConcat(ModifyAt(root, p, f), p, q);
  }

  /** Every path that neither leads to `p` nor passes through it sees the same node as before. */
  lemma {:induction false} ModifyElsewhere(root: FsNode, p: seq<string>, q: seq<string>, f: seq<Entry> -> seq<Entry>)
    requires !IsPrefix(p, q) && !IsPrefix(q, p)
    ensures NodeAt(ModifyAt(root, p, f), q) == NodeAt(root, q)
    decreases |p|
  {
    assert |p| > 0 && |q| > 0 by {
      assert p[..0] == [] && q[..0] == [];
    }
    match root
    case File(_, _) =>
    case Directory(name, children) =>
      match Find(children, p[0])
      case None =>
      case Some(child) =>
        var m := ModifyAt(child, p[1..], f);
        assert ModifyAt(root, p, f) == Directory(name, Put(children, p[0], m));
        FindPut(children, p[0], m, q[0]);
        if p[0] == q[0] {
          assert !IsPrefix(p[1..], q[1..]);
          assert !IsPrefix(q[1..], p[1..]);
          ModifyElsewhere(child, p[1..], q[1..], f);
        }
  }

  /**
   * The directories on the way to `p` keep their names and their keys: the
   * update replaces one child per level and adds or removes none.
   */
  lemma {:induction false} ModifyAncestors(root: FsNode, p: seq<string>, q: seq<string>, f: seq<Entry> -> seq<Entry>)
    requires IsPrefix(q, p) && |q| < |p| && IsDirectory(NodeAt(root, q))
    ensures IsDirectory(NodeAt(ModifyAt(root, p, f), q))
    ensures NodeAt(ModifyAt(root, p, f), q).value.name == NodeAt(root, q).value.name
    ensures Keys(NodeAt(ModifyAt(root, p, f), q).value.children) == Keys(NodeAt(root, q).value.children)
    decreases |q|
  {
    match Find(root.children, p[0])
    case None =>
      ModifyMissing(root, p, f);
    case Some(child) =>
      var m := ModifyAt(child, p[1..], f);
      assert ModifyAt(root, p, f) == Directory(root.name, Put(root.children, p[0], m));
      if |q| > 0 {
        assert q[0] == p[0];
        assert IsPrefix(q[1..], p[1..]);
        FindPut(root.children, p[0], m, p[0]);
        ModifyAncestors(child, p[1..], q[1..], f);
      }
  }

  /** `f` turns the children of the directory at `p`, if there is one, into well-formed children. */
  predicate TargetWellFormed(root: FsNode, p: seq<string>, f: seq<Entry> -> seq<Entry>) {
    IsDirectory(NodeAt(root, p)) ==> ChildrenWellFormed(f(NodeAt(root, p).value.children))
  }

  /** The update keeps the tree well formed when the new children are. */
  lemma {:induction false} ModifyWellFormed(root: FsNode, p: seq<string>, f: seq<Entry> -> seq<Entry>)
    requires WellFormed(root) && TargetWellFormed(root, p, f)
    ensures WellFormed(ModifyAt(root, p, f))
    decreases |p|
  {
    match root
    case File(_, _) =>
    case Directory(name, children) =>
      if |p| > 0 {
        match Find(children, p[0])
        case None =>
        case Some(child) =>
          FindWellFormed(children, p[0]);
          ModifyWellFormed(child, p[1..], f);
          PutWellFormed(children, p[0], ModifyAt(child, p[1..], f));
      }
  }

  /** Adding a child `node` under its own valid name keeps a tree well formed and a root valid. */
  lemma AddChildValid(root: FsNode, p: seq<string>, node: FsNode)
    requires ValidRoot(root) && WellFormed(node) && ValidName(node.name)
    ensures ValidRoot(ModifyAt(root, p, AddEntry(node.name, node)))
  {
    var f := AddEntry(node.name, node);
    if IsDirectory(NodeAt(root, p)) {
      NodeAtWellFormed(root, p);
      PutWellFormed(NodeAt(root, p).value.children, node.name, node);
    }
    ModifyWellFormed(root, p, f);
  }
}
