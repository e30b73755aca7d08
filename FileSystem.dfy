/**
 * The filesystem the tool reads, as a tree, and the pre-order walk that
 * `WalkDir::new(root).max_depth(m)` performs over it. Child order is the
 * enumeration order the platform reports; the walk keeps it.
 */
module FileSystem {
  import opened Wrappers
  import opened Paths

  /** What reading a regular file to a `String` gives: its text, or one of the two ways it fails. */
  datatype ReadResult = Contents(text: string) | OpenFails | NotUtf8

  datatype Node =
    | File(name: Name, read: ReadResult)
    | Dir(name: Name, children: seq<Node>)
    /** Anything that is neither a regular file nor a directory (a symbolic link, a socket, a device). */
    | Other(name: Name)
    /** An entry whose metadata cannot be read: the walk yields an error for it. */
    | Broken(name: Name)

  /** The first child called `name`. */
  function FindChild(children: seq<Node>, name: Name): (r: Option<Node>)
    ensures r.Some? ==> r.value in children && r.value.name == name
    ensures r.None? ==> forall i :: 0 <= i < |children| ==> children[i].name != name
  {
    if children == [] then None
    else if children[0].name == name then Some(children[0])
    else FindChild(children[1..], name)
  }

  /** The node reached from `node` by following the components of `rel`. */
  function Resolve(node: Node, rel: Path): Option<Node>
    decreases rel
  {
    if rel == [] then Some(node)
    else match node
      case Dir(_, children) =>
        (match FindChild(children, rel[0])
         case Some(child) => Resolve(child, rel[1..])
         case None => None)
      case _ => None
  }

  /** The node at path `p` under the filesystem root `root`; the empty path names nothing. */
  function Lookup(root: Node, p: Path): Option<Node>
  {
    if p == [] then None else Resolve(root, p)
  }

  /** `Path::exists`: something is there and its metadata can be read. */
  predicate Exists(root: Node, p: Path)
  {
    Lookup(root, p).Some? && !Lookup(root, p).value.Broken?
  }

  /** One item the walk yields: an entry with its path and depth, or an error at some depth. */
  datatype WalkItem =
    | Entry(path: Path, depth: nat, node: Node)
    | WalkError(path: Path, depth: nat)

  /**
   * The items `WalkDir` yields for `node` found at `path` and `depth`, going
   * no deeper than `maxDepth`: the entry itself, then (for a directory) the
   * walks of its children in order, one level deeper. A directory at the
   * depth bound is yielded but not read.
   */
  function Walk(node: Node, path: Path, depth: nat, maxDepth: nat): seq<WalkItem>
    decreases node, 1
  {
    if depth > maxDepth then []
    else match node
      case Broken(_) => [WalkError(path, depth)]
      case Dir(_, children) => [Entry(path, depth, node)] + WalkChildren(children, path, depth + 1, maxDepth)
      case _ => [Entry(path, depth, node)]
  }

  function WalkChildren(children: seq<Node>, parent: Path, depth: nat, maxDepth: nat): seq<WalkItem>
    decreases children, 0
  {
    if children == [] then []
    else Walk(children[0], parent + [children[0].name], depth, maxDepth)
         + WalkChildren(children[1..], parent, depth, maxDepth)
  }

  /** Reference enumeration: every item of the tree in pre-order, with no depth bound. */
  function FullWalk(node: Node, path: Path, depth: nat): seq<WalkItem>
    decreases node, 1
  {
    match node
    case Broken(_) => [WalkError(path, depth)]
    case Dir(_, children) => [Entry(path, depth, node)] + FullWalkChildren(children, path, depth + 1)
    case _ => [Entry(path, depth, node)]
  }

  function FullWalkChildren(children: seq<Node>, parent: Path, depth: nat): seq<WalkItem>
    decreases children, 0
  {
    if children == [] then []
    else FullWalk(children[0], parent + [children[0].name], depth)
         + FullWalkChildren(children[1..], parent, depth)
  }

  /** The items of `items` no deeper than `maxDepth`, in their order. */
  function AtMost(items: seq<WalkItem>, maxDepth: nat): (r: seq<WalkItem>)
    ensures forall x :: x in r <==> x in items && x.depth <= maxDepth
  {
    if items == [] then []
    else (if items[0].depth <= maxDepth then [items[0]] else []) + AtMost(items[1..], maxDepth)
  }

  lemma {:induction false} AtMostAppend(a: seq<WalkItem>, b: seq<WalkItem>, maxDepth: nat)
    ensures AtMost(a + b, maxDepth) == AtMost(a, maxDepth) + AtMost(b, maxDepth)
  {
    if a == [] {
      assert a + b == b;
    } else {
      assert (a + b)[1..] == a[1..] + b;
      AtMostAppend(a[1..], b, maxDepth);
    }
  }

  lemma AtMostNone(items: seq<WalkItem>, maxDepth: nat)
    requires forall x :: x in items ==> x.depth > maxDepth
    ensures AtMost(items, maxDepth) == []
  {
  }

  /** No item of the full walk lies above the depth it started at, and every path extends the start path by as many components as the item is deeper. */
  lemma {:induction false} FullWalkShape(node: Node, path: Path, depth: nat)
    ensures forall x :: x in FullWalk(node, path, depth) ==>
      x.depth >= depth && path <= x.path && |x.path| == |path| + x.depth - depth
    decreases node, 1
  {
    if node.Dir? {
      FullWalkChildrenShape(node.children, path, depth + 1);
    }
  }

  lemma {:induction false} FullWalkChildrenShape(children: seq<Node>, parent: Path, depth: nat)
    ensures forall x :: x in FullWalkChildren(children, parent, depth) ==>
      x.depth >= depth && parent <= x.path && |x.path| == |parent| + 1 + x.depth - depth
    decreases children, 0
  {
    if children != [] {
      var p := parent + [children[0].name];
      FullWalkShape(children[0], p, depth);
      FullWalkChildrenShape(children[1..], parent, depth);
      forall x | x in FullWalk(children[0], p, depth) ensures parent <= x.path {
        assert parent <= p;
      }
    }
  }

  /**
   * Depth bound: the bounded walk is exactly the full pre-order walk with
   * every item deeper than `maxDepth` removed.
   */
  lemma {:induction false} WalkIsBoundedFullWalk(node: Node, path: Path, depth: nat, maxDepth: nat)
    ensures Walk(node, path, depth, maxDepth) == AtMost(FullWalk(node, path, depth), maxDepth)
    decreases node, 1
  {
    if depth > maxDepth {
      FullWalkShape(node, path, depth);
      AtMostNone(FullWalk(node, path, depth), maxDepth);
    } else if node.Dir? {
      var head := [Entry(path, depth, node)];
      var rest := FullWalkChildren(node.children, path, depth + 1);
      AtMostAppend(head, rest, maxDepth);
      WalkChildrenIsBounded(node.children, path, depth + 1, maxDepth);
    }
  }

  lemma {:induction false} WalkChildrenIsBounded(children: seq<Node>, parent: Path, depth: nat, maxDepth: nat)
    ensures WalkChildren(children, parent, depth, maxDepth) == AtMost(FullWalkChildren(children, parent, depth), maxDepth)
    decreases children, 0
  {
    if children != [] {
      var p := parent + [children[0].name];
      WalkIsBoundedFullWalk(children[0], p, depth, maxDepth);
      WalkChildrenIsBounded(children[1..], parent, depth, maxDepth);
      AtMostAppend(FullWalk(children[0], p, depth), FullWalkChildren(children[1..], parent, depth), maxDepth);
    }
  }

  /** An item is walked exactly when it is in the tree and no deeper than the bound. */
  lemma WalkMembership(node: Node, path: Path, maxDepth: nat, x: WalkItem)
    ensures x in Walk(node, path, 0, maxDepth) <==> x in FullWalk(node, path, 0) && x.depth <= maxDepth
  {
    WalkIsBoundedFullWalk(node, path, 0, maxDepth);
  }

  /** Depth monotonicity: raising the bound by one keeps every item and adds only items at the new depth. */
  lemma WalkMonotone(node: Node, path: Path, k: nat)
    ensures Walk(node, path, 0, k) == AtMost(Walk(node, path, 0, k + 1), k)
    ensures forall x :: x in Walk(node, path, 0, k) ==> x in Walk(node, path, 0, k + 1)
  {
    WalkIsBoundedFullWalk(node, path, 0, k);
    WalkIsBoundedFullWalk(node, path, 0, k + 1);
    AtMostTwice(FullWalk(node, path, 0), k, k + 1);
  }

  lemma {:induction false} AtMostTwice(items: seq<WalkItem>, k: nat, m: nat)
    requires k <= m
    ensures AtMost(AtMost(items, m), k) == AtMost(items, k)
  {
    if items != [] {
      var head := if items[0].depth <= m then [items[0]] else [];
      AtMostTwice(items[1..], k, m);
      AtMostAppend(head, AtMost(items[1..], m), k);
    }
  }

  /** Every walked item sits below the start path, one component per level, and within the bound. */
  lemma WalkShape(node: Node, path: Path, maxDepth: nat)
    ensures forall x :: x in Walk(node, path, 0, maxDepth) ==>
      x.depth <= maxDepth && path <= x.path && |x.path| == |path| + x.depth
  {
    WalkIsBoundedFullWalk(node, path, 0, maxDepth);
    FullWalkShape(node, path, 0);
  }

  /** With bound 0 the walk yields the start directory and nothing inside it. */
  lemma WalkDepthZero(root: Node, path: Path)
    requires root.Dir?
    ensures Walk(root, path, 0, 0) == [Entry(path, 0, root)]
  {
    WalkChildrenBeyond(root.children, path, 1, 0);
  }

  lemma {:induction false} WalkChildrenBeyond(children: seq<Node>, parent: Path, depth: nat, maxDepth: nat)
    requires depth > maxDepth
    ensures WalkChildren(children, parent, depth, maxDepth) == []
    decreases children
  {
    if children != [] {
      WalkChildrenBeyond(children[1..], parent, depth, maxDepth);
    }
  }
}
