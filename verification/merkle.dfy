/**
 Merkle path verification (lib/merkle/client.go) at the level of key bits. Node
 hashes are symbolic and injective, and no node hashes to the all-zero hash.
 */
module Merkle {
  import opened Common

  type Bits = seq<bool>

  datatype Hash<V> = Zero | HashOf(node: Node<V>)
  datatype Node<V> = Inner(i: Interior<V>) | Leaf(key: Bits, value: V)
  datatype Interior<V> = Interior(start: nat, count: nat, prefix: Bits, left: Hash<V>, right: Hash<V>)

  /** One step of a compressed path: how many key bits the node spans, and the child not taken. */
  datatype Edge<V> = Edge(prefixLen: nat, sibling: Hash<V>)

  /** A path ends in a leaf, ours or another key's, or in a node whose prefix our key leaves. */
  datatype Terminal<V> = AtLeaf(value: V, foundKey: Option<Bits>) | PrefixMiss(at: Interior<V>) {
    predicate KeyWasFound() { AtLeaf? && foundKey.None? }
  }

  datatype Path<V> = Path(edges: seq<Edge<V>>, terminal: Terminal<V>)

  // ---------------------------------------------------------------- bit helpers

  /** `AssertKeyMatch` finds a differing bit; it compares no further than either string goes. */
  predicate Mismatch(key: Bits, sub: Bits, start: nat, count: nat) {
    exists i :: 0 <= i < count && i < |sub| && start + i < |key| && key[start + i] != sub[i]
  }

  /** Where the cursor stands after following the edges. */
  function EndCursor<V>(edges: seq<Edge<V>>, cursor: nat): (c: nat)
    ensures c >= cursor
  {
    if edges == [] then cursor else EndCursor(edges[1..], cursor + edges[0].prefixLen + 1)
  }

  // --------------------------------------------------------------- verification

  /**
   Fills in the child on our side. The source sets the sibling first and then the
   side that looks empty, right before left.
   */
  function WithChild<V>(start: nat, prefix: Bits, bit: bool, sibling: Hash<V>, child: Hash<V>): (n: Interior<V>) {
    var left, right := if bit then sibling else Zero, if bit then Zero else sibling;
    if right == Zero
    then Interior(start, |prefix|, prefix, left, child)
    else Interior(start, |prefix|, prefix, child, right)
  }

  function TerminalHash<V>(key: Bits, cursor: nat, t: Terminal<V>): (h: Option<Hash<V>>) {
    match t
    case PrefixMiss(n) => if Mismatch(key, n.prefix, cursor, n.count) then Some(HashOf(Inner(n))) else None
    case AtLeaf(v, found) => Some(HashOf(Leaf(if found.Some? then found.value else key, v)))
  }

  /** The hash of the node an edge leaves from, given the child's. */
  function Rehash<V>(key: Bits, at: nat, e: Edge<V>, child: Hash<V>): (h: Hash<V>)
    requires at + e.prefixLen < |key|
  {
    HashOf(Inner(WithChild(at, key[at..at + e.prefixLen], key[at + e.prefixLen], e.sibling, child)))
  }

  /** The hash of the subtree a path claims to descend into. `None` is a malformed path. */
  function PathHash<V>(key: Bits, edges: seq<Edge<V>>, cursor: nat, t: Terminal<V>): (h: Option<Hash<V>>)
    decreases |edges|
  {
    if edges == [] then TerminalHash(key, cursor, t)
    else
      var e := edges[0];
      if cursor + e.prefixLen >= |key| then None
      else
        var child := PathHash(key, edges[1..], cursor + e.prefixLen + 1, t);
        if child.None? then None
        else Some(Rehash(key, cursor, e, child.value))
  }

  /** Another key at the end of the path must differ from ours and lead down the same way. */
  predicate ForeignKeyOk(key: Bits, cursor: nat, found: Option<Bits>) {
    found.Some? ==> found.value != key && !Mismatch(found.value, key, 0, cursor)
  }

  predicate VerifiesPath<V(==)>(root: Hash<V>, key: Bits, p: Path<V>) {
    && PathHash(key, p.edges, 0, p.terminal) == Some(root)
    && (p.terminal.AtLeaf? ==> ForeignKeyOk(key, EndCursor(p.edges, 0), p.terminal.foundKey))
  }

  predicate VerifiesPresence<V(==)>(root: Hash<V>, key: Bits, p: Path<V>, v: V) {
    p.terminal.KeyWasFound() && VerifiesPath(root, key, p) && p.terminal.value == v
  }

  predicate VerifiesAbsence<V(==)>(root: Hash<V>, key: Bits, p: Path<V>) {
    !p.terminal.KeyWasFound() && VerifiesPath(root, key, p)
  }

  /** Where the cursor stands before edge `j`. */
  function StartAt<V>(edges: seq<Edge<V>>, j: nat): (c: nat)
    requires j <= |edges|
  {
    if j == 0 then 0 else StartAt(edges, j - 1) + edges[j - 1].prefixLen + 1
  }

  /** Node `j` starts where it should, and the key is long enough for it. */
  predicate PlacedAt<V>(key: Bits, edges: seq<Edge<V>>, j: nat, start: nat)
    requires j < |edges|
  {
    start == StartAt(edges, j) && start + edges[j].prefixLen < |key|
  }

  /** The pass down: where each node starts, and where the path ends. */
  method PlaceNodes<V>(key: Bits, edges: seq<Edge<V>>, ghost t: Terminal<V>)
    returns (ok: bool, starts: seq<nat>, cursor: nat)
    ensures !ok ==> PathHash(key, edges, 0, t) == None
    ensures ok ==> |starts| == |edges| && cursor == StartAt(edges, |edges|)
    ensures ok ==> forall j :: 0 <= j < |edges| ==> PlacedAt(key, edges, j, starts[j])
  {
    cursor, starts := 0, [];
    for i := 0 to |edges|
      invariant |starts| == i && cursor == StartAt(edges, i)
      invariant forall j :: 0 <= j < i ==> PlacedAt(key, edges, j, starts[j])
    {
      if cursor + edges[i].prefixLen >= |key| {
        MalformedAt(key, edges, i, t);
        return false, starts, cursor;
      }
      starts := starts + [cursor];
      cursor := cursor + edges[i].prefixLen + 1;
    }
    return true, starts, cursor;
  }

  /** The pass up: hashes from the terminal to the top. */
  method HashUp<V>(key: Bits, edges: seq<Edge<V>>, starts: seq<nat>, last: Hash<V>, ghost t: Terminal<V>)
    returns (top: Hash<V>)
    requires |starts| == |edges| && forall j :: 0 <= j < |edges| ==> PlacedAt(key, edges, j, starts[j])
    requires TerminalHash(key, StartAt(edges, |edges|), t) == Some(last)
    ensures PathHash(key, edges, 0, t) == Some(top)
  {
    top := last;
    var i := |edges|;
    assert edges[i..] == [];
    while i > 0
      invariant 0 <= i <= |edges| && PathHash(key, edges[i..], StartAt(edges, i), t) == Some(top)
    {
      i := i - 1;
      assert PlacedAt(key, edges, i, starts[i]);
      HashOneUp(key, edges, i, t, top);
      top := Rehash(key, starts[i], edges[i], top);
    }
    assert edges[0..] == edges;
  }

  /** `verifyPath`: one pass down to place the nodes, one pass up to hash them. */
  method VerifyPath<V(==)>(root: Hash<V>, key: Bits, p: Path<V>) returns (ok: bool)
    ensures ok <==> VerifiesPath(root, key, p)
  {
    var fits, starts, cursor := PlaceNodes(key, p.edges, p.terminal);
    if !fits { return false; }
    var last := TerminalHash(key, cursor, p.terminal);
    assert p.edges[|p.edges|..] == [];
    if last.None? {
      MalformedAt(key, p.edges, |p.edges|, p.terminal);
      return false;
    }
    var top := HashUp(key, p.edges, starts, last.value, p.terminal);
    EndIsStart(p.edges, |p.edges|);
    ok := top == root && (p.terminal.AtLeaf? ==> ForeignKeyOk(key, cursor, p.terminal.foundKey));
  }

  lemma HashOneUp<V>(key: Bits, edges: seq<Edge<V>>, i: nat, t: Terminal<V>, child: Hash<V>)
    requires i < |edges| && StartAt(edges, i) + edges[i].prefixLen < |key|
    requires PathHash(key, edges[i + 1..], StartAt(edges, i + 1), t) == Some(child)
    ensures PathHash(key, edges[i..], StartAt(edges, i), t) == Some(Rehash(key, StartAt(edges, i), edges[i], child))
  {
    assert edges[i..][1..] == edges[i + 1..];
  }

  lemma {:induction false} EndIsStart<V>(edges: seq<Edge<V>>, i: nat)
    requires i <= |edges|
    ensures EndCursor(edges[i..], StartAt(edges, i)) == EndCursor(edges, 0)
  {
    if i == 0 {
      assert edges[0..] == edges;
    } else {
      assert edges[i - 1..][1..] == edges[i..];
      EndIsStart(edges, i - 1);
    }
  }

  /** A path malformed from some edge on is malformed as a whole. */
  lemma {:induction false} MalformedAt<V>(key: Bits, edges: seq<Edge<V>>, i: nat, t: Terminal<V>)
    requires i <= |edges| && PathHash(key, edges[i..], StartAt(edges, i), t) == None
    ensures PathHash(key, edges, 0, t) == None
  {
    if i == 0 {
      assert edges[0..] == edges;
    } else {
      assert edges[i - 1..][1..] == edges[i..];
      MalformedAt(key, edges, i - 1, t);
    }
  }

  // -------------------------------------------------------------------- binding

  /** On our side of a node the child is determined by the node, although the sibling may be empty. */
  lemma ChildIsDetermined<V>(start: nat, p1: Bits, p2: Bits, bit: bool, s1: Hash<V>, c1: Hash<V>, s2: Hash<V>,
                             c2: Hash<V>)
    requires WithChild(start, p1, bit, s1, c1) == WithChild(start, p2, bit, s2, c2) && c1 != Zero && c2 != Zero
    ensures p1 == p2 && s1 == s2 && c1 == c2
  {
  }

  /** Two well-formed paths for one key under one hash follow the same edges to the same node. */
  lemma {:induction false} PathsCoincide<V>(key: Bits, cursor: nat, e1: seq<Edge<V>>, t1: Terminal<V>,
                                            e2: seq<Edge<V>>, t2: Terminal<V>)
    requires PathHash(key, e1, cursor, t1).Some? && PathHash(key, e1, cursor, t1) == PathHash(key, e2, cursor, t2)
    ensures EndCursor(e1, cursor) == EndCursor(e2, cursor)
    ensures TerminalHash(key, EndCursor(e1, cursor), t1).Some?
    ensures TerminalHash(key, EndCursor(e1, cursor), t1) == TerminalHash(key, EndCursor(e1, cursor), t2)
    decreases |e1|
  {
    if e1 != [] && e2 != [] {
      StepsCoincide(key, cursor, e1, t1, e2, t2);
      PathsCoincide(key, cursor + e1[0].prefixLen + 1, e1[1..], t1, e2[1..], t2);
    } else if e1 != [] {
      TerminalIsNotPassed(key, cursor, e1, t1, t2);
    } else if e2 != [] {
      TerminalIsNotPassed(key, cursor, e2, t2, t1);
    }
  }

  lemma StepsCoincide<V>(key: Bits, cursor: nat, e1: seq<Edge<V>>, t1: Terminal<V>, e2: seq<Edge<V>>, t2: Terminal<V>)
    requires e1 != [] && e2 != []
    requires PathHash(key, e1, cursor, t1).Some? && PathHash(key, e1, cursor, t1) == PathHash(key, e2, cursor, t2)
    ensures e1[0] == e2[0] && cursor + e1[0].prefixLen < |key|
    ensures var c := cursor + e1[0].prefixLen + 1;
            PathHash(key, e1[1..], c, t1).Some? && PathHash(key, e1[1..], c, t1) == PathHash(key, e2[1..], c, t2)
  {
    var c1 := OneStepDown(key, cursor, e1, t1);
    var c2 := OneStepDown(key, cursor, e2, t2);
    RehashIsInjective(key, cursor, e1[0], c1, e2[0], c2);
  }

  /** A path through a node is one step above the rest of the path. */
  lemma OneStepDown<V>(key: Bits, cursor: nat, edges: seq<Edge<V>>, t: Terminal<V>) returns (child: Hash<V>)
    requires edges != [] && PathHash(key, edges, cursor, t).Some?
    ensures cursor + edges[0].prefixLen < |key| && child != Zero
    ensures PathHash(key, edges[1..], cursor + edges[0].prefixLen + 1, t) == Some(child)
    ensures PathHash(key, edges, cursor, t) == Some(Rehash(key, cursor, edges[0], child))
  {
    child := PathHash(key, edges[1..], cursor + edges[0].prefixLen + 1, t).value;
    HashIsNotZero(key, edges[1..], cursor + edges[0].prefixLen + 1, t);
  }

  /** One step up determines the edge and the hash below it. */
  lemma RehashIsInjective<V>(key: Bits, cursor: nat, x: Edge<V>, c1: Hash<V>, y: Edge<V>, c2: Hash<V>)
    requires cursor + x.prefixLen < |key| && cursor + y.prefixLen < |key| && c1 != Zero && c2 != Zero
    requires Rehash(key, cursor, x, c1) == Rehash(key, cursor, y, c2)
    ensures x == y && c1 == c2
  {
    var p1, p2 := key[cursor..cursor + x.prefixLen], key[cursor..cursor + y.prefixLen];
    assert |p1| == |p2|;
    ChildIsDetermined(cursor, p1, p2, key[cursor + x.prefixLen], x.sibling, c1, y.sibling, c2);
  }

  lemma HashIsNotZero<V>(key: Bits, edges: seq<Edge<V>>, cursor: nat, t: Terminal<V>)
    requires PathHash(key, edges, cursor, t).Some?
    ensures PathHash(key, edges, cursor, t).value != Zero
  {
  }

  /** A path cannot end at a node that another path for the same key goes through. */
  lemma TerminalIsNotPassed<V>(key: Bits, cursor: nat, edges: seq<Edge<V>>, t: Terminal<V>, end: Terminal<V>)
    requires edges != [] && PathHash(key, edges, cursor, t).Some?
    ensures PathHash(key, edges, cursor, t) != TerminalHash(key, cursor, end)
  {
  }

  /**
   One root gives one answer for each key, whoever built the tree and the paths: no
   two values, and never both a value and absence.
   */
  lemma RootIsBinding<V>(root: Hash<V>, key: Bits, p1: Path<V>, v1: V, p2: Path<V>, v2: V)
    requires VerifiesPresence(root, key, p1, v1)
    ensures VerifiesPresence(root, key, p2, v2) ==> v1 == v2
    ensures !VerifiesAbsence(root, key, p2)
  {
    if VerifiesPath(root, key, p2) {
      PathsCoincide(key, 0, p1.edges, p1.terminal, p2.edges, p2.terminal);
    }
  }

  // ----------------------------------------------------------------- completeness

  /** The server's tree, compressed: an interior node spans the bits its keys share. */
  datatype Tree<V> = TreeLeaf(key: Bits, value: V) | TreeNode(prefix: Bits, left: Tree<V>, right: Tree<V>)

  /** Every key below a node starts with the bits that lead to it. */
  ghost predicate Proper<V>(t: Tree<V>, len: nat, way: Bits) {
    match t
    case TreeLeaf(k, _) => |k| == len && way <= k
    case TreeNode(prefix, l, r) =>
      |way| + |prefix| < len && Proper(l, len, way + prefix + [false]) && Proper(r, len, way + prefix + [true])
  }

  /** The key-value pairs at the leaves. */
  ghost predicate Holds<V>(t: Tree<V>, key: Bits, v: V) {
    match t
    case TreeLeaf(k, w) => k == key && w == v
    case TreeNode(_, l, r) => Holds(l, key, v) || Holds(r, key, v)
  }

  function TreeHash<V>(t: Tree<V>, cursor: nat): (h: Hash<V>)
    ensures h != Zero
  {
    match t
    case TreeLeaf(k, v) => HashOf(Leaf(k, v))
    case TreeNode(prefix, l, r) =>
      var c := cursor + |prefix| + 1;
      HashOf(Inner(Interior(cursor, |prefix|, prefix, TreeHash(l, c), TreeHash(r, c))))
  }

  /** The path the server answers with. */
  function Prove<V>(t: Tree<V>, key: Bits, cursor: nat): (p: Path<V>) {
    match t
    case TreeLeaf(k, v) => Path([], AtLeaf(v, if k == key then None else Some(k)))
    case TreeNode(prefix, l, r) =>
      var c := cursor + |prefix| + 1;
      if c <= |key| && key[cursor..c - 1] == prefix then
        var child, sibling := if key[c - 1] then r else l, if key[c - 1] then l else r;
        var rest := Prove(child, key, c);
        Path([Edge(|prefix|, TreeHash(sibling, c))] + rest.edges, rest.terminal)
      else Path([], PrefixMiss(Interior(cursor, |prefix|, prefix, TreeHash(l, c), TreeHash(r, c))))
  }

  lemma PathHashOneUp<V>(key: Bits, e: Edge<V>, edges: seq<Edge<V>>, cursor: nat, t: Terminal<V>)
    requires cursor + e.prefixLen < |key|
    ensures EndCursor([e] + edges, cursor) == EndCursor(edges, cursor + e.prefixLen + 1)
    ensures var below := PathHash(key, edges, cursor + e.prefixLen + 1, t);
            below.Some? ==> PathHash(key, [e] + edges, cursor, t) == Some(Rehash(key, cursor, e, below.value))
  {
    assert ([e] + edges)[1..] == edges;
  }

  /** The path proved for the key hashes to the subtree, and a foreign leaf at its end is a proper one. */
  ghost predicate ProofOk<V>(t: Tree<V>, key: Bits, cursor: nat) {
    var p := Prove(t, key, cursor);
    && PathHash(key, p.edges, cursor, p.terminal) == Some(TreeHash(t, cursor))
    && (p.terminal.AtLeaf? ==> ForeignKeyOk(key, EndCursor(p.edges, cursor), p.terminal.foundKey))
  }

  /** The subtree on this side of a node. */
  function Child<V>(t: Tree<V>, bit: bool): (c: Tree<V>)
    requires t.TreeNode?
    ensures c < t
  {
    if bit then t.right else t.left
  }

  lemma ChildIsProper<V>(t: Tree<V>, len: nat, way: Bits, bit: bool)
    requires t.TreeNode? && Proper(t, len, way)
    ensures Proper(Child(t, bit), len, way + t.prefix + [bit])
    ensures |way + t.prefix + [bit]| == |way| + |t.prefix| + 1 <= len
  {
  }

  /** The key leaves the node below its prefix, which it has. */
  predicate Passes<V>(t: Tree<V>, key: Bits, cursor: nat)
    requires t.TreeNode?
  {
    cursor + |t.prefix| < |key| && key[cursor..cursor + |t.prefix|] == t.prefix
  }

  /** The path through a node is an edge and the path through the child. */
  lemma ProveNode<V>(t: Tree<V>, key: Bits, cursor: nat)
    requires t.TreeNode? && Passes(t, key, cursor)
    ensures var c := cursor + |t.prefix| + 1;
            var p, rest := Prove(t, key, cursor), Prove(Child(t, key[c - 1]), key, c);
            && p.edges == [Edge(|t.prefix|, TreeHash(Child(t, !key[c - 1]), c))] + rest.edges
            && p.terminal == rest.terminal
  {
  }

  lemma NodeRehashes<V>(t: Tree<V>, key: Bits, cursor: nat)
    requires t.TreeNode? && Passes(t, key, cursor)
    ensures var c := cursor + |t.prefix| + 1;
            Rehash(key, cursor, Edge(|t.prefix|, TreeHash(Child(t, !key[c - 1]), c)), TreeHash(Child(t, key[c - 1]), c))
            == TreeHash(t, cursor)
  {
  }

  /** What holds for the child on our side holds for the node. */
  lemma NodeProofOk<V>(t: Tree<V>, key: Bits, cursor: nat)
    requires t.TreeNode? && Passes(t, key, cursor)
    requires var c := cursor + |t.prefix| + 1; ProofOk(Child(t, key[c - 1]), key, c)
    ensures ProofOk(t, key, cursor)
  {
    var c := cursor + |t.prefix| + 1;
    ProveNode(t, key, cursor);
    NodeRehashes(t, key, cursor);
    var rest := Prove(Child(t, key[c - 1]), key, c);
    PathHashOneUp(key, Edge(|t.prefix|, TreeHash(Child(t, !key[c - 1]), c)), rest.edges, cursor, rest.terminal);
  }

  lemma LeafProofOk<V>(t: Tree<V>, key: Bits, way: Bits)
    requires t.TreeLeaf? && Proper(t, |key|, way) && way <= key
    ensures ProofOk(t, key, |way|)
  {
  }

  lemma MissProofOk<V>(t: Tree<V>, key: Bits, cursor: nat)
    requires t.TreeNode? && cursor + |t.prefix| < |key| && !Passes(t, key, cursor)
    ensures ProofOk(t, key, cursor)
  {
    DifferentPrefix(key, cursor, t.prefix);
  }

  lemma {:induction false} ProofHashes<V>(t: Tree<V>, key: Bits, way: Bits)
    requires Proper(t, |key|, way) && way <= key
    ensures ProofOk(t, key, |way|)
    decreases t
  {
    if t.TreeLeaf? {
      LeafProofOk(t, key, way);
    } else if Passes(t, key, |way|) {
      var bit := key[|way| + |t.prefix|];
      OneBitFurther(key, way, t.prefix);
      ChildIsProper(t, |key|, way, bit);
      ProofHashes(Child(t, bit), key, way + t.prefix + [bit]);
      NodeProofOk(t, key, |way|);
    } else {
      MissProofOk(t, key, |way|);
    }
  }

  lemma OneBitFurther(key: Bits, way: Bits, prefix: Bits)
    requires way <= key && |way| + |prefix| < |key| && key[|way|..|way| + |prefix|] == prefix
    ensures way + prefix + [key[|way| + |prefix|]] <= key
  {
    assert key == key[..|way|] + key[|way|..|way| + |prefix|] + [key[|way| + |prefix|]] + key[|way| + |prefix| + 1..];
  }

  lemma WayThrough(key: Bits, way: Bits, prefix: Bits, bit: bool)
    requires way + prefix + [bit] <= key
    ensures |way| + |prefix| < |key| && key[|way|..|way| + |prefix|] == prefix && key[|way| + |prefix|] == bit
  {
    var n := |way| + |prefix|;
    assert key[..n + 1] == way + prefix + [bit];
    assert key[n] == key[..n + 1][n] && key[|way|..n] == key[..n + 1][|way|..n];
  }

  lemma DifferentPrefix(key: Bits, cursor: nat, prefix: Bits)
    requires cursor + |prefix| < |key| && key[cursor..cursor + |prefix|] != prefix
    ensures Mismatch(key, prefix, cursor, |prefix|)
  {
    var part := key[cursor..cursor + |prefix|];
    var i :| 0 <= i < |prefix| && part[i] != prefix[i];
    assert key[cursor + i] != prefix[i];
  }

  lemma {:induction false} HeldKeysGoThisWay<V>(t: Tree<V>, key: Bits, way: Bits, v: V)
    requires Proper(t, |key|, way) && Holds(t, key, v)
    ensures way <= key
    decreases t
  {
    if t.TreeNode? {
      if Holds(t.left, key, v) {
        HeldKeysGoThisWay(t.left, key, way + t.prefix + [false], v);
      } else {
        HeldKeysGoThisWay(t.right, key, way + t.prefix + [true], v);
      }
    }
  }

  lemma HeldOnSide<V>(t: Tree<V>, key: Bits, way: Bits, bit: bool, v: V)
    requires t.TreeNode? && Proper(t, |key|, way) && Holds(Child(t, bit), key, v)
    ensures way + t.prefix + [bit] <= key
  {
    ChildIsProper(t, |key|, way, bit);
    HeldKeysGoThisWay(Child(t, bit), key, way + t.prefix + [bit], v);
  }

  lemma PassesThisWay<V>(t: Tree<V>, key: Bits, way: Bits, bit: bool)
    requires t.TreeNode? && way + t.prefix + [bit] <= key
    ensures Passes(t, key, |way|) && key[|way| + |t.prefix|] == bit
  {
    WayThrough(key, way, t.prefix, bit);
  }

  /** A key held below a node passes it and is held on the side of its own bit. */
  lemma HeldBelow<V>(t: Tree<V>, key: Bits, way: Bits, v: V)
    requires t.TreeNode? && Proper(t, |key|, way) && Holds(t, key, v)
    ensures Passes(t, key, |way|) && Holds(Child(t, key[|way| + |t.prefix|]), key, v)
  {
    var bit := !Holds(Child(t, false), key, v);
    HeldOnSide(t, key, way, bit, v);
    PassesThisWay(t, key, way, bit);
  }

  /** A leaf reached by the key's own bits is found; no leaf elsewhere can hold the key. */
  lemma {:induction false} ProofFinds<V>(t: Tree<V>, key: Bits, way: Bits, v: V)
    requires Proper(t, |key|, way) && way <= key
    ensures var p := Prove(t, key, |way|); Holds(t, key, v) <==> p.terminal.KeyWasFound() && p.terminal.value == v
    decreases t
  {
    if t.TreeNode? {
      if Holds(t, key, v) { HeldBelow(t, key, way, v); }
      if Passes(t, key, |way|) {
        var bit := key[|way| + |t.prefix|];
        OneBitFurther(key, way, t.prefix);
        ChildIsProper(t, |key|, way, bit);
        ProofFinds(Child(t, bit), key, way + t.prefix + [bit], v);
        ProveNode(t, key, |way|);
      }
    }
  }

  /** Some path verifies for the value. */
  ghost predicate Proved<V(!new)>(root: Hash<V>, key: Bits, v: V) { exists p :: VerifiesPresence(root, key, p, v) }

  /** Some path verifies that there is no value. */
  ghost predicate Vacant<V(!new)>(root: Hash<V>, key: Bits) { exists p :: VerifiesAbsence(root, key, p) }

  /** One path that verifies decides what else can: the value it finds, or absence, and nothing besides. */
  lemma VerifiedPathDecides<V(!new)>(root: Hash<V>, key: Bits, p: Path<V>, v: V)
    requires VerifiesPath(root, key, p)
    ensures Proved(root, key, v) <==> p.terminal.KeyWasFound() && p.terminal.value == v
    ensures Vacant(root, key) <==> !p.terminal.KeyWasFound()
  {
    if p.terminal.KeyWasFound() {
      assert VerifiesPresence(root, key, p, p.terminal.value);
      if q :| VerifiesPresence(root, key, q, v) { RootIsBinding(root, key, p, p.terminal.value, q, v); }
      if q :| VerifiesAbsence(root, key, q) { RootIsBinding(root, key, p, p.terminal.value, q, v); }
    } else {
      assert VerifiesAbsence(root, key, p);
      if q :| VerifiesPresence(root, key, q, v) { RootIsBinding(root, key, q, v, p, v); }
    }
  }

  /**
   Against an honest tree, verification decides lookup: a value verifies exactly
   when the tree holds it, and absence verifies exactly when the tree holds none.
   */
  lemma VerificationDecidesLookup<V(!new)>(t: Tree<V>, key: Bits, v: V)
    requires Proper(t, |key|, [])
    ensures Proved(TreeHash(t, 0), key, v) <==> Holds(t, key, v)
    ensures Vacant(TreeHash(t, 0), key) <==> forall w :: !Holds(t, key, w)
  {
    var p := Prove(t, key, 0);
    ProofHashes(t, key, []);
    VerifiedPathDecides(TreeHash(t, 0), key, p, v);
    ProofFinds(t, key, [], v);
    if p.terminal.KeyWasFound() {
      ProofFinds(t, key, [], p.terminal.value);
    } else {
      forall w: V ensures !Holds(t, key, w) { ProofFinds(t, key, [], w); }
    }
  }
}
