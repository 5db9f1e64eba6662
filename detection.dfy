/**
 * The search over the classification tree (tree.go:5-7): the root's signature
 * passes for every buffer; whenever a node's signature passes, its children
 * are tried in the order in which they are listed, the first that passes is
 * descended into, and the search never returns to try a later sibling. The
 * node where the descent stops is the detected type.
 */
module Detection {
  import opened Wrappers
  import opened Matchers
  import opened Nodes
  import opened Tree

  /**
   * The position of the first node of cs whose signature passes on buf, or
   * None when none does.
   */
  function FirstMatch(cat: Catalog, cs: seq<Node>, buf: Buffer): (r: Option<nat>)
    ensures r.Some? ==> r.value < |cs| && Matches(cat, cs[r.value].sig, buf)
    ensures r.Some? ==> forall j | 0 <= j < r.value :: !Matches(cat, cs[j].sig, buf)
    ensures r.None? <==> forall j | 0 <= j < |cs| :: !Matches(cat, cs[j].sig, buf)
  {
    if |cs| == 0 then None
    else if Matches(cat, cs[0].sig, buf) then Some(0)
    else match FirstMatch(cat, cs[1..], buf)
      case None => None
      case Some(i) => Some(i + 1)
  }

  /**
   * The outcome of a search: the node it stops at, the nodes it passed through
   * from where it started down to that node, and the signatures it evaluated,
   * in the order in which it evaluated them.
   */
  datatype Walk = Walk(node: Node, path: seq<Node>, probes: seq<Sig>)

  /**
   * The search from n, whose own signature has passed: the children of n are
   * tried in order up to the first that passes, and the search continues from
   * that child; it stops at a node none of whose children passes.
   */
  function Descend(cat: Catalog, n: Node, buf: Buffer): (w: Walk)
    ensures |w.path| >= 1 && w.path[0] == n && w.path[|w.path| - 1] == w.node
    ensures FirstMatch(cat, w.node.children, buf).None?
    decreases n
  {
    match FirstMatch(cat, n.children, buf)
    case None => Walk(n, [n], Sigs(n.children))
    case Some(i) =>
      var w := Descend(cat, n.children[i], buf);
      Walk(w.node, [n] + w.path, Sigs(n.children[..i + 1]) + w.probes)
  }

  /**
   * Detection: the search from the root of the configured tree. Its path
   * starts at the root, and no child of the node it reports passes.
   */
  function Detect(cat: Catalog, buf: Buffer): (w: Walk)
    ensures |w.path| >= 1 && w.path[0] == root
    ensures FirstMatch(cat, w.node.children, buf).None?
  {
    Descend(cat, root, buf)
  }

  // ---------------------------------------------------------------------------
  // The search, characterised

  /**
   * p is a run of the search from p[0]: it goes down the tree, each step to
   * the first child that passes, and it ends where no child passes.
   */
  ghost predicate IsSearch(cat: Catalog, buf: Buffer, p: seq<Node>)
  {
    IsChain(p) &&
    (forall k | 0 <= k < |p| - 1 ::
      FirstMatch(cat, p[k].children, buf).Some? &&
      p[k + 1] == p[k].children[FirstMatch(cat, p[k].children, buf).value]) &&
    FirstMatch(cat, p[|p| - 1].children, buf).None?
  }

  /** One step of the search: from n it moves to the first child that passes. */
  lemma DescendStep(cat: Catalog, n: Node, buf: Buffer)
    requires FirstMatch(cat, n.children, buf).Some?
    ensures Descend(cat, n, buf).path ==
      [n] + Descend(cat, n.children[FirstMatch(cat, n.children, buf).value], buf).path
  {
  }

  /** The search from a node without children stops there at once. */
  lemma StopsAtLeaf(cat: Catalog, n: Node, buf: Buffer)
    requires |n.children| == 0
    ensures Descend(cat, n, buf).path == [n]
  {
  }

  /**
   * The path Descend returns is a run of the search, and every node on it
   * after the first passes.
   */
  lemma {:induction false} DescendIsSearch(cat: Catalog, n: Node, buf: Buffer)
    ensures IsSearch(cat, buf, Descend(cat, n, buf).path)
    ensures forall k | 1 <= k < |Descend(cat, n, buf).path| :: Matches(cat, Descend(cat, n, buf).path[k].sig, buf)
    decreases n
  {
    var p := Descend(cat, n, buf).path;
    var r := FirstMatch(cat, n.children, buf);
    if r.Some? {
      var c := n.children[r.value];
      var q := Descend(cat, c, buf).path;
      DescendIsSearch(cat, c, buf);
      DescendStep(cat, n, buf);
      assert p == [n] + q;
      forall k | 0 <= k < |p| - 1
        ensures p[k + 1] in p[k].children
        ensures FirstMatch(cat, p[k].children, buf).Some? &&
          p[k + 1] == p[k].children[FirstMatch(cat, p[k].children, buf).value]
      {
        if k > 0 {
          assert p[k] == q[k - 1] && p[k + 1] == q[k];
        }
      }
      forall k | 1 <= k < |p| ensures Matches(cat, p[k].sig, buf) {
        assert p[k] == q[k - 1];
      }
    }
  }

  /** A run of the search is the one Descend returns: the search is deterministic. */
  lemma {:induction false} SearchIsDescend(cat: Catalog, buf: Buffer, p: seq<Node>)
    requires IsSearch(cat, buf, p)
    ensures Descend(cat, p[0], buf).path == p
    ensures Descend(cat, p[0], buf).node == p[|p| - 1]
    decreases |p|
  {
    if |p| > 1 {
      var q := p[1..];
      ChainTail(p);
      forall k | 0 <= k < |q| - 1
        ensures FirstMatch(cat, q[k].children, buf).Some? &&
          q[k + 1] == q[k].children[FirstMatch(cat, q[k].children, buf).value]
      {
        assert q[k] == p[k + 1] && q[k + 1] == p[k + 2];
      }
      SearchIsDescend(cat, buf, q);
      DescendStep(cat, p[0], buf);
      assert p == [p[0]] + q;
    }
  }

  /**
   * Restarting the search from any node it passed through retraces the rest
   * of the same path: each step depends only on the node and the buffer.
   */
  lemma DescendSuffix(cat: Catalog, n: Node, buf: Buffer, k: nat)
    requires k < |Descend(cat, n, buf).path|
    ensures Descend(cat, Descend(cat, n, buf).path[k], buf).path == Descend(cat, n, buf).path[k..]
  {
    var p := Descend(cat, n, buf).path;
    DescendIsSearch(cat, n, buf);
    SearchSuffix(cat, buf, p, k);
    SearchIsDescend(cat, buf, p[k..]);
  }

  /** The rest of a run of the search, from any node on it, is a run of the search. */
  lemma SearchSuffix(cat: Catalog, buf: Buffer, p: seq<Node>, k: nat)
    requires IsSearch(cat, buf, p) && k < |p|
    ensures IsSearch(cat, buf, p[k..])
  {
    var q := p[k..];
    forall j | 0 <= j < |q| - 1
      ensures q[j + 1] in q[j].children
      ensures FirstMatch(cat, q[j].children, buf).Some? &&
        q[j + 1] == q[j].children[FirstMatch(cat, q[j].children, buf).value]
    {
      assert q[j] == p[k + j] && q[j + 1] == p[k + j + 1];
    }
  }

  /** The detected node's own signature passes on the buffer. */
  lemma DetectedMatches(cat: Catalog, n: Node, buf: Buffer)
    requires Matches(cat, n.sig, buf)
    ensures Matches(cat, Descend(cat, n, buf).node.sig, buf)
  {
    DescendIsSearch(cat, n, buf);
  }

  // ---------------------------------------------------------------------------
  // Sibling precedence

  /**
   * Once a child passes, no later sibling is tried: the search steps to that
   * child or to one listed before it.
   */
  lemma Precedence(cat: Catalog, n: Node, buf: Buffer, i: nat)
    requires i < |n.children| && Matches(cat, n.children[i].sig, buf)
    ensures FirstMatch(cat, n.children, buf).Some?
    ensures FirstMatch(cat, n.children, buf).value <= i
    ensures |Descend(cat, n, buf).path| >= 2
    ensures Descend(cat, n, buf).path[1] == n.children[FirstMatch(cat, n.children, buf).value]
    ensures Descend(cat, n, buf).path[1] in n.children[..i + 1]
  {
    var v := FirstMatch(cat, n.children, buf).value;
    DescendStep(cat, n, buf);
    assert n.children[..i + 1][v] == n.children[v];
  }

  /**
   * A child that is listed first among those that pass is the one the search
   * steps to.
   */
  lemma FirstPasses(cat: Catalog, n: Node, buf: Buffer, i: nat)
    requires i < |n.children| && Matches(cat, n.children[i].sig, buf)
    requires forall j | 0 <= j < i :: !Matches(cat, n.children[j].sig, buf)
    ensures FirstMatch(cat, n.children, buf) == Some(i)
    ensures |Descend(cat, n, buf).path| >= 2
    ensures Descend(cat, n, buf).path[1] == n.children[i]
  {
    Precedence(cat, n, buf, i);
  }

  /**
   * Once a child passes, no later sibling is evaluated: in a tree with unique
   * signatures, the signature of a child listed after a passing one is not
   * among the signatures the search evaluates.
   */
  lemma LaterSiblingUnprobed(cat: Catalog, n: Node, buf: Buffer, i: nat, j: nat)
    requires Unique(Bag(n))
    requires i < j < |n.children| && Matches(cat, n.children[i].sig, buf)
    ensures n.children[j].sig !in multiset(Descend(cat, n, buf).probes)
  {
    var cs := n.children;
    Precedence(cat, n, buf, i);
    var v := FirstMatch(cat, cs, buf).value;
    ProbesBeforeNext(cat, n, buf);
    var a, b := cs[..v + 1], cs[v + 1..];
    assert cs == a + b;
    BagAllAppend(a, b);
    var s := cs[j].sig;
    assert cs[j] in b by {
      assert b[j - v - 1] == cs[j];
    }
    ChildFlattenInside(b, cs[j], cs[j]);
    InSigs(FlattenAll(b), cs[j]);
    BagUnfold(n);
    AtMostOnce(Bag(n), s);
  }

  // ---------------------------------------------------------------------------
  // Evaluated signatures

  /**
   * When some child passes, the search evaluates only signatures of the
   * subtrees under the children up to the first that passes.
   */
  lemma ProbesBeforeNext(cat: Catalog, n: Node, buf: Buffer)
    requires FirstMatch(cat, n.children, buf).Some?
    ensures multiset(Descend(cat, n, buf).probes) <=
      BagAll(n.children[..FirstMatch(cat, n.children, buf).value + 1])
  {
    var cs := n.children;
    var v := FirstMatch(cat, cs, buf).value;
    var w := Descend(cat, cs[v], buf);
    assert Descend(cat, n, buf).probes == Sigs(cs[..v + 1]) + w.probes;
    ProbesBelow(cat, cs[v], buf);
    var a := cs[..v + 1];
    assert a[..v + 1] == a && a[v] == cs[v];
    PrefixThenChild(a, v);
  }

  /**
   * The signatures a search from n evaluates are signatures of nodes below n,
   * each evaluated no more often than it occurs there.
   */
  lemma {:induction false} ProbesBelow(cat: Catalog, n: Node, buf: Buffer)
    ensures multiset(Descend(cat, n, buf).probes) <= BagAll(n.children)
    decreases n
  {
    var r := FirstMatch(cat, n.children, buf);
    if r.None? {
      SlotsWithinForest(n.children);
    } else {
      var i := r.value;
      var c := n.children[i];
      ProbesBelow(cat, c, buf);
      PrefixThenChild(n.children, i);
    }
  }

  /**
   * In a tree with unique signatures, a search stops inside the tree, takes
   * no more steps than the tree is high, and evaluates each signature at most
   * once, so no more signatures than there are nodes below its start.
   */
  lemma DescendBounds(cat: Catalog, n: Node, buf: Buffer)
    requires Unique(Bag(n))
    ensures Descend(cat, n, buf).node in Flatten(n)
    ensures |Descend(cat, n, buf).path| <= Height(n) + 1
    ensures forall s :: multiset(Descend(cat, n, buf).probes)[s] <= 1
    ensures |Descend(cat, n, buf).probes| <= |FlattenAll(n.children)|
  {
    var w := Descend(cat, n, buf);
    DescendIsSearch(cat, n, buf);
    ChainInside(w.path);
    ChainHeight(w.path);
    ProbesBelow(cat, n, buf);
    BagUnfold(n);
    forall s ensures multiset(w.probes)[s] <= 1 {
      AtMostOnce(Bag(n), s);
    }
    var rest := BagAll(n.children) - multiset(w.probes);
    assert BagAll(n.children) == multiset(w.probes) + rest;
  }

  /** The signatures of a child list are among those of the forest below it. */
  lemma SlotsWithinForest(cs: seq<Node>)
    ensures multiset(Sigs(cs)) <= BagAll(cs)
  {
    forall s ensures multiset(Sigs(cs))[s] <= BagAll(cs)[s] {
      OccurrencesAreSlotsAll(cs, s);
    }
  }

  /**
   * The signatures of the first i + 1 children, together with the signatures
   * strictly below child i, are among the signatures of the whole forest.
   */
  lemma PrefixThenChild(cs: seq<Node>, i: nat)
    requires i < |cs|
    ensures multiset(Sigs(cs[..i + 1])) + BagAll(cs[i].children) <= BagAll(cs)
  {
    var a, b := cs[..i], cs[i..];
    assert cs == a + b;
    BagAllAppend(a, b);
    BagAllUnfold(b);
    BagUnfold(cs[i]);
    SlotsWithinForest(a);
    assert cs[..i + 1] == a + [cs[i]];
    SigsAppend(a, [cs[i]]);
  }

  // ---------------------------------------------------------------------------
  // A buffer recognised exactly along a path

  /**
   * In a tree with unique signatures, a child of p[0] that lies on the chain p
   * after p[0] is p[1].
   */
  lemma OnChildOnPath(p: seq<Node>, d: Node)
    requires IsChain(p) && Unique(Bag(p[0]))
    requires d in p[0].children && d in p[1..]
    ensures |p| > 1 && d == p[1]
  {
    var m :| 1 <= m < |p| && p[m] == d;
    ChainPrefix(p, m + 1);
    ChainUnique([p[0], d], p[..m + 1]);
  }

  /**
   * If exactly the nodes after p[0] on p pass among those below p[0], then
   * exactly the nodes after p[1] pass among those below p[1].
   */
  lemma AlongChild(cat: Catalog, buf: Buffer, p: seq<Node>)
    requires IsChain(p) && |p| > 1 && Unique(Bag(p[0]))
    requires forall m | m in FlattenAll(p[0].children) :: Matches(cat, m.sig, buf) <==> m in p[1..]
    ensures Unique(Bag(p[1]))
    ensures forall m | m in FlattenAll(p[1].children) :: Matches(cat, m.sig, buf) <==> m in p[1..][1..]
  {
    var c := p[1];
    UniqueChild(p[0], c);
    assert p[1..] == [c] + p[1..][1..];
    forall m | m in FlattenAll(c.children)
      ensures Matches(cat, m.sig, buf) <==> m in p[1..][1..]
    {
      assert m in Flatten(c);
      ChildFlattenInside(p[0].children, c, m);
      NotBelowItself(c, m);
    }
  }

  /**
   * If, among the nodes below p[0], exactly those after p[0] on the chain p
   * pass on buf, then the search from p[0] follows p to its end.
   */
  lemma {:induction false} DescendAlong(cat: Catalog, buf: Buffer, p: seq<Node>)
    requires IsChain(p) && Unique(Bag(p[0]))
    requires forall m | m in FlattenAll(p[0].children) :: Matches(cat, m.sig, buf) <==> m in p[1..]
    ensures Descend(cat, p[0], buf).path == p
    decreases |p|
  {
    var n := p[0];
    var r := FirstMatch(cat, n.children, buf);
    if r.Some? {
      var c := n.children[r.value];
      PassingChildOnPath(cat, buf, p, c);
      ChainTail(p);
      AlongChild(cat, buf, p);
      DescendAlong(cat, buf, p[1..]);
      DescendStep(cat, n, buf);
      assert p == [n] + p[1..];
    } else if |p| > 1 {
      PathChildPasses(cat, buf, p);
    }
  }

  /** Under the hypothesis of DescendAlong, a child of p[0] that passes is p[1]. */
  lemma PassingChildOnPath(cat: Catalog, buf: Buffer, p: seq<Node>, d: Node)
    requires IsChain(p) && Unique(Bag(p[0]))
    requires forall m | m in FlattenAll(p[0].children) :: Matches(cat, m.sig, buf) <==> m in p[1..]
    requires d in p[0].children && Matches(cat, d.sig, buf)
    ensures |p| > 1 && d == p[1]
  {
    ChildFlattenInside(p[0].children, d, d);
    OnChildOnPath(p, d);
  }

  /** Under the hypothesis of DescendAlong, some child of p[0] passes when p goes on. */
  lemma PathChildPasses(cat: Catalog, buf: Buffer, p: seq<Node>)
    requires IsChain(p) && |p| > 1
    requires forall m | m in FlattenAll(p[0].children) :: Matches(cat, m.sig, buf) <==> m in p[1..]
    ensures FirstMatch(cat, p[0].children, buf).Some?
  {
    var c := p[1];
    var i :| 0 <= i < |p[0].children| && p[0].children[i] == c;
    ChildFlattenInside(p[0].children, c, c);
    assert Matches(cat, p[0].children[i].sig, buf);
  }

  /** Where the signatures are unique, no node lies strictly below itself. */
  lemma NotBelowItself(n: Node, m: Node)
    requires Unique(Bag(n)) && m in FlattenAll(n.children)
    ensures m != n
  {
    BagUnfold(n);
    InSigs(FlattenAll(n.children), m);
    AtMostOnce(Bag(n), n.sig);
  }

  /** A prefix of a chain is a chain. */
  lemma ChainPrefix(p: seq<Node>, j: nat)
    requires IsChain(p) && 1 <= j <= |p|
    ensures IsChain(p[..j])
  {
    var q := p[..j];
    forall k | 0 <= k < |q| - 1 ensures q[k + 1] in q[k].children {
      assert q[k] == p[k] && q[k + 1] == p[k + 1];
    }
  }
}
