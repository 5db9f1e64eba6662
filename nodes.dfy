/**
 * A node of the classification tree: one rule naming a MIME type, its default
 * extension, the further type strings it answers to, the signature that must
 * pass for the rule to apply, and the more specific rules tried after it.
 *
 * Besides the datatype, this module holds the structural vocabulary the rest
 * of the model speaks in (the preorder listing of a subtree, the multiset of
 * its signatures, its height, descending chains, parent slots) and the general
 * facts relating them. Nothing here depends on the configured tree.
 */
module Nodes {
  import opened Matchers

  /**
   * mime is the canonical type string, extension the default file extension
   * (possibly empty), aliases the other type strings this node answers to,
   * sig the predicate that gates it, and children the more specific nodes in
   * the order in which they are tried.
   */
  datatype Node = Node(mime: string, extension: string, aliases: seq<string>, sig: Sig, children: seq<Node>)

  /**
   * Equivalence is local to a node: s names the node's type when it is the
   * node's canonical string or one of the node's own aliases.
   */
  predicate Is(n: Node, s: string): (r: bool)
    ensures r <==> s == n.mime || exists k | 0 <= k < |n.aliases| :: n.aliases[k] == s
  {
    s == n.mime || s in n.aliases
  }

  // ---------------------------------------------------------------------------
  // Preorder listing and the signatures of a subtree

  /** The nodes of the subtree under n, n first, in preorder. */
  function Flatten(n: Node): (r: seq<Node>)
    ensures |r| >= 1 && r[0] == n
    decreases n
  {
    [n] + FlattenAll(n.children)
  }

  /** The preorder listings of the nodes of cs, one after the other. */
  function FlattenAll(cs: seq<Node>): seq<Node>
    decreases cs
  {
    if |cs| == 0 then [] else Flatten(cs[0]) + FlattenAll(cs[1..])
  }

  /** The signature of each node of ns, position by position. */
  function Sigs(ns: seq<Node>): (r: seq<Sig>)
    ensures |r| == |ns|
    ensures forall i | 0 <= i < |ns| :: r[i] == ns[i].sig
  {
    seq(|ns|, i requires 0 <= i < |ns| => ns[i].sig)
  }

  /** The signatures of the subtree under n, each counted as often as it occurs. */
  function Bag(n: Node): multiset<Sig>
  {
    multiset(Sigs(Flatten(n)))
  }

  /** The signatures of the subtrees under the nodes of cs, with multiplicity. */
  function BagAll(cs: seq<Node>): multiset<Sig>
  {
    multiset(Sigs(FlattenAll(cs)))
  }

  /** No signature occurs twice in b. */
  ghost predicate Unique(b: multiset<Sig>)
  {
    forall s | s in b :: b[s] == 1
  }

  lemma AtMostOnce(b: multiset<Sig>, s: Sig)
    requires Unique(b)
    ensures b[s] <= 1
  {
    if s in b {
      assert b[s] == 1;
    }
  }

  lemma SigsAppend(a: seq<Node>, b: seq<Node>)
    ensures Sigs(a + b) == Sigs(a) + Sigs(b)
  {
  }

  lemma BagUnfold(n: Node)
    ensures Bag(n) == multiset{n.sig} + BagAll(n.children)
  {
    SigsAppend([n], FlattenAll(n.children));
  }

  lemma BagAllUnfold(cs: seq<Node>)
    requires |cs| > 0
    ensures BagAll(cs) == Bag(cs[0]) + BagAll(cs[1..])
  {
    SigsAppend(Flatten(cs[0]), FlattenAll(cs[1..]));
  }

  lemma {:induction false} FlattenAllAppend(a: seq<Node>, b: seq<Node>)
    ensures FlattenAll(a + b) == FlattenAll(a) + FlattenAll(b)
  {
    if |a| == 0 {
      assert a + b == b;
    } else {
      assert (a + b)[1..] == a[1..] + b;
      FlattenAllAppend(a[1..], b);
    }
  }

  lemma BagAllAppend(a: seq<Node>, b: seq<Node>)
    ensures BagAll(a + b) == BagAll(a) + BagAll(b)
  {
    FlattenAllAppend(a, b);
    SigsAppend(FlattenAll(a), FlattenAll(b));
  }

  /** A node listed in ns contributes its signature to the multiset of ns. */
  lemma InSigs(ns: seq<Node>, x: Node)
    requires x in ns
    ensures x.sig in multiset(Sigs(ns))
  {
    var i :| 0 <= i < |ns| && ns[i] == x;
    assert Sigs(ns)[i] == x.sig;
  }

  /**
   * Two different nodes listed in ns with the same signature make that
   * signature occur at least twice.
   */
  lemma {:induction false} TwoInSigs(ns: seq<Node>, x: Node, y: Node)
    requires x in ns && y in ns && x != y
    ensures multiset(Sigs(ns))[x.sig] >= (if x.sig == y.sig then 2 else 1)
  {
    assert ns == [ns[0]] + ns[1..];
    SigsAppend([ns[0]], ns[1..]);
    if ns[0] == x {
      InSigs(ns[1..], y);
    } else if ns[0] == y {
      InSigs(ns[1..], x);
    } else {
      TwoInSigs(ns[1..], x, y);
    }
  }

  /** Every node of the subtree under a child is a node of the forest. */
  lemma {:induction false} ChildFlattenInside(cs: seq<Node>, c: Node, x: Node)
    requires c in cs && x in Flatten(c)
    ensures x in FlattenAll(cs)
  {
    if cs[0] != c {
      ChildFlattenInside(cs[1..], c, x);
    }
  }

  /** The signatures under a child are among those of the forest. */
  lemma {:induction false} ChildBag(cs: seq<Node>, c: Node)
    requires c in cs
    ensures Bag(c) <= BagAll(cs)
  {
    BagAllUnfold(cs);
    if cs[0] != c {
      ChildBag(cs[1..], c);
    }
  }

  /** The subtrees under two different children are counted separately. */
  lemma {:induction false} TwoChildrenBag(cs: seq<Node>, c: Node, d: Node)
    requires c in cs && d in cs && c != d
    ensures Bag(c) + Bag(d) <= BagAll(cs)
  {
    BagAllUnfold(cs);
    if cs[0] == c {
      ChildBag(cs[1..], d);
    } else if cs[0] == d {
      ChildBag(cs[1..], c);
    } else {
      TwoChildrenBag(cs[1..], c, d);
    }
  }

  /** Uniqueness of the signatures of a tree carries over to each child's subtree. */
  lemma UniqueChild(n: Node, c: Node)
    requires Unique(Bag(n)) && c in n.children
    ensures Unique(Bag(c))
  {
    BagUnfold(n);
    ChildBag(n.children, c);
    forall s | s in Bag(c) ensures Bag(c)[s] == 1 {
      assert Bag(c)[s] <= Bag(n)[s];
    }
  }

  /**
   * Where the signatures of a tree are unique, two of its nodes that carry the
   * same signature are the same node.
   */
  lemma SameSigSameNode(n: Node, x: Node, y: Node)
    requires Unique(Bag(n)) && x in Flatten(n) && y in Flatten(n)
    requires x.sig == y.sig
    ensures x == y
  {
    if x != y {
      TwoInSigs(Flatten(n), x, y);
    }
  }

  // ---------------------------------------------------------------------------
  // Height

  /** The number of edges on the longest downward path from n. */
  function Height(n: Node): nat
    decreases n
  {
    if |n.children| == 0 then 0 else 1 + MaxHeight(n.children)
  }

  /** The largest height among the nodes of cs (0 for none). */
  function MaxHeight(cs: seq<Node>): nat
    decreases cs
  {
    if |cs| == 0 then 0
    else if Height(cs[0]) < MaxHeight(cs[1..]) then MaxHeight(cs[1..])
    else Height(cs[0])
  }

  lemma {:induction false} MaxHeightBounds(cs: seq<Node>, c: Node)
    requires c in cs
    ensures Height(c) <= MaxHeight(cs)
  {
    if cs[0] != c {
      MaxHeightBounds(cs[1..], c);
    }
  }

  lemma {:induction false} MaxHeightAtMost(cs: seq<Node>, d: nat)
    requires forall c | c in cs :: Height(c) <= d
    ensures MaxHeight(cs) <= d
  {
    if |cs| > 0 {
      MaxHeightAtMost(cs[1..], d);
    }
  }

  // ---------------------------------------------------------------------------
  // Descending chains

  /** p walks down the tree: every node after the first is a child of the one before it. */
  ghost predicate IsChain(p: seq<Node>)
  {
    |p| >= 1 && forall k | 0 <= k < |p| - 1 :: p[k + 1] in p[k].children
  }

  /** Dropping the first node of a chain leaves a chain. */
  lemma ChainTail(p: seq<Node>)
    requires IsChain(p) && |p| > 1
    ensures IsChain(p[1..])
  {
    var q := p[1..];
    forall k | 0 <= k < |q| - 1 ensures q[k + 1] in q[k].children {
      assert q[k] == p[k + 1] && q[k + 1] == p[k + 2];
    }
  }

  /** The last node of a chain lies in the subtree of its first. */
  lemma {:induction false} ChainInside(p: seq<Node>)
    requires IsChain(p)
    ensures p[|p| - 1] in Flatten(p[0])
  {
    if |p| > 1 {
      ChainTail(p);
      ChainInside(p[1..]);
      ChildFlattenInside(p[0].children, p[1], p[|p| - 1]);
    }
  }

  /**
   * The signature a chain of two or more nodes ends at occurs in the subtree
   * of the child it passes through.
   */
  lemma EndInChild(p: seq<Node>)
    requires IsChain(p) && |p| > 1
    ensures p[|p| - 1].sig in Bag(p[1])
    ensures Bag(p[1]) <= BagAll(p[0].children)
  {
    ChainTail(p);
    ChainInside(p[1..]);
    InSigs(Flatten(p[1]), p[|p| - 1]);
    ChildBag(p[0].children, p[1]);
  }

  /** A chain is never longer than the height of its first node allows. */
  lemma {:induction false} ChainHeight(p: seq<Node>)
    requires IsChain(p)
    ensures |p| <= Height(p[0]) + 1
  {
    if |p| > 1 {
      ChainTail(p);
      ChainHeight(p[1..]);
      MaxHeightBounds(p[0].children, p[1]);
    }
  }

  /**
   * In a tree whose signatures are unique, the chain from the root to a node
   * is determined by that node's signature: two chains from the same node that
   * end at the same signature are the same chain.
   */
  lemma {:induction false} ChainUnique(p: seq<Node>, q: seq<Node>)
    requires IsChain(p) && IsChain(q) && p[0] == q[0]
    requires Unique(Bag(p[0]))
    requires p[|p| - 1].sig == q[|q| - 1].sig
    ensures p == q
    decreases |p| + |q|
  {
    var n := p[0];
    var s := p[|p| - 1].sig;
    BagUnfold(n);
    AtMostOnce(Bag(n), s);
    if |p| == 1 && |q| > 1 {
      EndInChild(q);
    } else if |p| > 1 && |q| == 1 {
      EndInChild(p);
    } else if |p| > 1 && |q| > 1 {
      EndInChild(p);
      EndInChild(q);
      if p[1] != q[1] {
        TwoChildrenBag(n.children, p[1], q[1]);
      } else {
        UniqueChild(n, p[1]);
        ChainTail(p);
        ChainTail(q);
        ChainUnique(p[1..], q[1..]);
        assert p == [n] + p[1..] && q == [n] + q[1..];
      }
    }
  }

  // ---------------------------------------------------------------------------
  // Parent slots

  /**
   * The number of child-list slots anywhere in the subtree under n that hold a
   * node with signature s: how many parents list such a node, counting a
   * parent that lists it twice twice.
   */
  function ParentCount(n: Node, s: Sig): nat
    decreases n
  {
    multiset(Sigs(n.children))[s] + ParentCountAll(n.children, s)
  }

  function ParentCountAll(cs: seq<Node>, s: Sig): nat
    decreases cs
  {
    if |cs| == 0 then 0 else ParentCount(cs[0], s) + ParentCountAll(cs[1..], s)
  }

  /**
   * Every occurrence of a signature in a subtree, except at its top, is one
   * child-list slot of a node of that subtree.
   */
  lemma {:induction false} OccurrencesAreSlots(n: Node, s: Sig)
    ensures Bag(n)[s] == (if n.sig == s then 1 else 0) + ParentCount(n, s)
    decreases n, 1
  {
    BagUnfold(n);
    OccurrencesAreSlotsAll(n.children, s);
  }

  lemma {:induction false} OccurrencesAreSlotsAll(cs: seq<Node>, s: Sig)
    ensures BagAll(cs)[s] == multiset(Sigs(cs))[s] + ParentCountAll(cs, s)
    decreases cs, 0
  {
    if |cs| > 0 {
      BagAllUnfold(cs);
      OccurrencesAreSlots(cs[0], s);
      OccurrencesAreSlotsAll(cs[1..], s);
      SigsCons(cs);
    }
  }

  lemma SigsCons(cs: seq<Node>)
    requires |cs| > 0
    ensures multiset(Sigs(cs)) == multiset{cs[0].sig} + multiset(Sigs(cs[1..]))
  {
    assert cs == [cs[0]] + cs[1..];
    SigsAppend([cs[0]], cs[1..]);
    assert Sigs([cs[0]]) == [cs[0].sig];
  }
}
