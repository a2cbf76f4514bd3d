/**
 * The content hierarchy the subscription add-on works on: every node has a
 * kind and, except the root, exactly one parent. Acquisition (`aq_parent`)
 * becomes an explicit parent map; a depth map gives the measure that makes
 * every walk toward the root terminate.
 */
module ContentTree {

  /** Content identifiers; `get_content_id` and `get_content_from_id` are the identity here. */
  type NodeId = nat

  /**
   * Asset nodes (files, images) have no subscription manager; content and
   * containers use the ordinary adapter; the root uses the root adapter.
   */
  datatype Kind = Asset | Content | Container | Root

  datatype Tree = Tree(
    root: NodeId,
    parent: map<NodeId, NodeId>,
    kind: map<NodeId, Kind>,
    depth: map<NodeId, nat>)

  /** Only containers and the root can hold other nodes. */
  predicate IsFolderish(k: Kind) {
    k == Container || k == Root
  }

  /**
   * The root is a node of kind Root and has no parent; every node has a
   * depth, and every node other than the root is not of kind Root and has a
   * parent that is a container or the root and lies strictly closer to the
   * root.
   */
  ghost predicate WellFormed(t: Tree) {
    && t.root in t.kind && t.kind[t.root] == Root
    && t.root !in t.parent
    && forall n :: IsNode(t, n) ==> NodeLinked(t, n)
  }

  /** The conditions WellFormed places on one node. */
  ghost predicate NodeLinked(t: Tree, n: NodeId)
    requires n in t.kind
  {
    && n in t.depth
    && (n != t.root ==>
          && t.kind[n] != Root
          && n in t.parent
          && t.parent[n] in t.kind
          && t.parent[n] in t.depth
          && IsFolderish(t.kind[t.parent[n]])
          && t.depth[t.parent[n]] < t.depth[n])
  }

  /**
   * Membership in the tree. Stated apart from `n in t.kind` so that the
   * clauses of WellFormed are only used for nodes a proof asks about, not for
   * every ancestor it can name.
   */
  predicate IsNode(t: Tree, n: NodeId) {
    n in t.kind
  }

  /** `ISubscriptionManager(node, None)` is not None. */
  predicate HasManager(t: Tree, n: NodeId) {
    IsNode(t, n) && t.kind[n] != Asset
  }

  /** Every element of `c` is a node of `t` that has a subscription manager. */
  ghost predicate AllManaged(t: Tree, c: seq<NodeId>) {
    forall i :: 0 <= i < |c| ==> HasManager(t, c[i])
  }

  /** The path from `n` up to the root, `n` first and the root last. */
  function Chain(t: Tree, n: NodeId): (c: seq<NodeId>)
    requires WellFormed(t) && IsNode(t, n)
    decreases t.depth[n]
    ensures |c| >= 1 && c[0] == n && c[|c| - 1] == t.root
    ensures forall i :: 0 <= i < |c| ==> c[i] in t.kind
    ensures forall i :: 0 < i < |c| ==> IsFolderish(t.kind[c[i]])
  {
    if n == t.root then [n] else [n] + Chain(t, t.parent[n])
  }

  /** Along the chain of a node that has a manager, every node has one. */
  lemma ChainManaged(t: Tree, n: NodeId)
    requires WellFormed(t) && HasManager(t, n)
    ensures AllManaged(t, Chain(t, n))
  {
    var c := Chain(t, n);
    forall i | 0 <= i < |c| ensures HasManager(t, c[i]) {
      if i > 0 { assert IsFolderish(t.kind[c[i]]); }
    }
  }
}
