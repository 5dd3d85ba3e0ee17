/** The editor-time pass that attaches a platform hazard to every platform
    under a named parent. The scene lookup by name and the recursive child
    query are engine calls: the pass receives their answer, the parent's
    id and the flattened list of the parent and all its descendants. */
module AutoAddHazards {
  import opened Common

  type NodeId = nat

  /** One scene object of the flattened list: whether it has a collider
      and whether it already has a hazard component. */
  datatype Node = Node(id: NodeId, hasCollider: bool, hasHazard: bool)

  /** The parent found by name and the list the child query returns; the
      parent is one of the entries. */
  datatype Tree = Tree(root: NodeId, nodes: seq<Node>)

  /** An entry the pass acts on: not the parent, and with a collider. */
  predicate Eligible(n: Node, root: NodeId) {
    n.id != root && n.hasCollider
  }

  predicate Missing(n: Node, root: NodeId) {
    Eligible(n, root) && !n.hasHazard
  }

  predicate Present(n: Node, root: NodeId) {
    Eligible(n, root) && n.hasHazard
  }

  /** How many entries of `s` satisfy `p`. */
  function CountIf(s: seq<Node>, p: Node -> bool): nat
    decreases |s|
  {
    if |s| == 0 then 0 else CountIf(s[..|s| - 1], p) + (if p(s[|s| - 1]) then 1 else 0)
  }

  /** The reference outcome for one entry: an eligible entry ends with a
      hazard, anything else is left as it was. */
  function Attach(n: Node, root: NodeId): (r: Node)
    ensures r.id == n.id && r.hasCollider == n.hasCollider
    ensures Eligible(n, root) ==> r.hasHazard
    ensures !Eligible(n, root) ==> r == n
    ensures n.hasHazard ==> r == n
  {
    if Eligible(n, root) then n.(hasHazard := true) else n
  }

  function AttachAll(s: seq<Node>, root: NodeId): (r: seq<Node>)
    ensures |r| == |s|
    ensures forall k :: 0 <= k < |s| ==> r[k] == Attach(s[k], root)
  {
    seq(|s|, k requires 0 <= k < |s| => Attach(s[k], root))
  }

  /** The pass. Without a parent nothing happens and every counter is
      zero. Otherwise every eligible entry ends with a hazard, every other
      entry (the parent and collider-less objects) is untouched, `total`
      counts every entry including the parent, `added` counts the eligible
      entries that lacked a hazard and `skipped` those that had one. */
  method AddHazardsToAllPlatforms(found: Option<Tree>)
    returns (updated: Option<seq<Node>>, added: nat, skipped: nat, total: nat)
    ensures found.None? ==> updated.None? && added == 0 && skipped == 0 && total == 0
    ensures found.Some? ==>
      var root := found.value.root;
      var nodes := found.value.nodes;
      && updated.Some? && |updated.value| == |nodes|
      && (forall k :: 0 <= k < |nodes| ==>
            updated.value[k].id == nodes[k].id && updated.value[k].hasCollider == nodes[k].hasCollider)
      && (forall k :: 0 <= k < |nodes| && Eligible(nodes[k], root) ==> updated.value[k].hasHazard)
      && (forall k :: 0 <= k < |nodes| && !Eligible(nodes[k], root) ==> updated.value[k] == nodes[k])
      && updated.value == AttachAll(nodes, root)
      && total == |nodes|
      && added == CountIf(nodes, n => Missing(n, root))
      && skipped == CountIf(nodes, n => Present(n, root))
  {
    added, skipped, total := 0, 0, 0;
    if found.None? {
      return None, added, skipped, total;
    }
    var root := found.value.root;
    var nodes := found.value.nodes;
    var current := nodes;
    var i := 0;
    while i < |nodes|
      invariant 0 <= i <= |nodes|
      invariant |current| == |nodes| && total == i
      invariant forall k :: 0 <= k < i ==> current[k] == Attach(nodes[k], root)
      invariant forall k :: i <= k < |nodes| ==> current[k] == nodes[k]
      invariant added == CountIf(nodes[..i], n => Missing(n, root))
      invariant skipped == CountIf(nodes[..i], n => Present(n, root))
    {
      assert nodes[..i + 1][..i] == nodes[..i];
      total := total + 1;
      var child := current[i];
      if child.id != root && child.hasCollider {
        if !child.hasHazard {
          current := current[i := child.(hasHazard := true)];
          added := added + 1;
        } else {
          skipped := skipped + 1;
        }
      }
      i := i + 1;
    }
    assert nodes[..i] == nodes;
    assert current == AttachAll(nodes, root);
    updated := Some(current);
  }

  /** Counting the eligible entries is counting those missing a hazard
      plus those that have one. */
  lemma {:induction false} EligibleSplits(s: seq<Node>, root: NodeId)
    ensures CountIf(s, n => Eligible(n, root))
      == CountIf(s, n => Missing(n, root)) + CountIf(s, n => Present(n, root))
    decreases |s|
  {
    if |s| > 0 {
      EligibleSplits(s[..|s| - 1], root);
    }
  }

  /** After the pass no eligible entry lacks a hazard and the eligible
      entries are the same ones as before. */
  lemma {:induction false} AttachAllCounts(s: seq<Node>, root: NodeId)
    ensures CountIf(AttachAll(s, root), n => Missing(n, root)) == 0
    ensures CountIf(AttachAll(s, root), n => Present(n, root)) == CountIf(s, n => Eligible(n, root))
    decreases |s|
  {
    if |s| > 0 {
      var t := s[..|s| - 1];
      assert AttachAll(s, root)[..|s| - 1] == AttachAll(t, root);
      AttachAllCounts(t, root);
    }
  }

  /** `added + skipped` is the number of eligible entries; running the
      pass a second time adds nothing, skips every eligible entry and
      leaves the list as the first run left it. */
  method SecondPassChangesNothing(tree: Tree) returns (first: seq<Node>, second: seq<Node>, added2: nat, skipped2: nat)
    ensures second == first
    ensures added2 == 0
    ensures skipped2 == CountIf(tree.nodes, n => Eligible(n, tree.root))
  {
    var u1, a1, s1, t1 := AddHazardsToAllPlatforms(Some(tree));
    EligibleSplits(tree.nodes, tree.root);
    first := u1.value;
    var u2, a2, s2, t2 := AddHazardsToAllPlatforms(Some(Tree(tree.root, first)));
    AttachAllCounts(tree.nodes, tree.root);
    second := u2.value;
    assert second == AttachAll(first, tree.root);
    assert forall k :: 0 <= k < |first| ==> Attach(first[k], tree.root) == first[k];
    added2, skipped2 := a2, s2;
  }

  /** The two counters of one run add up to the eligible entries. */
  lemma CountersCoverEligible(s: seq<Node>, root: NodeId, added: nat, skipped: nat)
    requires added == CountIf(s, n => Missing(n, root))
    requires skipped == CountIf(s, n => Present(n, root))
    ensures added + skipped == CountIf(s, n => Eligible(n, root))
  {
    EligibleSplits(s, root);
  }
}
