/**
 * The shape of a decision tree: the `DecisionTreeNode` and `DecisionTree`
 * record types, with the question/result split made a tagged variant, and the
 * structural conditions under which every node lookup of a traversal succeeds.
 */
module DecisionTree {
  import opened Wrappers

  /** The recommendation of a result node (its `result` field). */
  datatype Verdict = Escalate | Handle

  /** One answer button of a question: the label shown and the node it leads to. */
  datatype Opt = Opt(text: string, nextNodeId: string)

  datatype Node =
    | Question(id: string, text: string, helpText: Option<string>, options: seq<Opt>)
    | Result(id: string, text: string, verdict: Verdict, title: string,
             description: string, nextSteps: seq<string>)

  datatype Tree = Tree(treeId: string, name: string, description: string, version: string,
                       rootNodeId: string, nodes: map<string, Node>)

  /** A node's own conditions: it carries its key as `id`, and a question offers
      at least one option, each leading to a node of the tree. */
  predicate NodeWellFormed(t: Tree, id: string)
    requires id in t.nodes
  {
    var n := t.nodes[id];
    && n.id == id
    && (n.Question? ==>
          && |n.options| > 0
          && forall k :: 0 <= k < |n.options| ==> n.options[k].nextNodeId in t.nodes)
  }

  /** The root resolves, and every node is well formed. */
  predicate WellFormed(t: Tree)
  {
    && t.rootNodeId in t.nodes
    && forall id :: id in t.nodes ==> NodeWellFormed(t, id)
  }

  /** The options of a question lead to pairwise distinct nodes (they serve as keys
      of the rendered buttons). */
  predicate DistinctTargets(n: Node)
  {
    n.Question? ==>
      forall j, k :: 0 <= j < k < |n.options| ==> n.options[j].nextNodeId != n.options[k].nextNodeId
  }

  /** Node `id` has a rank, and each of its options leads to a node of smaller rank. */
  predicate RankDrops(t: Tree, rank: map<string, nat>, id: string)
    requires id in t.nodes
  {
    && id in rank
    && (t.nodes[id].Question? ==>
          forall k :: 0 <= k < |t.nodes[id].options| ==>
            var next := t.nodes[id].options[k].nextNodeId;
            next in rank && rank[next] < rank[id])
  }

  /** `rank` gives every node a height that strictly drops along every option: an
      upper bound on the number of answers still to give from that node. */
  predicate Ranked(t: Tree, rank: map<string, nat>)
  {
    forall id :: id in t.nodes ==> RankDrops(t, rank, id)
  }

  /** Choosing any option of a question of a well-formed tree finds its target. */
  lemma TargetResolves(t: Tree, id: string, o: Opt)
    requires WellFormed(t) && id in t.nodes && t.nodes[id].Question?
    requires o in t.nodes[id].options
    ensures o.nextNodeId in t.nodes
  {

  }

  /** In a well-formed ranked tree, a node of rank zero offers no way on: it is a result. */
  lemma ZeroRankIsResult(t: Tree, rank: map<string, nat>, id: string)
    requires WellFormed(t) && Ranked(t, rank) && id in t.nodes
    ensures t.nodes[id].Question? ==> rank[id] > 0
  {
    var n := t.nodes[id];
    if n.Question? {
      assert NodeWellFormed(t, id) && RankDrops(t, rank, id);
      var o := n.options[0];
      assert o in n.options;
    }
  }
}
