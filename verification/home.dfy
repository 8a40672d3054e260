/**
 * The page component's session: its three state cells and the two handlers that
 * change them, invoked by an answer button of the current question and by the
 * "Start Over" button of a result.
 */
module Home {
  import opened DecisionTree
  import opened Traversal
  import opened EscalationTree

  class Session {
    /** The tree walked: the escalation questionnaire, fixed for the session. */
    const tree: Tree
    var currentNodeId: string
    var path: seq<PathEntry>
    var isComplete: bool

    /** The three state cells as one value. */
    function Snapshot(): State
      reads this
    {
      State(currentNodeId, path, isComplete)
    }

    predicate Valid()
      reads this
    {
      Walkable(tree) && Consistent(tree, Snapshot())
    }

    /** A session starts at the root with nothing recorded and not complete. */
    constructor ()
      ensures tree == MockDecisionTree
      ensures Snapshot() == Initial(tree)
      ensures Valid()
    {
      tree := MockDecisionTree;
      currentNodeId := MockDecisionTree.rootNodeId;
      path := [];
      isComplete := false;
      MockTreeWalkable();
      InitialConsistent(MockDecisionTree);
    }

    /** The node rendered: found for every reachable state, and a result exactly when
        the session is complete. */
    function CurrentNode(): (n: Node)
      reads this
      requires Valid()
      ensures n.id == currentNodeId
      ensures n.Result? <==> isComplete
    {
      assert NodeWellFormed(tree, currentNodeId);
      tree.nodes[currentNodeId]
    }

    /** The option handler, given the label and the target of the option chosen. When
        that option is one the current question offers, the session stays valid. */
    method HandleOptionSelect(optionText: string, nextNodeId: string)
      requires nextNodeId in tree.nodes
      modifies this
      ensures Snapshot() == Select(tree, old(Snapshot()), optionText, nextNodeId)
      ensures path == old(path) + [PathEntry(old(currentNodeId), optionText)]
      ensures currentNodeId == nextNodeId
      ensures (old(Valid()) && old(CurrentNode()).Question?
               && Opt(optionText, nextNodeId) in old(CurrentNode()).options) ==> Valid()
    {
      if Valid() && CurrentNode().Question? && Opt(optionText, nextNodeId) in CurrentNode().options {
        SelectPreservesConsistency(tree, Snapshot(), Opt(optionText, nextNodeId));
      }
      path := path + [PathEntry(currentNodeId, optionText)];
      currentNodeId := nextNodeId;
      if tree.nodes[nextNodeId].Result? {
        isComplete := true;
      }
    }

    /** Pressing the button of option `k` of the current question: the walk grows by
        that step, the session stays valid, and at most three answers are recorded. */
    method ChooseOption(k: nat)
      requires Valid()
      requires CurrentNode().Question? && k < |CurrentNode().options|
      modifies this
      ensures Valid()
      ensures Snapshot() == Choose(tree, old(Snapshot()), k)
      ensures currentNodeId == old(CurrentNode()).options[k].nextNodeId
      ensures path == old(path) + [PathEntry(old(currentNodeId), old(CurrentNode()).options[k].text)]
      ensures isComplete <==> CurrentNode().Result?
      ensures |path| <= 3
    {
      var o := CurrentNode().options[k];
      ghost var before := Snapshot();
      assert o in tree.nodes[currentNodeId].options;
      TargetResolves(tree, currentNodeId, o);
      HandleOptionSelect(o.text, o.nextNodeId);
      assert Snapshot() == Choose(tree, before, k);
      SessionDepth(tree, Snapshot());
    }

    /** The reset handler: back to the root, nothing recorded, not complete, however
        far the session had gone. */
    method HandleReset()
      requires Valid()
      modifies this
      ensures Valid()
      ensures Snapshot() == Initial(tree)
    {
      currentNodeId := tree.rootNodeId;
      path := [];
      isComplete := false;
      InitialConsistent(tree);
    }
  }
}
