/**
 * The traversal session as values: the three state cells of the page
 * (current node id, recorded path, completion flag), the transitions that the
 * option handler and the reset handler perform, and the invariant they keep:
 * the path is a walk from the root to the current node, and the session is
 * complete exactly when the current node is a result.
 */
module Traversal {
  import opened DecisionTree

  /** One recorded answer: the question's node id and the label of the option chosen. */
  datatype PathEntry = PathEntry(nodeId: string, answer: string)

  datatype State = State(currentNodeId: string, path: seq<PathEntry>, isComplete: bool)

  /** The state a session starts in, and the one a reset returns to. */
  function Initial(t: Tree): State
  {
    State(t.rootNodeId, [], false)
  }

  /** What the option handler does: record the current node with the chosen label,
      move to the option's target, and raise the completion flag when the target is a
      result (the flag is never lowered here). The target must resolve: the source
      reads its `type` field. */
  function Select(t: Tree, s: State, optionText: string, nextNodeId: string): State
    requires nextNodeId in t.nodes
  {
    State(nextNodeId,
          s.path + [PathEntry(s.currentNodeId, optionText)],
          if t.nodes[nextNodeId].Result? then true else s.isComplete)
  }

  /** The node that entry `i` of `path` moved to: the next entry's node, or `cur` for
      the last entry. */
  function NextId(path: seq<PathEntry>, cur: string, i: nat): string
    requires i < |path|
  {
    if i + 1 < |path| then path[i + 1].nodeId else cur
  }

  /** Entry `e` names a question of `t` one of whose options carries the recorded
      label and leads to `target`. */
  predicate Leads(t: Tree, e: PathEntry, target: string)
  {
    && e.nodeId in t.nodes
    && t.nodes[e.nodeId].Question?
    && Opt(e.answer, target) in t.nodes[e.nodeId].options
  }

  /** `path` is a walk of `t` from the root that ends at node `cur`. */
  predicate IsWalk(t: Tree, path: seq<PathEntry>, cur: string)
  {
    && cur in t.nodes
    && (if path == [] then cur == t.rootNodeId else path[0].nodeId == t.rootNodeId)
    && forall i :: 0 <= i < |path| ==> Leads(t, path[i], NextId(path, cur, i))
  }

  /** The session invariant. */
  predicate Consistent(t: Tree, s: State)
  {
    && IsWalk(t, s.path, s.currentNodeId)
    && (s.isComplete <==> t.nodes[s.currentNodeId].Result?)
  }

  /** Pressing the button of option `k` of the current question. */
  function Choose(t: Tree, s: State, k: nat): (r: State)
    requires WellFormed(t) && Consistent(t, s)
    requires t.nodes[s.currentNodeId].Question? && k < |t.nodes[s.currentNodeId].options|
    ensures Consistent(t, r)
    ensures r.currentNodeId == t.nodes[s.currentNodeId].options[k].nextNodeId
    ensures r.path == s.path + [PathEntry(s.currentNodeId, t.nodes[s.currentNodeId].options[k].text)]
    ensures r.isComplete <==> t.nodes[r.currentNodeId].Result?
  {
    var o := t.nodes[s.currentNodeId].options[k];
    assert o in t.nodes[s.currentNodeId].options;
    TargetResolves(t, s.currentNodeId, o);
    SelectPreservesConsistency(t, s, o);
    Select(t, s, o.text, o.nextNodeId)
  }

  /** A fresh session satisfies the invariant when the root is a question. */
  lemma InitialConsistent(t: Tree)
    requires WellFormed(t) && t.nodes[t.rootNodeId].Question?
    ensures Consistent(t, Initial(t))
  {
  }

  /** Selecting an option offered by the current question keeps the invariant: the
      walk grows by the step just taken, and the flag follows the new node's kind. */
  lemma SelectPreservesConsistency(t: Tree, s: State, o: Opt)
    requires WellFormed(t) && Consistent(t, s)
    requires t.nodes[s.currentNodeId].Question? && o in t.nodes[s.currentNodeId].options
    ensures o.nextNodeId in t.nodes
    ensures Consistent(t, Select(t, s, o.text, o.nextNodeId))
  {

  }

  /** Every recorded entry of a consistent session names a question of the tree, and
      its answer is the label of one of that question's options: the history list can
      look up each entry's question text. */
  lemma PathEntriesResolve(t: Tree, s: State, i: nat)
    requires Consistent(t, s) && i < |s.path|
    ensures s.path[i].nodeId in t.nodes && t.nodes[s.path[i].nodeId].Question?
    ensures exists o :: o in t.nodes[s.path[i].nodeId].options && o.text == s.path[i].answer
  {

  }

  /** Dropping the last entry of a walk gives a walk to the node that entry names. */
  lemma WalkPrefix(t: Tree, path: seq<PathEntry>, cur: string)
    requires IsWalk(t, path, cur) && |path| > 0
    ensures IsWalk(t, path[..|path| - 1], path[|path| - 1].nodeId)
    ensures Leads(t, path[|path| - 1], cur)
  {

  }

  /** Along a walk the rank drops by at least one per answer, so a walk is never
      longer than the rank of the root, less the rank of where it ends. */
  lemma {:induction false} WalkBound(t: Tree, rank: map<string, nat>, path: seq<PathEntry>, cur: string)
    requires Ranked(t, rank) && IsWalk(t, path, cur)
    ensures t.rootNodeId in rank && cur in rank
    ensures |path| + rank[cur] <= rank[t.rootNodeId]
    decreases |path|
  {
    if path != [] {
      var p := path[..|path| - 1];
      var c := path[|path| - 1].nodeId;
      WalkPrefix(t, path, cur);
      WalkBound(t, rank, p, c);
    }
  }

  /** A consistent session whose path is as long as the root's rank allows has
      reached a result and is complete. */
  lemma CompleteAtFullDepth(t: Tree, rank: map<string, nat>, s: State)
    requires WellFormed(t) && Ranked(t, rank) && Consistent(t, s)
    ensures t.rootNodeId in rank
    ensures |s.path| <= rank[t.rootNodeId]
    ensures |s.path| == rank[t.rootNodeId] ==> s.isComplete
    ensures !s.isComplete ==> |s.path| < rank[t.rootNodeId]
  {
    WalkBound(t, rank, s.path, s.currentNodeId);
    ZeroRankIsResult(t, rank, s.currentNodeId);
  }
}
