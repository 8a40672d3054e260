# Issue-escalation decision tree: a Dafny model

The system is a single page that walks a user through a fixed questionnaire
deciding whether an issue should be escalated to management. A question node
offers answer buttons. Each button records the answer and moves to the option's
target. A result node shows a verdict ("escalate" or "handle") and a "Start
Over" button.

This project models the core of that page:

- `decision_tree.dfy` (module `DecisionTree`): the `DecisionTreeNode` and
  `DecisionTree` record types as datatypes. A node is a tagged variant:
  `Question` (prompt, optional help text, options) or `Result` (verdict, title,
  description, next steps). The module also defines well-formedness (the root
  resolves; every node carries its own key as `id`; every question has at least
  one option; every option target resolves). It defines distinct option targets
  per question, and a ranking: a height that drops along every option.
- `traversal.dfy` (module `Traversal`): the session state as a value
  (`currentNodeId`, `path`, `isComplete`) and the two transitions: `Select`
  (the option handler) and `Initial` (the start state, also the reset
  state). It defines the session invariant `Consistent`: the path is a walk
  from the root to the current node, and the session is complete exactly when
  the current node is a result. It also has the lemmas that the transitions
  keep this invariant and that a ranking bounds the length of every walk.
- `escalation_tree.dfy` (module `EscalationTree`): the questionnaire itself,
  with nine questions and two results rooted at `q1`. `Questionnaire(w)` fixes
  the structure: ids, node kinds, option order and targets, verdicts.
  `EnglishWording` holds every text of the tree except the "Yes"/"No" labels,
  its id and its version, which are literals in `Questionnaire`. The page's
  header and footer texts are not modelled. `MockDecisionTree` is the two
  combined. The structural facts are proved for every wording. They hold for
  the page's tree: it is well formed, its options have distinct targets, and
  every walk reaches a result within three answers.
- `home.dfy` (module `Home`): class `Session` holds the page component's three
  state cells as fields. It has the option handler, the answer button that
  invokes it, and the reset handler. Each is a method whose contract ties the
  new state to the pure transitions. The constructor, the button and the reset
  handler establish or keep the session invariant. The option handler keeps it
  when it is given an option that the current question offers, which is the
  only way the page calls it.
- `wrappers.dfy`: `Option`, for the optional `help_text`.

## Model

| member | source | states |
|---|---|---|
| `DecisionTree.TargetResolves` | decision-tree-app/src/pages/index.tsx:205-212 | In a well-formed tree, the target of every option of a question is a node, so the lookup of the target's type never misses |
| `DecisionTree.ZeroRankIsResult` | decision-tree-app/src/pages/index.tsx:253-264 | In a well-formed ranked tree, a question has positive rank (it always offers a way on), so a node of rank zero is a result |
| `Traversal.Choose` | decision-tree-app/src/pages/index.tsx:260-264 | Pressing option k of the current question keeps the session invariant. The new current node is that option's target. The path is the old path plus one entry: the previous node and the option's label. The session is complete exactly when the new node is a result |
| `Traversal.InitialConsistent` | decision-tree-app/src/pages/index.tsx:199-201 | The initial state (root, empty path, not complete) satisfies the session invariant when the root is a question |
| `Traversal.SelectPreservesConsistency` | decision-tree-app/src/pages/index.tsx:205-212 | Selecting an option that the current question offers keeps the session invariant. The walk is extended by that step. The completion flag matches the new node's kind, although the handler only ever raises it |
| `Traversal.PathEntriesResolve` | decision-tree-app/src/pages/index.tsx:325-331 | In a consistent session, every path entry names a question of the tree, and its answer is the label of one of that question's options. So the history list's lookup of each entry never misses |
| `Traversal.WalkPrefix` | decision-tree-app/src/pages/index.tsx:206-207 | Removing the last entry of a walk gives a walk to the node that entry names, and that entry leads to the walk's end |
| `Traversal.WalkBound` | decision-tree-app/src/pages/index.tsx:206-207 | Along any walk from the root, the rank drops by at least one per answer. So path length plus the rank of the current node is at most the root's rank |
| `Traversal.CompleteAtFullDepth` | decision-tree-app/src/pages/index.tsx:209-211 | A consistent session has at most root-rank answers. With exactly that many it is complete. While incomplete it has fewer |
| `EscalationTree.QuestionnaireKeys` | decision-tree-app/src/pages/index.tsx:13-195 | The node map has exactly the eleven ids q1 … r2_handle |
| `EscalationTree.RootFacts` | decision-tree-app/src/pages/index.tsx:14-37 | Node q1 is a question. Its four options lead to distinct, existing nodes of smaller rank |
| `EscalationTree.SecondLevelFacts` | decision-tree-app/src/pages/index.tsx:38-131 | q2_critical, q2_high and q2_medium are well formed. Their options lead to distinct, existing nodes of smaller rank |
| `EscalationTree.ThirdLevelFacts` | decision-tree-app/src/pages/index.tsx:53-161 | The five third-level questions are well formed. Their options lead to distinct, existing nodes of smaller rank |
| `EscalationTree.ResultFacts` | decision-tree-app/src/pages/index.tsx:162-194 | The two result nodes carry their own ids |
| `EscalationTree.QuestionnaireNode` | decision-tree-app/src/pages/index.tsx:13-195 | Every node of the questionnaire, whatever its wording, is well formed. It lowers the rank along each option, and its options have distinct targets |
| `EscalationTree.QuestionnaireShape` | decision-tree-app/src/pages/index.tsx:7-196 | For every wording, the questionnaire is well formed. The root q1 is a question of rank three, every option lowers the rank, and no question has two options with the same target |
| `EscalationTree.MockTreeWalkable` | decision-tree-app/src/pages/index.tsx:7-196 | The page's tree is well formed, starts with a question, and is ranked with root rank three. Within each question the next_node_id values (the button keys) are pairwise distinct |
| `EscalationTree.SessionDepth` | decision-tree-app/src/pages/index.tsx:239-245 | A session on the tree has at most three answers, which stays under the progress bar's divisor of five. While incomplete, the question number shown (path length + 1) is at most three. Three answers mean complete |
| `EscalationTree.CriticalAcrossTeamsEscalates` | decision-tree-app/src/pages/index.tsx:14-177 | Answering "Critical" and then "Yes" ends complete at r1_escalate with verdict escalate, and records the path [q1: Critical…, q2_critical: Yes] |
| `EscalationTree.LongestWalkHandles` | decision-tree-app/src/pages/index.tsx:14-194 | "Critical", "No", "Yes" ends complete at r2_handle after three answers, so the bound of three is reached |
| `Home.Session.constructor` | decision-tree-app/src/pages/index.tsx:199-201 | A new session is on the page's tree, at its root, with an empty path, not complete, and satisfies the invariant |
| `Home.Session.CurrentNode` | decision-tree-app/src/pages/index.tsx:203 | In every valid session, the current node lookup finds the node with that id, and that node is a result exactly when the session is complete |
| `Home.Session.HandleOptionSelect` | decision-tree-app/src/pages/index.tsx:205-212 | The path gains exactly one entry (the previous current node, the option text), and all earlier entries are unchanged. The current node becomes the given target. The flag is raised if the target is a result and otherwise left as it was. Given an option the current question of a valid session offers, the session stays valid |
| `Home.Session.ChooseOption` | decision-tree-app/src/pages/index.tsx:260-264 | Pressing option k of the current question runs the handler with that option's text and next_node_id. The session stays valid, the new state is `Choose` of the old one, and at most three answers are recorded |
| `Home.Session.HandleReset` | decision-tree-app/src/pages/index.tsx:214-218 | From any valid state, however deep: back to the root, empty path, not complete, and still valid |

## Modelling choices

- The page has no validation step for the tree and no path that rejects an
  answer. Answer buttons exist only for the options of the question on
  screen, and only while the current node is a question
  (decision-tree-app/src/pages/index.tsx:253-264). So `ChooseOption` requires
  the current node to be a question and `k` to index one of its options,
  which is exactly the set of buttons on screen. Well-formedness is a
  predicate proved of the fixed tree, not a run-time check.
- The record types let any node carry any optional field. The model uses a
  tagged variant: a question has a prompt, optional help text and options; a
  result has a verdict, title, description and next steps. Every node of the
  page's tree fits one of the two.
- The rank map `MockRank` is not in the source. It is a proof device that
  gives each node the largest number of answers still to give from it.

## Left out

- Home.Session.HandleOptionSelect: requires the target to be a node of the
  tree. The handler reads `nodes[nextNodeId].type`
  (decision-tree-app/src/pages/index.tsx:209), which throws a TypeError when
  the id is missing; the crash is not modelled. On the page's tree it cannot
  happen: every button passes an option's own target, which
  `DecisionTree.TargetResolves` shows is a node.
- Traversal.Select: the same precondition, for the same reason.
- `createClient`, the environment-variable checks, `fetchDecisionTree` and
  `saveDecisionPath` (decision-tree-app/src/lib/supabase.ts:1-10, 36-80): network
  calls to an external database, asynchronous, with console logging. They are
  not part of this model.
- All rendering: the page head, markup, CSS classes, the arrow icon, the
  colour chosen by verdict, the list of next steps. Only the node lookups and
  the question/result split that rendering relies on are modelled
  (`CurrentNode`, `PathEntriesResolve`).
- The progress bar's width `(path.length / 5) * 100%` is floating-point
  presentation. It is stated as the integer bound `|path| <= 3 < 5` in
  `SessionDepth`.
- The footer year reads the clock.
- React's asynchronous state batching: each handler is modelled as one atomic
  update of the three fields.
