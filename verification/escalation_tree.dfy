/**
 * The issue-escalation questionnaire the page walks: nine questions and two
 * results, rooted at `q1`, and the facts about it that make every lookup of a
 * session succeed and bound its length.
 */
module EscalationTree {
  import opened Wrappers
  import opened DecisionTree
  import opened Traversal

  const Q1: string := "q1"
  const Q2Critical: string := "q2_critical"
  const Q3Critical: string := "q3_critical"
  const Q2High: string := "q2_high"
  const Q3HighUrgent: string := "q3_high_urgent"
  const Q3HighNormal: string := "q3_high_normal"
  const Q2Medium: string := "q2_medium"
  const Q3Medium: string := "q3_medium"
  const Q3Low: string := "q3_low"
  const R1Escalate: string := "r1_escalate"
  const R2Handle: string := "r2_handle"

  /** The wording of a result node. */
  datatype ResultWording = ResultWording(text: string, title: string, description: string,
                                         nextSteps: seq<string>)

  /** Every text of the questionnaire other than its id, its version and the plain
      "Yes"/"No" labels: the tree's name and description, the prompt of each question, the labels of the multiple-choice options, and the
      wording of the two results. */
  datatype Wording = Wording(
    name: string, description: string,
    severity: string, severityHelp: string,
    critical: string, high: string, medium: string, low: string,
    multipleTeams: string, authority: string,
    timeSensitive: string, resources: string, keyClient: string,
    occurredBefore: string, frequently: string, rarely: string, firstTime: string,
    couldGrow: string, pattern: string,
    escalate: ResultWording, handle: ResultWording)

  /** The questionnaire's structure (node ids, kinds, option order and targets,
      verdicts) filled in with the texts of `w`. */
  function Questionnaire(w: Wording): Tree
  {
    Tree("escalation_decision_tree_v1", w.name, w.description, "1.0",
         Q1,
         map[
           Q1 := Question(Q1, w.severity, Some(w.severityHelp),
                   [Opt(w.critical, Q2Critical), Opt(w.high, Q2High),
                    Opt(w.medium, Q2Medium), Opt(w.low, Q3Low)]),
           Q2Critical := Question(Q2Critical, w.multipleTeams, None,
                           [Opt("Yes", R1Escalate), Opt("No", Q3Critical)]),
           Q3Critical := Question(Q3Critical, w.authority, None,
                           [Opt("Yes", R2Handle), Opt("No", R1Escalate)]),
           Q2High := Question(Q2High, w.timeSensitive, None,
                       [Opt("Yes", Q3HighUrgent), Opt("No", Q3HighNormal)]),
           Q3HighUrgent := Question(Q3HighUrgent, w.resources, None,
                             [Opt("Yes", R2Handle), Opt("No", R1Escalate)]),
           Q3HighNormal := Question(Q3HighNormal, w.keyClient, None,
                             [Opt("Yes", R1Escalate), Opt("No", R2Handle)]),
           Q2Medium := Question(Q2Medium, w.occurredBefore, None,
                         [Opt(w.frequently, R1Escalate), Opt(w.rarely, R2Handle),
                          Opt(w.firstTime, Q3Medium)]),
           Q3Medium := Question(Q3Medium, w.couldGrow, None,
                         [Opt("Yes", R1Escalate), Opt("No", R2Handle)]),
           Q3Low := Question(Q3Low, w.pattern, None,
                      [Opt("Yes", R1Escalate), Opt("No", R2Handle)]),
           R1Escalate := Result(R1Escalate, w.escalate.text, Escalate, w.escalate.title,
                           w.escalate.description, w.escalate.nextSteps),
           R2Handle := Result(R2Handle, w.handle.text, Handle, w.handle.title,
                         w.handle.description, w.handle.nextSteps)
         ])
  }

  const EnglishWording: Wording := Wording(
    "Issue Escalation Decision Tree",
    "Determines whether an issue should be escalated to management",
    "What is the severity level of the issue?",
    "Consider the impact on business operations, customers, or employees",
    "Critical - Severe impact on business operations",
    "High - Significant impact but workarounds exist",
    "Medium - Limited impact on specific functions",
    "Low - Minimal impact, mostly inconvenience",
    "Is the issue affecting multiple departments or teams?",
    "Do you have the authority to resolve this issue?",
    "Is this issue time-sensitive (needs resolution within 24 hours)?",
    "Do you have all the resources needed to resolve this issue?",
    "Does this issue involve a key client or high-value project?",
    "Has this issue occurred before?",
    "Yes, frequently",
    "Yes, but rarely",
    "No, this is the first time",
    "Could this issue potentially grow in severity if not addressed properly?",
    "Is this issue part of a pattern of similar issues?",
    ResultWording(
      "Based on your responses, this issue should be escalated to management after attempting direct resolution.",
      "Escalate to Management",
      "This issue requires management attention due to its severity, scope, or the authority needed to resolve it. However, it's important to first attempt direct communication with relevant parties before formal escalation.",
      [ "Attempt to contact the person or team directly responsible",
        "Document the issue details thoroughly, including your resolution attempts",
        "Prepare relevant data, evidence, and business impact assessment",
        "Contact your direct manager with a clear summary of the situation",
        "Be prepared to explain why the issue cannot be resolved at your level",
        "Schedule a meeting if necessary, with a proposed agenda" ]),
    ResultWording(
      "Based on your responses, this issue can be handled at your level without management escalation.",
      "Handle at Current Level",
      "This issue can be addressed without management escalation. Taking ownership of the resolution demonstrates initiative and helps maintain efficient workflow within the organization.",
      [ "Develop a clear plan for resolving the issue",
        "Communicate with all affected stakeholders about your approach",
        "Document your resolution process thoroughly",
        "Set a realistic deadline for resolution and track your progress",
        "Keep relevant team members informed of your progress",
        "Consider if this issue reveals any process improvements that could prevent similar issues",
        "Follow up after resolution to ensure the solution is working" ]))

  /** The tree the page walks. */
  const MockDecisionTree: Tree := Questionnaire(EnglishWording)

  /** The most answers still to give from each node. */
  const MockRank: map<string, nat> := map[
    Q1 := 3,
    Q2Critical := 2, Q2High := 2, Q2Medium := 2,
    Q3Critical := 1, Q3HighUrgent := 1, Q3HighNormal := 1, Q3Medium := 1, Q3Low := 1,
    R1Escalate := 0, R2Handle := 0
  ]

  /** The rank of each node, read off the map. */
  lemma MockRankValues()
    ensures Q1 in MockRank && MockRank[Q1] == 3
    ensures Q2Critical in MockRank && MockRank[Q2Critical] == 2
    ensures Q2High in MockRank && MockRank[Q2High] == 2
    ensures Q2Medium in MockRank && MockRank[Q2Medium] == 2
    ensures Q3Critical in MockRank && MockRank[Q3Critical] == 1
    ensures Q3HighUrgent in MockRank && MockRank[Q3HighUrgent] == 1
    ensures Q3HighNormal in MockRank && MockRank[Q3HighNormal] == 1
    ensures Q3Medium in MockRank && MockRank[Q3Medium] == 1
    ensures Q3Low in MockRank && MockRank[Q3Low] == 1
    ensures R1Escalate in MockRank && MockRank[R1Escalate] == 0
    ensures R2Handle in MockRank && MockRank[R2Handle] == 0
  {
  }

  /** The node ids of the questionnaire. */
  lemma QuestionnaireKeys(w: Wording)
    ensures Questionnaire(w).nodes.Keys ==
      {Q1, Q2Critical, Q3Critical, Q2High, Q3HighUrgent, Q3HighNormal, Q2Medium, Q3Medium, Q3Low,
       R1Escalate, R2Handle}
  {
  }

  /** What is proved of each node of the questionnaire: it is well formed, its
      options lead to nodes of smaller rank and to pairwise distinct nodes. */
  predicate NodeFacts(w: Wording, id: string)
    requires id in Questionnaire(w).nodes
  {
    && NodeWellFormed(Questionnaire(w), id)
    && RankDrops(Questionnaire(w), MockRank, id)
    && DistinctTargets(Questionnaire(w).nodes[id])
  }

  // The node facts are proved one level of the questionnaire at a time, which keeps
  // each proof's case analysis over the string ids small.

  /** The severity question q1. */
  lemma RootFacts(w: Wording)
    ensures Q1 in Questionnaire(w).nodes && NodeFacts(w, Q1)
  {
    MockRankValues();
  }

  /** The follow-up questions for critical, high and medium severity. */
  lemma SecondLevelFacts(w: Wording, id: string)
    requires id == Q2Critical || id == Q2High || id == Q2Medium
    ensures id in Questionnaire(w).nodes && NodeFacts(w, id)
  {
    MockRankValues();
  }

  /** The last questions before a verdict. */
  lemma ThirdLevelFacts(w: Wording, id: string)
    requires id == Q3Critical || id == Q3HighUrgent || id == Q3HighNormal || id == Q3Medium || id == Q3Low
    ensures id in Questionnaire(w).nodes && NodeFacts(w, id)
  {
    MockRankValues();
  }

  /** The two verdicts. */
  lemma ResultFacts(w: Wording, id: string)
    requires id == R1Escalate || id == R2Handle
    ensures id in Questionnaire(w).nodes && NodeFacts(w, id)
  {
    MockRankValues();
  }

  /** The facts about one node, whatever the wording. */
  lemma QuestionnaireNode(w: Wording, id: string)
    requires id in Questionnaire(w).nodes
    ensures NodeFacts(w, id)
  {
    QuestionnaireKeys(w);
    if id == Q1 {
      RootFacts(w);
    } else if id == Q2Critical || id == Q2High || id == Q2Medium {
      SecondLevelFacts(w, id);
    } else if id == R1Escalate || id == R2Handle {
      ResultFacts(w, id);
    } else {
      ThirdLevelFacts(w, id);
    }
  }

  /** Whatever the wording, the questionnaire is well formed, starts with a question
      of rank three, every option leads to a node of smaller rank, and no question
      offers two options leading to the same node. */
  lemma QuestionnaireShape(w: Wording)
    ensures WellFormed(Questionnaire(w))
    ensures Questionnaire(w).nodes[Questionnaire(w).rootNodeId].Question?
    ensures Ranked(Questionnaire(w), MockRank)
    ensures MockRank[Questionnaire(w).rootNodeId] == 3
    ensures forall id :: id in Questionnaire(w).nodes ==> DistinctTargets(Questionnaire(w).nodes[id])
  {
    forall id | id in Questionnaire(w).nodes
      ensures NodeWellFormed(Questionnaire(w), id)
      ensures RankDrops(Questionnaire(w), MockRank, id)
      ensures DistinctTargets(Questionnaire(w).nodes[id])
    {
      QuestionnaireNode(w, id);
    }
  }

  /** What a session over the questionnaire relies on: the tree is well formed,
      starts with a question of rank three, and every option lowers the rank. */
  predicate Walkable(t: Tree)
  {
    && WellFormed(t)
    && t.nodes[t.rootNodeId].Question?
    && Ranked(t, MockRank)
    && t.rootNodeId in MockRank
    && MockRank[t.rootNodeId] == 3
  }

  /** The tree the page walks is walkable, and no question in it offers two options
      leading to the same node. */
  lemma MockTreeWalkable()
    ensures Walkable(MockDecisionTree)
    ensures forall id :: id in MockDecisionTree.nodes ==> DistinctTargets(MockDecisionTree.nodes[id])
  {
    QuestionnaireShape(EnglishWording);
  }

  /** A session over a walkable tree has answered at most three questions; while it
      is not complete it has answered at most two (so the question number shown is
      at most three), and after three answers it is complete. The progress bar's
      divisor of five is never reached. */
  lemma SessionDepth(t: Tree, s: State)
    requires Walkable(t) && Consistent(t, s)
    ensures |s.path| <= 3 < 5
    ensures !s.isComplete ==> |s.path| + 1 <= 3
    ensures |s.path| == 3 ==> s.isComplete
  {
    CompleteAtFullDepth(t, MockRank, s);
  }

  /** Answering "Critical" and then "Yes" (several departments affected) ends at the
      escalation result, with both answers recorded. */
  lemma CriticalAcrossTeamsEscalates(w: Wording)
    ensures var t := Questionnaire(w);
      && Walkable(t)
      && Consistent(t, Initial(t))
      && var s1 := Choose(t, Initial(t), 0);
         && !s1.isComplete
         && var s2 := Choose(t, s1, 0);
            && s2.currentNodeId == R1Escalate
            && s2.isComplete
            && t.nodes[s2.currentNodeId].Result?
            && t.nodes[s2.currentNodeId].verdict == Escalate
            && s2.path == [PathEntry(Q1, w.critical), PathEntry(Q2Critical, "Yes")]
  {
    var t := Questionnaire(w);
    QuestionnaireShape(w);
    InitialConsistent(t);
  }

  /** The bound of three answers is reached: "Critical", "No" (one department), "Yes"
      (authority to resolve) takes three answers and ends at the handle result. */
  lemma LongestWalkHandles(w: Wording)
    ensures var t := Questionnaire(w);
      && Walkable(t)
      && Consistent(t, Initial(t))
      && var s1 := Choose(t, Initial(t), 0);
         && Choose(t, s1, 1).currentNodeId == Q3Critical
         && var s3 := Choose(t, Choose(t, s1, 1), 0);
            && s3.currentNodeId == R2Handle
            && s3.isComplete
            && |s3.path| == 3
  {
    var t := Questionnaire(w);
    QuestionnaireShape(w);
    InitialConsistent(t);
  }
}
