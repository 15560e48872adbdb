/** The skill tree of a course: a root, the four stages Foundation to Expert, and three skills
    under each stage, coloured by the demonstrated level and by the strong and weak topics of a
    gap analysis; and the per-level scores of the performance radar. */
module SkillTree {
  import opened Common
  import opened Text
  import opened Gaps

  /** The stages, in the order the tree lists them; stage `k` is level `k + 1`. */
  const LevelNames: seq<string> := ["Foundation", "Intermediate", "Advanced", "Expert"]

  /** The skills of stage `j` of the `c`-th course of the hierarchy table. */
  function CourseSkills(c: nat, j: nat): (r: seq<string>)
    requires c < 4 && j < 4
    ensures |r| == 3
  {
    if c == 0 then
      if j == 0 then ["Basic Statistics", "Python Basics", "Data Types"]
      else if j == 1 then ["Probability", "Data Manipulation", "Visualization"]
      else if j == 2 then ["Hypothesis Testing", "Machine Learning", "Big Data"]
      else ["Statistical Modeling", "Deep Learning", "Data Engineering"]
    else if c == 1 then
      if j == 0 then ["Mathematics", "Calculus", "Linear Algebra"]
      else if j == 1 then ["Supervised Learning", "Unsupervised Learning", "Neural Networks"]
      else if j == 2 then ["Deep Learning", "NLP", "Computer Vision"]
      else ["Reinforcement Learning", "GANs", "Transformers"]
    else if c == 2 then
      if j == 0 then ["OS Basics", "Linux", "Networking"]
      else if j == 1 then ["Network Security", "Cryptography", "Web Security"]
      else if j == 2 then ["Penetration Testing", "Malware Analysis", "Incident Response"]
      else ["Security Architecture", "Threat Hunting", "Zero-day Research"]
    else
      if j == 0 then ["HTML", "CSS", "JavaScript"]
      else if j == 1 then ["React/Vue", "Node.js", "Databases"]
      else if j == 2 then ["API Design", "Authentication", "Cloud Deployment"]
      else ["Microservices", "DevOps", "System Design"]
  }

  /** A course's hierarchy names every stage. */
  ghost predicate HasLevels(hierarchy: map<string, seq<string>>)
  {
    forall n :: n in LevelNames ==> n in hierarchy
  }

  /** Every stage of a course's hierarchy has three skills. */
  ghost predicate ThreeEach(hierarchy: map<string, seq<string>>)
  {
    HasLevels(hierarchy) && forall j :: 0 <= j < 4 ==> |hierarchy[LevelNames[j]]| == 3
  }

  /** The hierarchy of the `c`-th course: stage name to its skills. */
  function CourseHierarchy(c: nat): (h: map<string, seq<string>>)
    requires c < 4
    ensures ThreeEach(h)
    ensures forall j :: 0 <= j < 4 ==> h[LevelNames[j]] == CourseSkills(c, j)
  {
    map[LevelNames[0] := CourseSkills(c, 0), LevelNames[1] := CourseSkills(c, 1),
        LevelNames[2] := CourseSkills(c, 2), LevelNames[3] := CourseSkills(c, 3)]
  }

  /** `_define_skill_hierarchies`: the four courses, each with three skills per stage. */
  function DefineSkillHierarchies(): (r: map<string, map<string, seq<string>>>)
    ensures r.Keys == {"Data Science", "AI/ML", "Cybersecurity", "Full Stack"}
    ensures forall c :: c in r ==> ThreeEach(r[c])
  {
    map["Data Science" := CourseHierarchy(0), "AI/ML" := CourseHierarchy(1),
        "Cybersecurity" := CourseHierarchy(2), "Full Stack" := CourseHierarchy(3)]
  }

  /** What `_get_skill_status` reports. */
  datatype Status = StrongSkill | WeakSkill | ModerateSkill

  /** A skill and a topic match when one of the two, lower-cased, contains the other. */
  predicate SkillMatches(skill: string, topic: string)
  {
    Contains(Lower(topic), Lower(skill)) || Contains(Lower(skill), Lower(topic))
  }

  /** Some topic of the list matches the skill. */
  predicate AnyMatch(skill: string, ds: seq<TopicData>)
  {
    exists i :: 0 <= i < |ds| && SkillMatches(skill, ds[i].topic)
  }

  /** The status of a skill: strong when a strong topic matches it, else weak when a weak topic
      does, else moderate. */
  function SkillStatus(skill: string, analysis: GapAnalysis): Status
  {
    if AnyMatch(skill, analysis.strongTopics) then StrongSkill
    else if AnyMatch(skill, analysis.weakTopics) then WeakSkill
    else ModerateSkill
  }

  /** `_get_skill_status`: the strong topics are scanned first, then the weak ones, each scan
      returning at the first match. */
  method GetSkillStatus(skill: string, analysis: GapAnalysis) returns (status: Status)
    ensures status == StrongSkill <==> exists i :: 0 <= i < |analysis.strongTopics| && SkillMatches(skill, analysis.strongTopics[i].topic)
    ensures status == WeakSkill <==>
              (forall i :: 0 <= i < |analysis.strongTopics| ==> !SkillMatches(skill, analysis.strongTopics[i].topic))
              && exists i :: 0 <= i < |analysis.weakTopics| && SkillMatches(skill, analysis.weakTopics[i].topic)
    ensures status == SkillStatus(skill, analysis)
  {
    var skillLower := Lower(skill);
    for i := 0 to |analysis.strongTopics|
      invariant forall j :: 0 <= j < i ==> !SkillMatches(skill, analysis.strongTopics[j].topic)
    {
      var topicLower := Lower(analysis.strongTopics[i].topic);
      if Contains(topicLower, skillLower) || Contains(skillLower, topicLower) {
        return StrongSkill;
      }
    }
    for i := 0 to |analysis.weakTopics|
      invariant forall j :: 0 <= j < i ==> !SkillMatches(skill, analysis.weakTopics[j].topic)
    {
      var topicLower := Lower(analysis.weakTopics[i].topic);
      if Contains(topicLower, skillLower) || Contains(skillLower, topicLower) {
        return WeakSkill;
      }
    }
    return ModerateSkill;
  }

  /** A stage node's colour: mastered up to the demonstrated level, in progress one above it,
      not yet mastered beyond. */
  function LevelColor(levelNum: int, actualLevel: int): string
  {
    if levelNum <= actualLevel then "lightgreen"
    else if levelNum == actualLevel + 1 then "yellow"
    else "lightcoral"
  }

  /** A skill node's colour. */
  function SkillColor(status: Status): string
  {
    match status
    case StrongSkill => "darkgreen"
    case WeakSkill => "darkred"
    case ModerateSkill => "lightyellow"
  }

  /** The stage colours never get better from one stage to the next, and exactly the stage one
      above the demonstrated level is in progress. */
  lemma LevelColorsOrdered(actualLevel: int, l1: int, l2: int)
    requires l1 <= l2
    ensures LevelColor(l2, actualLevel) == "lightgreen" ==> LevelColor(l1, actualLevel) == "lightgreen"
    ensures LevelColor(l1, actualLevel) == "lightcoral" ==> LevelColor(l2, actualLevel) == "lightcoral"
    ensures LevelColor(l1, actualLevel) == "yellow" && LevelColor(l2, actualLevel) == "yellow" ==> l1 == l2
    ensures LevelColor(l1, actualLevel) == "yellow" <==> l1 == actualLevel + 1
  {
  }

  /** One node of the tree: the entries at one index of the four parallel lists. */
  datatype Node = Node(name: string, parent: string, value: nat, color: string)

  /** The figure `build_skill_tree` returns: the annotated empty figure, or a sunburst over the
      four parallel lists. */
  datatype Figure = EmptyTree | Sunburst(labels: seq<string>, parents: seq<string>, values: seq<nat>, colors: seq<string>)

  /** The skill nodes of a stage: each skill under the stage, worth 10, coloured by its status. */
  function SkillNodes(levelName: string, skills: seq<string>, analysis: GapAnalysis): (ns: seq<Node>)
    ensures |ns| == |skills|
  {
    seq(|skills|, i requires 0 <= i < |skills| =>
      Node(skills[i], levelName, 10, SkillColor(SkillStatus(skills[i], analysis))))
  }

  /** A stage node, under the course and worth ten per skill, followed by its skill nodes. */
  function StageNodes(course: string, levelNum: int, levelName: string, skills: seq<string>, analysis: GapAnalysis): (ns: seq<Node>)
    ensures |ns| == 1 + |skills|
  {
    [Node(levelName, course, |skills| * 10, LevelColor(levelNum, analysis.actualLevel))]
    + SkillNodes(levelName, skills, analysis)
  }

  /** The nodes of the first `k` stages. */
  function StagesNodes(course: string, hierarchy: map<string, seq<string>>, analysis: GapAnalysis, k: nat): seq<Node>
    requires k <= 4 && HasLevels(hierarchy)
  {
    if k == 0 then []
    else StagesNodes(course, hierarchy, analysis, k - 1)
         + StageNodes(course, k, LevelNames[k - 1], hierarchy[LevelNames[k - 1]], analysis)
  }

  /** The root node. */
  function Root(course: string): Node
  {
    Node(course, "", 100, "lightblue")
  }

  /** All the nodes of a known course's tree: the root, then each stage with its skills. */
  function TreeNodes(course: string, hierarchy: map<string, seq<string>>, analysis: GapAnalysis): seq<Node>
    requires HasLevels(hierarchy)
  {
    [Root(course)] + StagesNodes(course, hierarchy, analysis, 4)
  }

  function Labels(ns: seq<Node>): (r: seq<string>)
    ensures |r| == |ns|
  {
    seq(|ns|, i requires 0 <= i < |ns| => ns[i].name)
  }

  function Parents(ns: seq<Node>): (r: seq<string>)
    ensures |r| == |ns|
  {
    seq(|ns|, i requires 0 <= i < |ns| => ns[i].parent)
  }

  function Values(ns: seq<Node>): (r: seq<nat>)
    ensures |r| == |ns|
  {
    seq(|ns|, i requires 0 <= i < |ns| => ns[i].value)
  }

  function Colors(ns: seq<Node>): (r: seq<string>)
    ensures |r| == |ns|
  {
    seq(|ns|, i requires 0 <= i < |ns| => ns[i].color)
  }

  /** The four parallel lists hold the nodes `ns`. */
  ghost predicate Lists(labels: seq<string>, parents: seq<string>, values: seq<nat>, colors: seq<string>, ns: seq<Node>)
  {
    labels == Labels(ns) && parents == Parents(ns) && values == Values(ns) && colors == Colors(ns)
  }

  /** Appending one entry to each list appends one node. */
  lemma ListsSnoc(labels: seq<string>, parents: seq<string>, values: seq<nat>, colors: seq<string>, ns: seq<Node>, n: Node)
    requires Lists(labels, parents, values, colors, ns)
    ensures Lists(labels + [n.name], parents + [n.parent], values + [n.value], colors + [n.color], ns + [n])
  {
    assert Labels(ns + [n]) == Labels(ns) + [n.name];
    assert Parents(ns + [n]) == Parents(ns) + [n.parent];
    assert Values(ns + [n]) == Values(ns) + [n.value];
    assert Colors(ns + [n]) == Colors(ns) + [n.color];
  }

  /** The tree of `course`: the empty figure for a course the table lacks. */
  function TreeOf(hierarchies: map<string, map<string, seq<string>>>, course: string, analysis: GapAnalysis): Figure
    requires course in hierarchies ==> HasLevels(hierarchies[course])
  {
    if course !in hierarchies then EmptyTree
    else
      var ns := TreeNodes(course, hierarchies[course], analysis);
      Sunburst(Labels(ns), Parents(ns), Values(ns), Colors(ns))
  }

  /** The number of skills in the first `k` stages. */
  function SkillCount(hierarchy: map<string, seq<string>>, k: nat): nat
    requires k <= 4 && HasLevels(hierarchy)
  {
    if k == 0 then 0 else SkillCount(hierarchy, k - 1) + |hierarchy[LevelNames[k - 1]]|
  }

  /** Where stage `k` begins among the nodes after the root. */
  lemma {:induction false} StagesLength(course: string, hierarchy: map<string, seq<string>>, analysis: GapAnalysis, k: nat)
    requires k <= 4 && HasLevels(hierarchy)
    ensures |StagesNodes(course, hierarchy, analysis, k)| == k + SkillCount(hierarchy, k)
  {
    if k > 0 {
      StagesLength(course, hierarchy, analysis, k - 1);
    }
  }

  /** The nodes of stage `k` sit, unchanged, at offset `k + SkillCount(hierarchy, k)` of every
      longer prefix of stages. */
  lemma {:induction false} StageAt(course: string, hierarchy: map<string, seq<string>>, analysis: GapAnalysis, k: nat, m: nat)
    requires k < m <= 4 && HasLevels(hierarchy)
    ensures var ns := StagesNodes(course, hierarchy, analysis, m);
      var lo := k + SkillCount(hierarchy, k);
      var skills := hierarchy[LevelNames[k]];
      lo + 1 + |skills| <= |ns|
      && ns[lo..lo + 1 + |skills|] == StageNodes(course, k + 1, LevelNames[k], skills, analysis)
  {
    StagesLength(course, hierarchy, analysis, k);
    StagesLength(course, hierarchy, analysis, m - 1);
    var prev := StagesNodes(course, hierarchy, analysis, m - 1);
    var last := StageNodes(course, m, LevelNames[m - 1], hierarchy[LevelNames[m - 1]], analysis);
    assert StagesNodes(course, hierarchy, analysis, m) == prev + last;
    var lo := k + SkillCount(hierarchy, k);
    var skills := hierarchy[LevelNames[k]];
    if k < m - 1 {
      StageAt(course, hierarchy, analysis, k, m - 1);
      SliceOfAppendLeft(prev, last, lo, lo + 1 + |skills|);
    } else {
      SliceOfAppendRight(prev, last);
    }
  }

  /** A slice inside the left part of a concatenation. */
  lemma SliceOfAppendLeft<T>(a: seq<T>, b: seq<T>, lo: nat, hi: nat)
    requires lo <= hi <= |a|
    ensures (a + b)[lo..hi] == a[lo..hi]
  {
  }

  /** The right part of a concatenation, sliced back out. */
  lemma SliceOfAppendRight<T>(a: seq<T>, b: seq<T>)
    ensures (a + b)[|a|..|a| + |b|] == b
  {
  }

  /** The shape of the tree: the empty figure exactly for a course the table lacks; otherwise
      four lists of equal length, one entry per node, with the root first (the course, no
      parent, worth 100, light blue) and `1 + 4 + ` the number of skills entries in all. */
  lemma TreeShape(hierarchies: map<string, map<string, seq<string>>>, course: string, analysis: GapAnalysis)
    requires course in hierarchies ==> HasLevels(hierarchies[course])
    ensures TreeOf(hierarchies, course, analysis).EmptyTree? <==> course !in hierarchies
    ensures course in hierarchies ==>
      var t := TreeOf(hierarchies, course, analysis);
      && |t.labels| == |t.parents| == |t.values| == |t.colors| == 5 + SkillCount(hierarchies[course], 4)
      && t.labels[0] == course && t.parents[0] == "" && t.values[0] == 100 && t.colors[0] == "lightblue"
  {
    if course in hierarchies {
      StagesLength(course, hierarchies[course], analysis, 4);
    }
  }

  /** With three skills per stage, as in every course of the table, the tree has 17 nodes. */
  lemma SeventeenNodes(course: string, analysis: GapAnalysis)
    requires course in DefineSkillHierarchies()
    ensures |TreeOf(DefineSkillHierarchies(), course, analysis).labels| == 17
  {
    var hierarchy := DefineSkillHierarchies()[course];
    TreeShape(DefineSkillHierarchies(), course, analysis);
    assert SkillCount(hierarchy, 4) == 12;
  }

  /** Stage `k` of a known course's tree sits, whole, right after the root and the earlier
      stages with their skills. */
  lemma StageInTree(hierarchy: map<string, seq<string>>, course: string, analysis: GapAnalysis, k: nat)
    requires HasLevels(hierarchy) && k < 4
    ensures var ns := TreeNodes(course, hierarchy, analysis);
      var at := 1 + k + SkillCount(hierarchy, k);
      var skills := hierarchy[LevelNames[k]];
      && at + |skills| < |ns|
      && ns[at..at + 1 + |skills|] == StageNodes(course, k + 1, LevelNames[k], skills, analysis)
  {
    var ns := TreeNodes(course, hierarchy, analysis);
    var stages := StagesNodes(course, hierarchy, analysis, 4);
    StageAt(course, hierarchy, analysis, k, 4);
    var at := 1 + k + SkillCount(hierarchy, k);
    var skills := hierarchy[LevelNames[k]];
    assert ns[at..at + 1 + |skills|] == stages[at - 1..at + |skills|];
  }

  /** A stage: its node is named after the stage, hangs under the course, is worth ten per
      skill and is coloured by the demonstrated level; its skills follow it, each under the
      stage, worth 10 and coloured by its status. */
  lemma StageNodesAre(course: string, levelNum: int, levelName: string, skills: seq<string>, analysis: GapAnalysis)
    ensures var stage := StageNodes(course, levelNum, levelName, skills, analysis);
      && stage[0] == Node(levelName, course, |skills| * 10, LevelColor(levelNum, analysis.actualLevel))
      && forall i :: 0 <= i < |skills| ==>
           stage[1 + i] == Node(skills[i], levelName, 10, SkillColor(SkillStatus(skills[i], analysis)))
  {
  }

  /** A stage is worth the sum of its children. */
  lemma StageValueIsSum(course: string, levelNum: int, levelName: string, skills: seq<string>, analysis: GapAnalysis)
    ensures var stage := StageNodes(course, levelNum, levelName, skills, analysis);
      stage[0].value == Sum(Values(stage[1..]))
  {
    var stage := StageNodes(course, levelNum, levelName, skills, analysis);
    TensSum(Values(stage[1..]));
  }

  /** A list of tens sums to ten times its length. */
  lemma {:induction false} TensSum(vs: seq<nat>)
    requires forall i :: 0 <= i < |vs| ==> vs[i] == 10
    ensures Sum(vs) == |vs| * 10
  {
    if |vs| > 0 {
      TensSum(vs[..|vs| - 1]);
    }
  }

  /** `SkillTreeBuilder`: the hierarchy table is built once, when the builder is made, and
      only read afterwards. */
  class SkillTreeBuilder {
    const skillHierarchies: map<string, map<string, seq<string>>>

    constructor()
      ensures skillHierarchies == DefineSkillHierarchies()
    {
      skillHierarchies := DefineSkillHierarchies();
    }

    /** The node lists of `build_skill_tree`, before the figure is drawn. */
    method BuildSkillTree(course: string, gapAnalysis: GapAnalysis) returns (fig: Figure)
      requires course in skillHierarchies ==> HasLevels(skillHierarchies[course])
      ensures fig == TreeOf(skillHierarchies, course, gapAnalysis)
    {
      if course !in skillHierarchies {
        return EmptyTree;
      }
      var hierarchy := skillHierarchies[course];
      var labels: seq<string>, parents: seq<string>, values: seq<nat>, colors: seq<string> := [], [], [], [];
      ListsSnoc(labels, parents, values, colors, [], Root(course));
      labels, parents, values, colors := labels + [course], parents + [""], values + [100], colors + ["lightblue"];
      var levelNames := LevelNames;
      var actualLevel := gapAnalysis.actualLevel;
      for idx := 0 to |levelNames|
        invariant Lists(labels, parents, values, colors, [Root(course)] + StagesNodes(course, hierarchy, gapAnalysis, idx))
      {
        var levelNum := idx + 1;
        var levelName := levelNames[idx];
        var skills := hierarchy[levelName];
        ghost var before := [Root(course)] + StagesNodes(course, hierarchy, gapAnalysis, idx);
        var color;
        if levelNum <= actualLevel {
          color := "lightgreen";
        } else if levelNum == actualLevel + 1 {
          color := "yellow";
        } else {
          color := "lightcoral";
        }
        var node := Node(levelName, course, |skills| * 10, color);
        ListsSnoc(labels, parents, values, colors, before, node);
        labels, parents, values, colors := labels + [levelName], parents + [course], values + [|skills| * 10], colors + [color];
        labels, parents, values, colors := AppendSkills(labels, parents, values, colors, before + [node], levelName, skills, gapAnalysis);
        StageStep(course, hierarchy, gapAnalysis, idx, before, node);
      }
      fig := Sunburst(labels, parents, values, colors);
    }
  }

  /** The inner loop of `build_skill_tree`: one node per skill of a stage, appended to the lists. */
  method AppendSkills(labels: seq<string>, parents: seq<string>, values: seq<nat>, colors: seq<string>, ghost ns: seq<Node>,
                      levelName: string, skills: seq<string>, analysis: GapAnalysis)
    returns (labels': seq<string>, parents': seq<string>, values': seq<nat>, colors': seq<string>)
    requires Lists(labels, parents, values, colors, ns)
    ensures Lists(labels', parents', values', colors', ns + SkillNodes(levelName, skills, analysis))
  {
    labels', parents', values', colors' := labels, parents, values, colors;
    for j := 0 to |skills|
      invariant Lists(labels', parents', values', colors', ns + SkillNodes(levelName, skills[..j], analysis))
    {
      var skill := skills[j];
      var skillStatus := GetSkillStatus(skill, analysis);
      var skillColor;
      if skillStatus == StrongSkill {
        skillColor := "darkgreen";
      } else if skillStatus == WeakSkill {
        skillColor := "darkred";
      } else {
        skillColor := "lightyellow";
      }
      SkillNodesSnoc(levelName, skills, j, analysis);
      ListsSnoc(labels', parents', values', colors', ns + SkillNodes(levelName, skills[..j], analysis),
                Node(skill, levelName, 10, skillColor));
      labels', parents', values', colors' := labels' + [skill], parents' + [levelName], values' + [10], colors' + [skillColor];
    }
    assert skills[..|skills|] == skills;
  }

  /** One more skill adds its node at the end. */
  lemma SkillNodesSnoc(levelName: string, skills: seq<string>, j: nat, analysis: GapAnalysis)
    requires j < |skills|
    ensures SkillNodes(levelName, skills[..j + 1], analysis)
      == SkillNodes(levelName, skills[..j], analysis)
         + [Node(skills[j], levelName, 10, SkillColor(SkillStatus(skills[j], analysis)))]
  {
  }

  /** After a stage node and all its skills, the lists hold one more stage. */
  lemma StageStep(course: string, hierarchy: map<string, seq<string>>, analysis: GapAnalysis, idx: nat,
                  before: seq<Node>, node: Node)
    requires idx < 4 && HasLevels(hierarchy)
    requires before == [Root(course)] + StagesNodes(course, hierarchy, analysis, idx)
    requires node == Node(LevelNames[idx], course, |hierarchy[LevelNames[idx]]| * 10, LevelColor(idx + 1, analysis.actualLevel))
    ensures var skills := hierarchy[LevelNames[idx]];
      before + [node] + SkillNodes(LevelNames[idx], skills, analysis)
        == [Root(course)] + StagesNodes(course, hierarchy, analysis, idx + 1)
  {
  }

  /** One point of the performance radar. */
  function RadarScore(perf: Tally): real
  {
    if perf.total > 0 then Percent(perf.correct, perf.total) else 0.0
  }

  /** The score lists of `create_performance_radar`: levels 1 to 5 in order, each labelled
      "Level l" and scored by its percentage, 0 for a level with no question. */
  method CreatePerformanceRadar(levelPerformance: map<int, Tally>) returns (levels: seq<string>, scores: seq<real>)
    requires forall l :: 1 <= l <= 5 ==> l in levelPerformance
    ensures |levels| == 5 && |scores| == 5
    ensures forall i :: 0 <= i < 5 ==> levels[i] == "Level " + IntToString(i + 1)
    ensures forall i :: 0 <= i < 5 ==> scores[i] == RadarScore(levelPerformance[i + 1])
  {
    levels, scores := [], [];
    for level := 1 to 6
      invariant |levels| == |scores| == level - 1
      invariant forall i :: 0 <= i < level - 1 ==> levels[i] == "Level " + IntToString(i + 1)
      invariant forall i :: 0 <= i < level - 1 ==> scores[i] == RadarScore(levelPerformance[i + 1])
    {
      var perf := levelPerformance[level];
      if perf.total > 0 {
        levels := levels + ["Level " + IntToString(level)];
        scores := scores + [perf.correct as real / perf.total as real * 100.0];
      } else {
        levels := levels + ["Level " + IntToString(level)];
        scores := scores + [0.0];
      }
    }
  }

  /** A radar score lies between 0 and 100 for a consistent tally, and reaches the 70% target
      line exactly for a level the analyser counts as mastered. */
  lemma RadarAgainstTarget(levelPerformance: map<int, Tally>, l: int)
    requires l in levelPerformance
    ensures levelPerformance[l].correct <= levelPerformance[l].total ==> 0.0 <= RadarScore(levelPerformance[l]) <= 100.0
    ensures RadarScore(levelPerformance[l]) >= 70.0 <==> Mastered(levelPerformance, l)
  {
  }
}
