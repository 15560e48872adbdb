/** Gap analysis of a scored quiz: topic banding, the readiness label, the demonstrated
    ("actual") level and its distance from the self-assessed one, and the priority list. */
module Gaps {
  import opened Common
  import opened Assessment

  /** `mastery_threshold`: a level counts as mastered from this percentage on. */
  const MasteryThreshold := 70
  /** `weak_threshold`: set by the analyser and read nowhere. */
  const WeakThreshold := 50

  /** One entry of `strong_topics`, `weak_topics` or `moderate_topics`. */
  datatype TopicData = TopicData(topic: string, percentage: real, correct: nat, total: nat)

  datatype Band = Strong | Moderate | Weak

  /** The band of an attempted topic: strong from 80%, weak below 60%, moderate in between. */
  function BandOf(correct: nat, total: nat): Band
    requires total > 0
  {
    var percentage := Percent(correct, total);
    if percentage >= 80.0 then Strong else if percentage < 60.0 then Weak else Moderate
  }

  /** The bands as comparisons of counts. */
  lemma BandByCounts(correct: nat, total: nat)
    requires total > 0
    ensures BandOf(correct, total) == Strong <==> correct * 100 >= 80 * total
    ensures BandOf(correct, total) == Weak <==> correct * 100 < 60 * total
    ensures BandOf(correct, total) == Moderate <==> 60 * total <= correct * 100 < 80 * total
  {
    PercentAtLeast(correct, total, 80);
    PercentAtLeast(correct, total, 60);
  }

  /** A topic tally that was attempted and falls in `band`. */
  predicate InBand(perf: Tally, band: Band)
  {
    perf.total > 0 && BandOf(perf.correct, perf.total) == band
  }

  function TopicDataOf(topic: string, perf: Tally): TopicData
    requires perf.total > 0
  {
    TopicData(topic, Percent(perf.correct, perf.total), perf.correct, perf.total)
  }

  /** The topics of `order` whose tallies fall in `band`, in `order`'s order, each with its
      percentage and counts. */
  function Banded(order: seq<string>, tallies: map<string, Tally>, band: Band): (r: seq<TopicData>)
    requires forall t :: t in order ==> t in tallies
    ensures |r| <= |order|
    ensures forall d :: d in r ==>
      && d.topic in order && InBand(tallies[d.topic], band)
      && d == TopicDataOf(d.topic, tallies[d.topic])
  {
    if |order| == 0 then []
    else
      var rest := Banded(order[..|order| - 1], tallies, band);
      var topic := order[|order| - 1];
      if InBand(tallies[topic], band) then rest + [TopicDataOf(topic, tallies[topic])] else rest
  }

  /** The topic names of a list of entries. */
  function Topics(ds: seq<TopicData>): (ts: seq<string>)
    ensures |ts| == |ds|
  {
    seq(|ds|, i requires 0 <= i < |ds| => ds[i].topic)
  }

  /** A topic is listed in a band exactly when it is in the table and its tally falls in the band. */
  lemma {:induction false} BandedTopics(order: seq<string>, tallies: map<string, Tally>, band: Band, t: string)
    requires forall t :: t in order ==> t in tallies
    ensures t in Topics(Banded(order, tallies, band)) <==> t in order && InBand(tallies[t], band)
  {
    if |order| > 0 {
      var init := order[..|order| - 1];
      var last := order[|order| - 1];
      BandedTopics(init, tallies, band, t);
      assert order == init + [last];
      var rest := Banded(init, tallies, band);
      if InBand(tallies[last], band) {
        assert Topics(rest + [TopicDataOf(last, tallies[last])]) == Topics(rest) + [last];
      }
    }
  }

  /** Every attempted topic lands in exactly one of the three lists; an unattempted one in none. */
  lemma BandsPartition(table: TopicTable, t: string)
    requires forall t :: t in table.order ==> t in table.tallies
    ensures var strong := t in Topics(Banded(table.order, table.tallies, Strong));
      var moderate := t in Topics(Banded(table.order, table.tallies, Moderate));
      var weak := t in Topics(Banded(table.order, table.tallies, Weak));
      && (t in table.order && table.tallies[t].total > 0 ==>
            (strong && !moderate && !weak) || (!strong && moderate && !weak) || (!strong && !moderate && weak))
      && (t !in table.order || table.tallies[t].total == 0 ==> !strong && !moderate && !weak)
  {
    BandedTopics(table.order, table.tallies, Strong, t);
    BandedTopics(table.order, table.tallies, Moderate, t);
    BandedTopics(table.order, table.tallies, Weak, t);
  }

  /** Each band keeps the table's order: its topics are listed in the order they were first met. */
  lemma {:induction false} BandedOrder(order: seq<string>, tallies: map<string, Tally>, band: Band)
    requires forall t :: t in order ==> t in tallies
    requires Distinct(order)
    ensures Ordered(order, Topics(Banded(order, tallies, band)))
  {
    if |order| > 0 {
      var n := |order| - 1;
      var init := order[..n];
      var last := order[n];
      var rest := Banded(init, tallies, band);
      BandedOrder(init, tallies, band);
      OrderedPrefix(order, n, Topics(rest));
      if InBand(tallies[last], band) {
        assert FirstIndex(order, last) == n;
        assert Topics(rest + [TopicDataOf(last, tallies[last])]) == Topics(rest) + [last];
        OrderedSnoc(order, Topics(rest), last);
      }
    }
  }

  /** The readiness verdict on the overall score, with its label and fixed message. */
  datatype Readiness = Excellent | Good | Satisfactory | NeedsImprovement
  {
    function Label(): string
    {
      match this
      case Excellent => "Excellent"
      case Good => "Good"
      case Satisfactory => "Satisfactory"
      case NeedsImprovement => "Needs Improvement"
    }

    function Message(): string
    {
      match this
      case Excellent => "You have excellent prerequisite knowledge for this course."
      case Good => "You have solid foundational knowledge. Minor improvements needed."
      case Satisfactory => "You have basic understanding. Focus on key improvement areas."
      case NeedsImprovement => "Significant preparation recommended before starting the course."
    }

    /** Better verdicts rank higher. */
    function Rank(): nat
    {
      match this
      case Excellent => 3
      case Good => 2
      case Satisfactory => 1
      case NeedsImprovement => 0
    }
  }

  /** Readiness from the overall score: 80, 70 and 60 are the lower bounds of the top three labels. */
  function ReadinessOf(score: real): (r: Readiness)
    ensures r == Excellent <==> score >= 80.0
    ensures r == Good <==> 70.0 <= score < 80.0
    ensures r == Satisfactory <==> 60.0 <= score < 70.0
    ensures r == NeedsImprovement <==> score < 60.0
  {
    if score >= 80.0 then Excellent
    else if score >= 70.0 then Good
    else if score >= 60.0 then Satisfactory
    else NeedsImprovement
  }

  /** A higher score never earns a worse label. */
  lemma ReadinessMonotone(s1: real, s2: real)
    requires s1 <= s2
    ensures ReadinessOf(s1).Rank() <= ReadinessOf(s2).Rank()
  {
  }

  /** Level `l` is mastered: attempted, with at least `MasteryThreshold` percent correct. */
  predicate Mastered(levels: map<int, Tally>, l: int)
    requires l in levels
  {
    levels[l].total > 0 && Percent(levels[l].correct, levels[l].total) >= MasteryThreshold as real
  }

  /** Scanning down from `top`: the first mastered level, or 1 when none of `1..top` is. */
  function HighestMasteredFrom(levels: map<int, Tally>, top: int): (r: int)
    requires 0 <= top <= 5 && forall l :: 1 <= l <= 5 ==> l in levels
    ensures 1 <= r <= 5 && (r <= top || r == 1)
    ensures forall l :: r < l <= top ==> !Mastered(levels, l)
    ensures (r <= top && Mastered(levels, r)) || (r == 1 && forall l :: 1 <= l <= top ==> !Mastered(levels, l))
    decreases top
  {
    if top == 0 then 1
    else if Mastered(levels, top) then top
    else HighestMasteredFrom(levels, top - 1)
  }

  /** The demonstrated level: the highest mastered level of 1..5, or 1 when none is mastered. */
  function ActualLevel(levels: map<int, Tally>): (r: int)
    requires forall l :: 1 <= l <= 5 ==> l in levels
    ensures 1 <= r <= 5
    ensures forall l :: r < l <= 5 ==> !Mastered(levels, l)
    ensures Mastered(levels, r) || (r == 1 && forall l :: 1 <= l <= 5 ==> !Mastered(levels, l))
  {
    HighestMasteredFrom(levels, 5)
  }

  /** `_calculate_actual_level`: a descending scan of levels 5..1 that stops at the first
      mastered level. */
  method CalculateActualLevel(levelPerformance: map<int, Tally>) returns (actualLevel: int)
    requires forall l :: 1 <= l <= 5 ==> l in levelPerformance
    ensures actualLevel == ActualLevel(levelPerformance)
  {
    actualLevel := 1;
    var level := 5;
    while level > 0
      invariant 0 <= level <= 5
      invariant HighestMasteredFrom(levelPerformance, level) == ActualLevel(levelPerformance)
      invariant actualLevel == 1
    {
      var perf := levelPerformance[level];
      if perf.total > 0 {
        var percentage := Percent(perf.correct, perf.total);
        if percentage >= MasteryThreshold as real {
          actualLevel := level;
          break;
        }
      }
      level := level - 1;
    }
  }

  /** More correct answers at the same totals never lower the demonstrated level. */
  lemma ActualLevelMonotone(levels: map<int, Tally>, better: map<int, Tally>)
    requires forall l :: 1 <= l <= 5 ==> l in levels && l in better
    requires forall l :: 1 <= l <= 5 ==> levels[l].total == better[l].total && levels[l].correct <= better[l].correct
    ensures ActualLevel(levels) <= ActualLevel(better)
  {
    var r := ActualLevel(levels);
    if Mastered(levels, r) {
      PercentMonotone(levels[r].correct, better[r].correct, levels[r].total);
      assert Mastered(better, r);
    }
  }

  /** The bands of the signed gap between the self-assessed and the demonstrated level. */
  datatype GapBand = Overestimated | SlightlyOptimistic | Accurate | Underestimated
  {
    function Message(): string
    {
      match this
      case Overestimated => "Your self-assessment was significantly higher than your actual performance. Focus on fundamentals."
      case SlightlyOptimistic => "Your self-assessment was slightly optimistic. Review the recommended materials."
      case Accurate => "Your self-assessment matches your performance. Great self-awareness!"
      case Underestimated => "You're performing above your self-assessment. Consider challenging yourself more!"
    }
  }

  /** A gap above 2 is significant; 1 and 2 are slightly optimistic; 0 matches; below 0 is under. */
  function GapBandOf(gap: int): (b: GapBand)
    ensures b == Overestimated <==> gap > 2
    ensures b == SlightlyOptimistic <==> 1 <= gap <= 2
    ensures b == Accurate <==> gap == 0
    ensures b == Underestimated <==> gap < 0
  {
    if gap > 2 then Overestimated
    else if gap > 0 then SlightlyOptimistic
    else if gap == 0 then Accurate
    else Underestimated
  }

  /** `_get_level_gap_message`. */
  function LevelGapMessage(gap: int): string
  {
    GapBandOf(gap).Message()
  }

  /** The dictionary `analyze_gaps` returns. */
  datatype GapAnalysis = GapAnalysis(
    overallScore: real, readiness: Readiness,
    strongTopics: seq<TopicData>, weakTopics: seq<TopicData>, moderateTopics: seq<TopicData>,
    actualLevel: int, selfAssessedLevel: int, levelGap: int, levelGapMessage: string,
    levelPerformance: map<int, Tally>, topicPerformance: TopicTable)

  /** The analysis of a score report: the three bands, the readiness of the overall score, the
      demonstrated level and its gap to `initialLevel`; the score and both tables pass through. */
  function Analysis(results: ScoreReport, initialLevel: int): (r: GapAnalysis)
    requires forall l :: 1 <= l <= 5 ==> l in results.levelPerformance
    requires forall t :: t in results.topicPerformance.order ==> t in results.topicPerformance.tallies
    ensures r.overallScore == results.scorePercentage
    ensures r.levelPerformance == results.levelPerformance && r.topicPerformance == results.topicPerformance
    ensures r.selfAssessedLevel == initialLevel
    ensures 1 <= r.actualLevel <= 5 && r.levelGap == initialLevel - r.actualLevel
  {
    var table := results.topicPerformance;
    var actual := ActualLevel(results.levelPerformance);
    var gap := initialLevel - actual;
    GapAnalysis(results.scorePercentage, ReadinessOf(results.scorePercentage),
                Banded(table.order, table.tallies, Strong), Banded(table.order, table.tallies, Weak),
                Banded(table.order, table.tallies, Moderate),
                actual, initialLevel, gap, LevelGapMessage(gap),
                results.levelPerformance, table)
  }

  /** The loop of `analyze_gaps` over `topic_performance.items()`, appending each attempted
      topic to the list of its band. */
  method BandTopics(table: TopicTable) returns (strong: seq<TopicData>, weak: seq<TopicData>, moderate: seq<TopicData>)
    requires forall t :: t in table.order ==> t in table.tallies
    ensures strong == Banded(table.order, table.tallies, Strong)
    ensures weak == Banded(table.order, table.tallies, Weak)
    ensures moderate == Banded(table.order, table.tallies, Moderate)
  {
    strong, weak, moderate := [], [], [];
    for i := 0 to |table.order|
      invariant strong == Banded(table.order[..i], table.tallies, Strong)
      invariant weak == Banded(table.order[..i], table.tallies, Weak)
      invariant moderate == Banded(table.order[..i], table.tallies, Moderate)
    {
      assert table.order[..i + 1][..i] == table.order[..i];
      var topic := table.order[i];
      var perf := table.tallies[topic];
      if perf.total > 0 {
        var percentage := Percent(perf.correct, perf.total);
        var topicData := TopicData(topic, percentage, perf.correct, perf.total);
        if percentage >= 80.0 {
          strong := strong + [topicData];
        } else if percentage < 60.0 {
          weak := weak + [topicData];
        } else {
          moderate := moderate + [topicData];
        }
      }
    }
    assert table.order[..|table.order|] == table.order;
  }

  /** `analyze_gaps`: `course` is accepted and not used; a level missing from 1..5 would
      raise `KeyError`. */
  method AnalyzeGaps(results: ScoreReport, course: string, initialLevel: int) returns (r: GapAnalysis)
    requires forall l :: 1 <= l <= 5 ==> l in results.levelPerformance
    requires forall t :: t in results.topicPerformance.order ==> t in results.topicPerformance.tallies
    ensures r == Analysis(results, initialLevel)
  {
    var strong, weak, moderate := BandTopics(results.topicPerformance);
    var overallScore := results.scorePercentage;
    var readiness := ReadinessOf(overallScore);
    var actualLevel := CalculateActualLevel(results.levelPerformance);
    var levelGap := initialLevel - actualLevel;
    r := GapAnalysis(overallScore, readiness, strong, weak, moderate, actualLevel, initialLevel,
                     levelGap, LevelGapMessage(levelGap), results.levelPerformance, results.topicPerformance);
  }

  datatype Priority = High | Medium
  {
    function Label(): string
    {
      match this
      case High => "High"
      case Medium => "Medium"
    }
  }

  /** One entry of the priority list; the `reason` text is not modelled. */
  datatype PriorityItem = PriorityItem(priority: Priority, area: string, kind: string, score: real)

  function PriorityOf(priority: Priority, d: TopicData): PriorityItem
  {
    PriorityItem(priority, d.topic, "Topic", d.percentage)
  }

  /** Every weak topic as High, then every moderate topic as Medium, each in list order. */
  function Prioritised(weak: seq<TopicData>, moderate: seq<TopicData>): seq<PriorityItem>
  {
    seq(|weak|, i requires 0 <= i < |weak| => PriorityOf(High, weak[i]))
    + seq(|moderate|, i requires 0 <= i < |moderate| => PriorityOf(Medium, moderate[i]))
  }

  /** The priority list holds one entry per weak and moderate topic, Highs first. */
  lemma PrioritisedShape(weak: seq<TopicData>, moderate: seq<TopicData>)
    ensures var p := Prioritised(weak, moderate);
      && |p| == |weak| + |moderate|
      && (forall i :: 0 <= i < |p| ==> (p[i].priority == High <==> i < |weak|))
      && (forall i, j :: 0 <= i < j < |p| && p[i].priority == Medium ==> p[j].priority == Medium)
      && (forall i :: 0 <= i < |p| ==> p[i].area == (if i < |weak| then weak[i].topic else moderate[i - |weak|].topic))
  {
  }

  /** `generate_priority_list`: two loops appending the weak and then the moderate topics. */
  method GeneratePriorityList(analysis: GapAnalysis) returns (priorities: seq<PriorityItem>)
    ensures priorities == Prioritised(analysis.weakTopics, analysis.moderateTopics)
  {
    var weak := analysis.weakTopics;
    var moderate := analysis.moderateTopics;
    priorities := [];
    for i := 0 to |weak|
      invariant priorities == seq(i, k requires 0 <= k < i => PriorityOf(High, weak[k]))
    {
      priorities := priorities + [PriorityItem(High, weak[i].topic, "Topic", weak[i].percentage)];
    }
    ghost var highs := priorities;
    for i := 0 to |moderate|
      invariant priorities == highs + seq(i, k requires 0 <= k < i => PriorityOf(Medium, moderate[k]))
    {
      priorities := priorities + [PriorityItem(Medium, moderate[i].topic, "Topic", moderate[i].percentage)];
    }
  }

  /** No strong topic is ever given a priority: every listed area is a weak or moderate topic
      of the table. */
  lemma NoStrongPriorities(table: TopicTable, i: nat)
    requires forall t :: t in table.order ==> t in table.tallies
    requires i < |Prioritised(Banded(table.order, table.tallies, Weak), Banded(table.order, table.tallies, Moderate))|
    ensures var strong := Banded(table.order, table.tallies, Strong);
      var weak := Banded(table.order, table.tallies, Weak);
      var moderate := Banded(table.order, table.tallies, Moderate);
      var area := Prioritised(weak, moderate)[i].area;
      area !in Topics(strong) && (area in Topics(weak) || area in Topics(moderate))
  {
    var weak := Banded(table.order, table.tallies, Weak);
    var moderate := Banded(table.order, table.tallies, Moderate);
    var area := Prioritised(weak, moderate)[i].area;
    if i < |weak| {
      assert Topics(weak)[i] == area;
      BandedTopics(table.order, table.tallies, Weak, area);
    } else {
      assert Topics(moderate)[i - |weak|] == area;
      BandedTopics(table.order, table.tallies, Moderate, area);
    }
    BandedTopics(table.order, table.tallies, Strong, area);
  }
}
