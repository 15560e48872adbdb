/** The learning path built from a gap analysis and its priority list: resource lookup in a
    fixed library, the three horizons of the path with their hour budget, and the week-by-week
    study schedule. */
module Learning {
  import opened Common
  import opened Text
  import opened Gaps

  /** One topic entry of the resource library: its key and, at position `l - 1`, the
      resources for level `l`. */
  datatype LibraryTopic = LibraryTopic(key: string, levels: seq<seq<string>>)

  /** `course_resources[key].get(level, [])`. */
  function LevelList(entry: LibraryTopic, level: int): (r: seq<string>)
    ensures !(1 <= level <= |entry.levels|) ==> r == []
  {
    if 1 <= level <= |entry.levels| then entry.levels[level - 1] else []
  }

  function StatiResources(j: nat): seq<string>
    requires j < 5
  {
    if j == 0 then ["Khan Academy: Basic Statistics", "Coursera: Statistics Fundamentals"]
    else if j == 1 then ["DataCamp: Intermediate Statistics", "YouTube: StatQuest"]
    else if j == 2 then ["Coursera: Inferential Statistics", "edX: Probability and Statistics"]
    else if j == 3 then ["MIT OpenCourseWare: Advanced Statistics", "Coursera: Bayesian Statistics"]
    else ["Research Papers on Statistical Methods", "Advanced Statistical Modeling"]
  }

  function PythonResources(j: nat): seq<string>
    requires j < 5
  {
    if j == 0 then ["Codecademy: Python Basics", "Python.org Tutorial"]
    else if j == 1 then ["Real Python: Intermediate Python", "DataCamp: Python Programming"]
    else if j == 2 then ["Effective Python by Brett Slatkin", "Advanced Python Features"]
    else if j == 3 then ["Fluent Python by Luciano Ramalho", "Python Design Patterns"]
    else ["Python Core Development", "Contributing to Python Projects"]
  }

  function CalculusResources(j: nat): seq<string>
    requires j < 5
  {
    if j == 0 then ["Khan Academy: Calculus Basics", "Paul's Online Math Notes"]
    else if j == 1 then ["MIT OCW: Single Variable Calculus", "Coursera: Calculus One"]
    else if j == 2 then ["MIT OCW: Multivariable Calculus", "Advanced Calculus Concepts"]
    else if j == 3 then ["Vector Calculus Applications", "Optimization Theory"]
    else ["Research-level Calculus", "Mathematical Analysis"]
  }

  function MachineLearningResources(j: nat): seq<string>
    requires j < 5
  {
    if j == 0 then ["Google: Machine Learning Crash Course", "Coursera: ML for Beginners"]
    else if j == 1 then ["Andrew Ng: Machine Learning Course", "Fast.ai: Practical ML"]
    else if j == 2 then ["Deep Learning Specialization", "Hands-on Machine Learning"]
    else if j == 3 then ["Advanced ML Algorithms", "Research Papers"]
    else ["Cutting-edge ML Research", "Novel Algorithm Development"]
  }

  function LinuxResources(j: nat): seq<string>
    requires j < 5
  {
    if j == 0 then ["Linux Journey", "Introduction to Linux"]
    else if j == 1 then ["Linux Command Line Basics", "Linux System Administration"]
    else if j == 2 then ["Advanced Linux Security", "Linux Hardening Guide"]
    else if j == 3 then ["Linux Kernel Security", "Security Auditing"]
    else ["Linux Security Research", "Kernel Development"]
  }

  function NetworkSecurityResources(j: nat): seq<string>
    requires j < 5
  {
    if j == 0 then ["Network Security Basics", "Introduction to Cybersecurity"]
    else if j == 1 then ["CompTIA Security+", "Network Security Fundamentals"]
    else if j == 2 then ["Ethical Hacking Course", "Penetration Testing"]
    else if j == 3 then ["Advanced Network Security", "Security Architecture"]
    else ["Security Research", "Zero-day Analysis"]
  }

  function WebFundamentalsResources(j: nat): seq<string>
    requires j < 5
  {
    if j == 0 then ["MDN: HTML Basics", "W3Schools: CSS Tutorial"]
    else if j == 1 then ["Responsive Web Design", "CSS Flexbox & Grid"]
    else if j == 2 then ["Advanced CSS Techniques", "CSS Animations"]
    else if j == 3 then ["CSS Architecture", "Performance Optimization"]
    else ["Web Standards Development", "Browser Engine Internals"]
  }

  function JavaScriptResources(j: nat): seq<string>
    requires j < 5
  {
    if j == 0 then ["JavaScript.info", "Codecademy: JavaScript"]
    else if j == 1 then ["You Don't Know JS", "JavaScript: The Good Parts"]
    else if j == 2 then ["Async JavaScript", "Modern JavaScript Features"]
    else if j == 3 then ["JavaScript Design Patterns", "Performance Optimization"]
    else ["V8 Engine Internals", "TC39 Proposals"]
  }

  /** The topic entries of the `c`-th course of the library, in the dictionary's order. */
  function CourseTopics(c: nat): (r: seq<LibraryTopic>)
    requires c < 4
    ensures |r| == 2 && forall t :: t in r ==> |t.levels| == 5
  {
    if c == 0 then
      [LibraryTopic("Stati", seq(5, j requires 0 <= j < 5 => StatiResources(j))),
       LibraryTopic("Python", seq(5, j requires 0 <= j < 5 => PythonResources(j)))]
    else if c == 1 then
      [LibraryTopic("calculus", seq(5, j requires 0 <= j < 5 => CalculusResources(j))),
       LibraryTopic("machine learning", seq(5, j requires 0 <= j < 5 => MachineLearningResources(j)))]
    else if c == 2 then
      [LibraryTopic("os_linux -cybersecurtiy", seq(5, j requires 0 <= j < 5 => LinuxResources(j))),
       LibraryTopic("network security", seq(5, j requires 0 <= j < 5 => NetworkSecurityResources(j)))]
    else
      [LibraryTopic("Web Fundamentals-HTML & CSS", seq(5, j requires 0 <= j < 5 => WebFundamentalsResources(j))),
       LibraryTopic("JavaScript", seq(5, j requires 0 <= j < 5 => JavaScriptResources(j)))]
  }

  /** Every topic entry of every course has resources for levels 1 to 5 and no others. */
  ghost predicate FiveLevels(library: map<string, seq<LibraryTopic>>)
  {
    forall c :: c in library ==> forall t :: t in library[c] ==> |t.levels| == 5
  }

  /** `_build_resource_library`: the four courses, two topic entries each. */
  function BuildLibrary(): (r: map<string, seq<LibraryTopic>>)
    ensures r.Keys == {"Data Science", "AI/ML", "Cybersecurity", "Full Stack"}
    ensures forall c :: c in r ==> |r[c]| == 2
    ensures FiveLevels(r)
  {
    map["Data Science" := CourseTopics(0), "AI/ML" := CourseTopics(1),
        "Cybersecurity" := CourseTopics(2), "Full Stack" := CourseTopics(3)]
  }

  /** `area.replace(' concepts', '').replace('Level ', '').strip()`. */
  function CleanArea(area: string): string
  {
    Strip(Replace(Replace(area, " concepts", ""), "Level ", ""))
  }

  /** Cleaning never lengthens an area name. */
  lemma CleanAreaShortens(area: string)
    ensures |CleanArea(area)| <= |area|
  {
    RemoveShortens(area, " concepts");
    RemoveShortens(Replace(area, " concepts", ""), "Level ");
  }

  /** The three generic resources naming the cleaned area and the level. */
  function Generic(areaClean: string, level: int): (r: seq<string>)
    ensures |r| == 3
  {
    ["Online search: \"" + areaClean + " tutorial level " + IntToString(level) + "\"",
     "YouTube: \"" + areaClean + " explained\"",
     "Practice exercises on " + areaClean]
  }

  /** The position of `key` among the entries (the dictionary's keys are distinct, so at most
      one matches), or `|topics|` when it is absent. */
  function KeyIndex(topics: seq<LibraryTopic>, key: string): (k: nat)
    ensures k <= |topics|
    ensures k < |topics| ==> topics[k].key == key
    ensures forall j :: 0 <= j < k ==> topics[j].key != key
  {
    if |topics| == 0 then 0
    else if topics[0].key == key then 0
    else 1 + KeyIndex(topics[1..], key)
  }

  /** A partial hit: one of the lower-cased key and area contains the other, and the entry has
      resources at `level`. */
  predicate Hit(entry: LibraryTopic, areaClean: string, level: int)
  {
    Matches(entry.key, areaClean) && |LevelList(entry, level)| > 0
  }

  /** One of the lower-cased key and area contains the other. */
  predicate Matches(key: string, areaClean: string)
  {
    Contains(Lower(areaClean), Lower(key)) || Contains(Lower(key), Lower(areaClean))
  }

  /** The first entry, in table order, that is a partial hit, or `|topics|` when none is. */
  function FirstHit(topics: seq<LibraryTopic>, areaClean: string, level: int): (i: nat)
    ensures i <= |topics|
    ensures i < |topics| ==> Hit(topics[i], areaClean, level)
    ensures forall j :: 0 <= j < i ==> !Hit(topics[j], areaClean, level)
  {
    if |topics| == 0 then 0
    else if Hit(topics[0], areaClean, level) then 0
    else 1 + FirstHit(topics[1..], areaClean, level)
  }

  /** A position with a hit and no hit before it is the first hit. */
  lemma {:induction false} FirstHitIs(topics: seq<LibraryTopic>, areaClean: string, level: int, i: nat)
    requires i <= |topics|
    requires i < |topics| ==> Hit(topics[i], areaClean, level)
    requires forall j :: 0 <= j < i ==> !Hit(topics[j], areaClean, level)
    ensures FirstHit(topics, areaClean, level) == i
  {
    if i > 0 {
      assert !Hit(topics[0], areaClean, level);
      assert forall j :: 0 <= j < i - 1 ==> topics[1..][j] == topics[j + 1];
      FirstHitIs(topics[1..], areaClean, level, i - 1);
    }
  }

  /** The lookup within one course: the exact entry's list at `level` when it is not empty;
      otherwise the list of the first partial hit; otherwise the generic list. Never empty. */
  function Lookup(topics: seq<LibraryTopic>, areaClean: string, level: int): (r: seq<string>)
    ensures |r| > 0
  {
    var k := KeyIndex(topics, areaClean);
    if k < |topics| && |LevelList(topics[k], level)| > 0 then LevelList(topics[k], level)
    else
      var i := FirstHit(topics, areaClean, level);
      if i < |topics| then LevelList(topics[i], level) else Generic(areaClean, level)
  }

  /** The lookup for an already cleaned area name: a course the library lacks gets the
      generic list. */
  function LookupClean(library: map<string, seq<LibraryTopic>>, course: string, areaClean: string, level: int): (r: seq<string>)
    ensures |r| > 0
  {
    if course in library then Lookup(library[course], areaClean, level) else Generic(areaClean, level)
  }

  /** `_get_resources` against `library`. */
  function ResourcesFor(library: map<string, seq<LibraryTopic>>, course: string, area: string, level: int): (r: seq<string>)
    ensures |r| > 0
  {
    LookupClean(library, course, CleanArea(area), level)
  }

  /** The lookup order, stated without the search functions: the first entry whose key is the
      area exactly, when it has resources at `level`; otherwise the first partial hit in table
      order; otherwise the generic list. */
  lemma LookupOrder(topics: seq<LibraryTopic>, areaClean: string, level: int)
    ensures var r := Lookup(topics, areaClean, level);
      var exact := (exists k :: 0 <= k < |topics| && topics[k].key == areaClean
                                 && (forall j :: 0 <= j < k ==> topics[j].key != areaClean)
                                 && |LevelList(topics[k], level)| > 0);
      || (exists k :: 0 <= k < |topics| && topics[k].key == areaClean
                      && (forall j :: 0 <= j < k ==> topics[j].key != areaClean)
                      && |LevelList(topics[k], level)| > 0 && r == LevelList(topics[k], level))
      || (!exact && exists i :: 0 <= i < |topics| && Hit(topics[i], areaClean, level)
                               && (forall j :: 0 <= j < i ==> !Hit(topics[j], areaClean, level))
                               && r == LevelList(topics[i], level))
      || (!exact && (forall i :: 0 <= i < |topics| ==> !Hit(topics[i], areaClean, level))
                 && r == Generic(areaClean, level))
  {
    var k := KeyIndex(topics, areaClean);
    var i := FirstHit(topics, areaClean, level);
    if !(k < |topics| && |LevelList(topics[k], level)| > 0) {
      forall k' | 0 <= k' < |topics| && topics[k'].key == areaClean && (forall j :: 0 <= j < k' ==> topics[j].key != areaClean)
        ensures |LevelList(topics[k'], level)| == 0
      {
        assert k' == k;
      }
    }
  }

  /** Every list the lookup returns is the generic one or a library list of that course at
      that very level. */
  lemma ResourcesSource(library: map<string, seq<LibraryTopic>>, course: string, area: string, level: int)
    ensures var r := ResourcesFor(library, course, area, level);
      r == Generic(CleanArea(area), level)
      || (course in library && exists t :: t in library[course] && r == LevelList(t, level) && |r| > 0)
  {
    var areaClean := CleanArea(area);
    if course in library {
      var topics := library[course];
      var k := KeyIndex(topics, areaClean);
      if k < |topics| {
        assert topics[k] in topics;
      }
      var i := FirstHit(topics, areaClean, level);
      if i < |topics| {
        assert topics[i] in topics;
      }
    }
  }

  /** In a library whose entries cover levels 1 to 5, a level outside that range (such as
      `actual_level + 1` at level 5) always falls through to the generic list. */
  lemma MissingLevelIsGeneric(library: map<string, seq<LibraryTopic>>, course: string, area: string, level: int)
    requires FiveLevels(library)
    requires !(1 <= level <= 5)
    ensures ResourcesFor(library, course, area, level) == Generic(CleanArea(area), level)
  {
    ResourcesSource(library, course, area, level);
  }

  /** One entry of a learning-path horizon. `score` is `current_score` before its one-decimal
      rendering; `target` is `target_score`, or for long-term goals the `goal`. */
  datatype PathItem = PathItem(area: string, score: real, target: string, resources: seq<string>, hours: nat)

  datatype LearningPath = LearningPath(
    immediateFocus: seq<PathItem>, shortTerm: seq<PathItem>, longTerm: seq<PathItem>, estimatedHours: nat)

  /** The priorities carrying `priority`, in order (`[p for p in priorities if p['priority'] == …]`). */
  function WithPriority(priorities: seq<PriorityItem>, priority: Priority): (r: seq<PriorityItem>)
    ensures |r| <= |priorities|
    ensures forall p :: p in r ==> p in priorities && p.priority == priority
  {
    if |priorities| == 0 then []
    else
      var rest := WithPriority(priorities[..|priorities| - 1], priority);
      var last := priorities[|priorities| - 1];
      if last.priority == priority then rest + [last] else rest
  }

  /** The path entries for a list of (area, score) pairs, all with the same target, level and hours. */
  function Entries(library: map<string, seq<LibraryTopic>>, course: string, areas: seq<string>, scores: seq<real>,
                   target: string, level: int, hours: nat): (r: seq<PathItem>)
    requires |areas| == |scores|
    ensures |r| == |areas|
  {
    seq(|areas|, i requires 0 <= i < |areas| =>
      PathItem(areas[i], scores[i], target, ResourcesFor(library, course, areas[i], level), hours))
  }

  /** One more (area, score) pair adds one entry at the end. */
  lemma EntriesSnoc(library: map<string, seq<LibraryTopic>>, course: string, areas: seq<string>, scores: seq<real>,
                    area: string, score: real, target: string, level: int, hours: nat)
    requires |areas| == |scores|
    ensures Entries(library, course, areas + [area], scores + [score], target, level, hours)
      == Entries(library, course, areas, scores, target, level, hours)
         + [PathItem(area, score, target, ResourcesFor(library, course, area, level), hours)]
  {
  }

  function Areas(ps: seq<PriorityItem>): (r: seq<string>)
    ensures |r| == |ps|
  {
    seq(|ps|, i requires 0 <= i < |ps| => ps[i].area)
  }

  function Scores(ps: seq<PriorityItem>): (r: seq<real>)
    ensures |r| == |ps|
  {
    seq(|ps|, i requires 0 <= i < |ps| => ps[i].score)
  }

  /** The entries for one more priority add its entry at the end. */
  lemma PrioritiesSnoc(library: map<string, seq<LibraryTopic>>, course: string, items: seq<PriorityItem>, i: nat,
                       target: string, level: int, hours: nat)
    requires i < |items|
    ensures Entries(library, course, Areas(items[..i + 1]), Scores(items[..i + 1]), target, level, hours)
      == Entries(library, course, Areas(items[..i]), Scores(items[..i]), target, level, hours)
         + [PathItem(items[i].area, items[i].score, target, ResourcesFor(library, course, items[i].area, level), hours)]
  {
    assert Areas(items[..i + 1]) == Areas(items[..i]) + [items[i].area];
    assert Scores(items[..i + 1]) == Scores(items[..i]) + [items[i].score];
    EntriesSnoc(library, course, Areas(items[..i]), Scores(items[..i]), items[i].area, items[i].score, target, level, hours);
  }

  function Percentages(ds: seq<TopicData>): (r: seq<real>)
    ensures |r| == |ds|
  {
    seq(|ds|, i requires 0 <= i < |ds| => ds[i].percentage)
  }

  /** The level the long-term goals are looked up at: two above the demonstrated level, at most 5. */
  function StretchLevel(actualLevel: int): (l: int)
    ensures l <= 5 && l <= actualLevel + 2
    ensures l == actualLevel + 2 || l == 5
  {
    if actualLevel + 2 < 5 then actualLevel + 2 else 5
  }

  /** The path: the first three High priorities at the demonstrated level (5 hours each, target
      70%+), the first three Medium ones a level up (3 hours, 80%+), the first two strong topics
      at the stretch level (2 hours); the hours add up. */
  function PathOf(library: map<string, seq<LibraryTopic>>, course: string, actualLevel: int,
                  strongTopics: seq<TopicData>, priorities: seq<PriorityItem>): LearningPath
  {
    var high := Take(WithPriority(priorities, High), 3);
    var medium := Take(WithPriority(priorities, Medium), 3);
    var strong := Take(strongTopics, 2);
    LearningPath(
      Entries(library, course, Areas(high), Scores(high), "70%+", actualLevel, 5),
      Entries(library, course, Areas(medium), Scores(medium), "80%+", actualLevel + 1, 3),
      Entries(library, course, Topics(strong), Percentages(strong), "Maintain and deepen expertise", StretchLevel(actualLevel), 2),
      5 * |high| + 3 * |medium| + 2 * |strong|)
  }

  /** The hour budget is the sum of the items' hours and never exceeds 5·3 + 3·3 + 2·2 = 28. */
  lemma PathHours(library: map<string, seq<LibraryTopic>>, course: string, actualLevel: int,
                  strongTopics: seq<TopicData>, priorities: seq<PriorityItem>)
    ensures var path := PathOf(library, course, actualLevel, strongTopics, priorities);
      && path.estimatedHours == 5 * |path.immediateFocus| + 3 * |path.shortTerm| + 2 * |path.longTerm|
      && |path.immediateFocus| <= 3 && |path.shortTerm| <= 3 && |path.longTerm| <= 2
      && path.estimatedHours <= 28
      && (forall item :: item in path.immediateFocus ==> item.hours == 5 && item.target == "70%+")
      && (forall item :: item in path.shortTerm ==> item.hours == 3 && item.target == "80%+")
      && (forall item :: item in path.longTerm ==> item.hours == 2)
  {
  }

  /** Filtering the priority list built by the analyser gives back its weak and its moderate topics. */
  lemma {:induction false} WithPriorityOfPrioritised(weak: seq<TopicData>, moderate: seq<TopicData>)
    ensures WithPriority(Prioritised(weak, moderate), High) == seq(|weak|, i requires 0 <= i < |weak| => PriorityOf(High, weak[i]))
    ensures WithPriority(Prioritised(weak, moderate), Medium) == seq(|moderate|, i requires 0 <= i < |moderate| => PriorityOf(Medium, moderate[i]))
  {
    var highs := seq(|weak|, i requires 0 <= i < |weak| => PriorityOf(High, weak[i]));
    var mediums := seq(|moderate|, i requires 0 <= i < |moderate| => PriorityOf(Medium, moderate[i]));
    assert Prioritised(weak, moderate) == highs + mediums;
    WithPriorityAll(highs, High);
    WithPriorityNone(highs, Medium);
    WithPriorityAll(mediums, Medium);
    WithPriorityNone(mediums, High);
    WithPriorityAppend(highs, mediums, High);
    WithPriorityAppend(highs, mediums, Medium);
  }

  lemma {:induction false} WithPriorityAll(ps: seq<PriorityItem>, priority: Priority)
    requires forall i :: 0 <= i < |ps| ==> ps[i].priority == priority
    ensures WithPriority(ps, priority) == ps
  {
    if |ps| > 0 {
      WithPriorityAll(ps[..|ps| - 1], priority);
      assert ps[..|ps| - 1] + [ps[|ps| - 1]] == ps;
    }
  }

  lemma {:induction false} WithPriorityNone(ps: seq<PriorityItem>, priority: Priority)
    requires forall i :: 0 <= i < |ps| ==> ps[i].priority != priority
    ensures WithPriority(ps, priority) == []
  {
    if |ps| > 0 {
      WithPriorityNone(ps[..|ps| - 1], priority);
    }
  }

  lemma {:induction false} WithPriorityAppend(a: seq<PriorityItem>, b: seq<PriorityItem>, priority: Priority)
    ensures WithPriority(a + b, priority) == WithPriority(a, priority) + WithPriority(b, priority)
  {
    if |b| > 0 {
      var b' := b[..|b| - 1];
      var last := b[|b| - 1];
      WithPriorityAppend(a, b', priority);
      assert (a + b)[..|a + b| - 1] == a + b';
      assert (a + b)[|a + b| - 1] == last;
      var tail := if last.priority == priority then [last] else [];
      assert WithPriority(b, priority) == WithPriority(b', priority) + tail;
      assert WithPriority(a + b, priority) == WithPriority(a + b', priority) + tail;
    } else {
      assert a + b == a;
    }
  }

  /** For the analyser's own priority list, the immediate focus is the first three weak
      topics, in the analyser's order. */
  lemma ImmediateFromAnalysis(library: map<string, seq<LibraryTopic>>, course: string, analysis: GapAnalysis)
    ensures var path := PathOf(library, course, analysis.actualLevel, analysis.strongTopics,
                               Prioritised(analysis.weakTopics, analysis.moderateTopics));
      && |path.immediateFocus| == (if |analysis.weakTopics| < 3 then |analysis.weakTopics| else 3)
      && (forall i :: 0 <= i < |path.immediateFocus| ==> path.immediateFocus[i].area == analysis.weakTopics[i].topic)
  {
    WithPriorityOfPrioritised(analysis.weakTopics, analysis.moderateTopics);
  }

  /** For the analyser's own priority list, the short term is the first three moderate
      topics, in the analyser's order. */
  lemma ShortTermFromAnalysis(library: map<string, seq<LibraryTopic>>, course: string, analysis: GapAnalysis)
    ensures var path := PathOf(library, course, analysis.actualLevel, analysis.strongTopics,
                               Prioritised(analysis.weakTopics, analysis.moderateTopics));
      && |path.shortTerm| == (if |analysis.moderateTopics| < 3 then |analysis.moderateTopics| else 3)
      && (forall i :: 0 <= i < |path.shortTerm| ==> path.shortTerm[i].area == analysis.moderateTopics[i].topic)
  {
    WithPriorityOfPrioritised(analysis.weakTopics, analysis.moderateTopics);
  }

  /** One row of the study schedule. */
  datatype ScheduleEntry = ScheduleEntry(week: int, focus: string, activities: seq<string>, hours: real)

  /** The schedule being built, the current week and the hours allocated so far. */
  datatype Scan = Scan(entries: seq<ScheduleEntry>, week: int, spent: nat)

  /** `item['resources'][0] if item['resources'] else 'Recommended materials'`. */
  function StudyLine(item: PathItem): string
  {
    "Study: " + (if |item.resources| > 0 then item.resources[0] else "Recommended materials")
  }

  function ImmediateEntry(item: PathItem, week: int): ScheduleEntry
  {
    ScheduleEntry(week, item.area, [StudyLine(item), "Practice problems and exercises", "Self-assessment quiz"], item.hours as real)
  }

  function ShortEntry(item: PathItem, week: int): ScheduleEntry
  {
    ScheduleEntry(week, item.area, [StudyLine(item), "Hands-on projects"], item.hours as real)
  }

  /** The week is used up once the hours allocated reach the weekly quota times the week number. */
  predicate Due(spent: nat, hoursPerWeek: real, week: int)
  {
    spent as real >= hoursPerWeek * week as real
  }

  /** The week counter moves on when the current week is used up. */
  function NextWeek(week: int, spent: nat, hoursPerWeek: real): (w: int)
    ensures w == week || w == week + 1
  {
    if Due(spent, hoursPerWeek, week) then week + 1 else week
  }

  /** The week counter never decreases and moves by at most one per scheduled entry: the
      first entry is in week `first`, each entry is in the week of the one before or the next,
      and the counter is at the last entry's week or the next (at `first` before any entry). */
  ghost predicate Steps(s: Scan, first: int)
  {
    && (|s.entries| == 0 ==> s.week == first)
    && (|s.entries| > 0 ==>
          && s.entries[0].week == first
          && s.entries[|s.entries| - 1].week <= s.week <= s.entries[|s.entries| - 1].week + 1)
    && forall i :: 0 <= i < |s.entries| - 1 ==>
         s.entries[i].week <= s.entries[i + 1].week <= s.entries[i].week + 1
  }

  /** Scheduling one more entry in the current week and then moving on by at most one keeps
      the counter steady. */
  lemma StepsSnoc(s: Scan, first: int, e: ScheduleEntry, week: int, spent: nat)
    requires Steps(s, first)
    requires e.week == s.week && (week == s.week || week == s.week + 1)
    ensures Steps(Scan(s.entries + [e], week, spent), first)
  {
    var entries := s.entries + [e];
    forall i | 0 <= i < |entries| - 1
      ensures entries[i].week <= entries[i + 1].week <= entries[i].week + 1
    {
      if i < |s.entries| - 1 {
        assert entries[i] == s.entries[i] && entries[i + 1] == s.entries[i + 1];
      } else {
        assert entries[i] == s.entries[|s.entries| - 1];
      }
    }
  }

  /** The immediate-focus loop from `start`: one entry per item, in order. */
  function ScanImmediate(start: Scan, items: seq<PathItem>, hoursPerWeek: real): (s: Scan)
    ensures |s.entries| == |start.entries| + |items|
    ensures s.entries[..|start.entries|] == start.entries
    ensures forall i :: 0 <= i < |items| ==> s.entries[|start.entries| + i].focus == items[i].area
    ensures start.week <= s.week <= start.week + |items|
  {
    if |items| == 0 then start
    else
      var s := ScanImmediate(start, items[..|items| - 1], hoursPerWeek);
      var item := items[|items| - 1];
      var spent := s.spent + item.hours;
      Scan(s.entries + [ImmediateEntry(item, s.week)], NextWeek(s.week, spent, hoursPerWeek), spent)
  }

  /** The short-term loop from `start`, which stops as soon as the week counter passes `weeks`. */
  function ScanShort(start: Scan, items: seq<PathItem>, hoursPerWeek: real, weeks: int): (s: Scan)
    ensures |start.entries| <= |s.entries| <= |start.entries| + |items|
    ensures s.entries[..|start.entries|] == start.entries
    ensures forall i :: |start.entries| <= i < |s.entries| ==> s.entries[i].focus == items[i - |start.entries|].area
    ensures forall i :: |start.entries| <= i < |s.entries| ==> s.entries[i].week <= weeks
    ensures start.week <= s.week
    ensures s.week <= weeks ==> |s.entries| == |start.entries| + |items|
  {
    if |items| == 0 then start
    else
      var s := ScanShort(start, items[..|items| - 1], hoursPerWeek, weeks);
      var item := items[|items| - 1];
      if s.week > weeks then s
      else
        var spent := s.spent + item.hours;
        Scan(s.entries + [ShortEntry(item, s.week)], NextWeek(s.week, spent, hoursPerWeek), spent)
  }

  /** The immediate-focus scan over one more item schedules it in the current week. */
  lemma ScanImmediateStep(start: Scan, items: seq<PathItem>, i: nat, hoursPerWeek: real,
                          entries: seq<ScheduleEntry>, week: int, spent: nat)
    requires i < |items|
    requires Scan(entries, week, spent) == ScanImmediate(start, items[..i], hoursPerWeek)
    ensures Scan(entries + [ImmediateEntry(items[i], week)],
                 NextWeek(week, spent + items[i].hours, hoursPerWeek), spent + items[i].hours)
            == ScanImmediate(start, items[..i + 1], hoursPerWeek)
  {
    assert items[..i + 1][..i] == items[..i];
  }

  /** The short-term scan over one more item, while the week is within `weeks`, schedules it
      in the current week. */
  lemma ScanShortStep(start: Scan, items: seq<PathItem>, i: nat, hoursPerWeek: real, weeks: int,
                      entries: seq<ScheduleEntry>, week: int, spent: nat)
    requires i < |items| && week <= weeks
    requires Scan(entries, week, spent) == ScanShort(start, items[..i], hoursPerWeek, weeks)
    ensures Scan(entries + [ShortEntry(items[i], week)],
                 NextWeek(week, spent + items[i].hours, hoursPerWeek), spent + items[i].hours)
            == ScanShort(start, items[..i + 1], hoursPerWeek, weeks)
  {
    assert items[..i + 1][..i] == items[..i];
  }

  /** The review entry closing the schedule. */
  function ReviewEntry(weeks: int, hoursPerWeek: real): ScheduleEntry
  {
    ScheduleEntry(weeks, "Review and Advanced Topics",
                  ["Review all weak areas", "Complete practice assessments", "Explore advanced topics"], hoursPerWeek)
  }

  /** The weekly quota of hours. */
  function HoursPerWeek(path: LearningPath, weeks: int): real
    requires weeks > 0
  {
    path.estimatedHours as real / weeks as real
  }

  /** The scan state after both loops. */
  function FinalScan(path: LearningPath, weeks: int): Scan
    requires weeks > 0
  {
    var hoursPerWeek := HoursPerWeek(path, weeks);
    ScanShort(ScanImmediate(Scan([], 1, 0), path.immediateFocus, hoursPerWeek), path.shortTerm, hoursPerWeek, weeks)
  }

  /** The schedule: the immediate entries, the short-term entries up to week `weeks`, and the
      review entry when the week counter has not passed `weeks`. */
  function ScheduleOf(path: LearningPath, weeks: int): seq<ScheduleEntry>
    requires weeks > 0
  {
    var s := FinalScan(path, weeks);
    if s.week <= weeks then s.entries + [ReviewEntry(weeks, HoursPerWeek(path, weeks))] else s.entries
  }

  /** Both loops keep the week counter steady: it starts at 1, never decreases and moves on by
      at most one per entry. */
  lemma {:induction false} ScanImmediateSteps(start: Scan, items: seq<PathItem>, hoursPerWeek: real, first: int)
    requires Steps(start, first)
    ensures Steps(ScanImmediate(start, items, hoursPerWeek), first)
  {
    if |items| > 0 {
      ScanImmediateSteps(start, items[..|items| - 1], hoursPerWeek, first);
      var s := ScanImmediate(start, items[..|items| - 1], hoursPerWeek);
      var item := items[|items| - 1];
      var spent := s.spent + item.hours;
      StepsSnoc(s, first, ImmediateEntry(item, s.week), NextWeek(s.week, spent, hoursPerWeek), spent);
    }
  }

  lemma {:induction false} ScanShortSteps(start: Scan, items: seq<PathItem>, hoursPerWeek: real, weeks: int, first: int)
    requires Steps(start, first)
    ensures Steps(ScanShort(start, items, hoursPerWeek, weeks), first)
  {
    if |items| > 0 {
      ScanShortSteps(start, items[..|items| - 1], hoursPerWeek, weeks, first);
      var s := ScanShort(start, items[..|items| - 1], hoursPerWeek, weeks);
      if s.week <= weeks {
        var item := items[|items| - 1];
        var spent := s.spent + item.hours;
        StepsSnoc(s, first, ShortEntry(item, s.week), NextWeek(s.week, spent, hoursPerWeek), spent);
      }
    }
  }

  /** Once the counter has passed `weeks`, further short-term items are skipped. */
  lemma {:induction false} ScanShortStopped(start: Scan, items: seq<PathItem>, hoursPerWeek: real, weeks: int, k: nat)
    requires k <= |items|
    requires ScanShort(start, items[..k], hoursPerWeek, weeks).week > weeks
    ensures ScanShort(start, items, hoursPerWeek, weeks) == ScanShort(start, items[..k], hoursPerWeek, weeks)
    decreases |items|
  {
    if k < |items| {
      var init := items[..|items| - 1];
      assert init[..k] == items[..k];
      ScanShortStopped(start, init, hoursPerWeek, weeks, k);
    } else {
      assert items[..k] == items;
    }
  }

  /** The weeks of the schedule start at 1, never decrease and rise by at most one per entry
      until the review entry, which, for week `weeks` with the weekly quota of hours, closes
      the schedule exactly when the counter has not passed `weeks`. */
  lemma ScheduleWeeks(path: LearningPath, weeks: int)
    requires weeks > 0
    ensures Steps(FinalScan(path, weeks), 1)
    ensures FinalScan(path, weeks).week <= weeks <==> |ScheduleOf(path, weeks)| == |FinalScan(path, weeks).entries| + 1
    ensures FinalScan(path, weeks).week <= weeks ==>
              ScheduleOf(path, weeks)[|FinalScan(path, weeks).entries|] == ReviewEntry(weeks, HoursPerWeek(path, weeks))
  {
    var hoursPerWeek := HoursPerWeek(path, weeks);
    var start := Scan([], 1, 0);
    ScanImmediateSteps(start, path.immediateFocus, hoursPerWeek, 1);
    var s1 := ScanImmediate(start, path.immediateFocus, hoursPerWeek);
    ScanShortSteps(s1, path.shortTerm, hoursPerWeek, weeks, 1);
  }

  /** The schedule opens with one entry per immediate item and then one per scheduled
      short-term item, in order, and the short-term entries stay within `weeks`. */
  lemma ScheduleFoci(path: LearningPath, weeks: int)
    requires weeks > 0
    ensures var s := FinalScan(path, weeks);
      && |path.immediateFocus| <= |s.entries| <= |path.immediateFocus| + |path.shortTerm|
      && ScheduleOf(path, weeks)[..|s.entries|] == s.entries
      && (forall i :: 0 <= i < |path.immediateFocus| ==> s.entries[i].focus == path.immediateFocus[i].area)
      && (forall i :: |path.immediateFocus| <= i < |s.entries| ==>
            s.entries[i].focus == path.shortTerm[i - |path.immediateFocus|].area && s.entries[i].week <= weeks)
  {
    var hoursPerWeek := HoursPerWeek(path, weeks);
    var s1 := ScanImmediate(Scan([], 1, 0), path.immediateFocus, hoursPerWeek);
    var s := ScanShort(s1, path.shortTerm, hoursPerWeek, weeks);
    assert s == FinalScan(path, weeks);
    forall i | 0 <= i < |path.immediateFocus|
      ensures s.entries[i].focus == path.immediateFocus[i].area
    {
      assert s.entries[i] == s1.entries[i];
    }
  }

  /** `LearningPathGenerator`: the resource library is built once, when the generator is made,
      and only read afterwards. */
  class LearningPathGenerator {
    const library: map<string, seq<LibraryTopic>>

    constructor()
      ensures library == BuildLibrary()
    {
      library := BuildLibrary();
    }

    /** `_get_resources`: the area name is cleaned, then looked up. */
    method GetResources(course: string, area: string, level: int) returns (r: seq<string>)
      ensures r == ResourcesFor(library, course, area, level)
    {
      var areaClean := CleanArea(area);
      r := LookupCleaned(course, areaClean, level);
    }

    /** The lookup proper: the exact key, then a scan of the keys in table order that returns
        at the first partial hit, then the generic list. */
    method LookupCleaned(course: string, areaClean: string, level: int) returns (r: seq<string>)
      ensures r == LookupClean(library, course, areaClean, level)
    {
      if course in library {
        var courseResources := library[course];
        var k := KeyIndex(courseResources, areaClean);
        if k < |courseResources| {
          var levelResources := LevelList(courseResources[k], level);
          if |levelResources| > 0 {
            return levelResources;
          }
        }
        for i := 0 to |courseResources|
          invariant forall j :: 0 <= j < i ==> !Hit(courseResources[j], areaClean, level)
        {
          var topicKey := courseResources[i].key;
          if Matches(topicKey, areaClean) {
            var levelResources := LevelList(courseResources[i], level);
            if |levelResources| > 0 {
              FirstHitIs(courseResources, areaClean, level, i);
              return levelResources;
            }
          }
        }
        FirstHitIs(courseResources, areaClean, level, |courseResources|);
      }
      return Generic(areaClean, level);
    }

    /** One horizon's loop: an entry per item, with the resources at `level`, each adding
        `hours` to the running total. */
    method AddItems(course: string, items: seq<PriorityItem>, target: string, level: int, hours: nat,
                    estimatedHours: nat)
      returns (entries: seq<PathItem>, estimatedHours': nat)
      ensures entries == Entries(library, course, Areas(items), Scores(items), target, level, hours)
      ensures estimatedHours' == estimatedHours + hours * |items|
    {
      entries, estimatedHours' := [], estimatedHours;
      for i := 0 to |items|
        invariant entries == Entries(library, course, Areas(items[..i]), Scores(items[..i]), target, level, hours)
        invariant estimatedHours' == estimatedHours + hours * i
      {
        var item := items[i];
        PrioritiesSnoc(library, course, items, i, target, level, hours);
        var resources := GetResources(course, item.area, level);
        entries := entries + [PathItem(item.area, item.score, target, resources, hours)];
        estimatedHours' := estimatedHours' + hours;
        assert hours * (i + 1) == hours * i + hours;
      }
      assert items[..|items|] == items;
    }

    /** `generate_learning_path`. */
    method GenerateLearningPath(course: string, gapAnalysis: GapAnalysis, priorities: seq<PriorityItem>)
      returns (path: LearningPath)
      ensures path == PathOf(library, course, gapAnalysis.actualLevel, gapAnalysis.strongTopics, priorities)
    {
      var estimatedHours := 0;
      var highPriority := Take(WithPriority(priorities, High), 3);
      var immediate;
      immediate, estimatedHours := AddItems(course, highPriority, "70%+", gapAnalysis.actualLevel, 5, estimatedHours);
      var mediumPriority := Take(WithPriority(priorities, Medium), 3);
      var shortTerm;
      shortTerm, estimatedHours := AddItems(course, mediumPriority, "80%+", gapAnalysis.actualLevel + 1, 3, estimatedHours);
      var strong := Take(gapAnalysis.strongTopics, 2);
      var longLevel := StretchLevel(gapAnalysis.actualLevel);
      var longTerm := [];
      for i := 0 to |strong|
        invariant longTerm == Entries(library, course, Topics(strong[..i]), Percentages(strong[..i]),
                                      "Maintain and deepen expertise", longLevel, 2)
        invariant estimatedHours == 5 * |highPriority| + 3 * |mediumPriority| + 2 * i
      {
        var topic := strong[i];
        assert Topics(strong[..i + 1]) == Topics(strong[..i]) + [topic.topic];
        assert Percentages(strong[..i + 1]) == Percentages(strong[..i]) + [topic.percentage];
        EntriesSnoc(library, course, Topics(strong[..i]), Percentages(strong[..i]), topic.topic, topic.percentage,
                    "Maintain and deepen expertise", longLevel, 2);
        var resources := GetResources(course, topic.topic, longLevel);
        longTerm := longTerm + [PathItem(topic.topic, topic.percentage, "Maintain and deepen expertise", resources, 2)];
        estimatedHours := estimatedHours + 2;
      }
      assert strong[..|strong|] == strong;
      path := LearningPath(immediate, shortTerm, longTerm, estimatedHours);
    }

    /** `generate_study_schedule`: `weeks` must be positive, since the weekly quota divides by it. */
    method GenerateStudySchedule(path: LearningPath, weeks: int) returns (schedule: seq<ScheduleEntry>)
      requires weeks > 0
      ensures schedule == ScheduleOf(path, weeks)
    {
      var totalHours := path.estimatedHours;
      var hoursPerWeek := totalHours as real / weeks as real;
      var s1 := ScheduleImmediate(path.immediateFocus, hoursPerWeek);
      var s2 := ScheduleShortTerm(s1, path.shortTerm, hoursPerWeek, weeks);
      schedule := s2.entries;
      if s2.week <= weeks {
        schedule := schedule + [ReviewEntry(weeks, hoursPerWeek)];
      }
    }
  }

  /** The immediate-focus loop of `generate_study_schedule`, from week 1 with no hours spent. */
  method ScheduleImmediate(immediate: seq<PathItem>, hoursPerWeek: real) returns (s: Scan)
    ensures s == ScanImmediate(Scan([], 1, 0), immediate, hoursPerWeek)
  {
    var schedule := [];
    var currentWeek := 1;
    var hoursAllocated: nat := 0;
    var start := Scan([], 1, 0);
    for i := 0 to |immediate|
      invariant Scan(schedule, currentWeek, hoursAllocated) == ScanImmediate(start, immediate[..i], hoursPerWeek)
    {
      ScanImmediateStep(start, immediate, i, hoursPerWeek, schedule, currentWeek, hoursAllocated);
      var item := immediate[i];
      schedule := schedule + [ImmediateEntry(item, currentWeek)];
      hoursAllocated := hoursAllocated + item.hours;
      currentWeek := NextWeek(currentWeek, hoursAllocated, hoursPerWeek);
    }
    assert immediate[..|immediate|] == immediate;
    s := Scan(schedule, currentWeek, hoursAllocated);
  }

  /** The short-term loop of `generate_study_schedule`, which stops once the week counter
      passes `weeks`. */
  method ScheduleShortTerm(s1: Scan, shortTerm: seq<PathItem>, hoursPerWeek: real, weeks: int) returns (s: Scan)
    ensures s == ScanShort(s1, shortTerm, hoursPerWeek, weeks)
  {
    var schedule := s1.entries;
    var currentWeek := s1.week;
    var hoursAllocated: nat := s1.spent;
    var i := 0;
    while i < |shortTerm|
      invariant 0 <= i <= |shortTerm|
      invariant Scan(schedule, currentWeek, hoursAllocated) == ScanShort(s1, shortTerm[..i], hoursPerWeek, weeks)
    {
      if currentWeek > weeks {
        ScanShortStopped(s1, shortTerm, hoursPerWeek, weeks, i);
        break;
      }
      ScanShortStep(s1, shortTerm, i, hoursPerWeek, weeks, schedule, currentWeek, hoursAllocated);
      var item := shortTerm[i];
      schedule := schedule + [ShortEntry(item, currentWeek)];
      hoursAllocated := hoursAllocated + item.hours;
      currentWeek := NextWeek(currentWeek, hoursAllocated, hoursPerWeek);
      i := i + 1;
    }
    if i == |shortTerm| {
      assert shortTerm[..i] == shortTerm;
    }
    s := Scan(schedule, currentWeek, hoursAllocated);
  }
}
