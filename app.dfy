/** The single-page application's own copy of the pipeline (app.py): a smaller question bank
    (20 rows per course), a quiz of at most 20 questions, a fixed six-hour learning path and a
    four-week schedule, and the tables and report the results page derives. Its scoring and
    gap analysis are the same code as the modules', modelled once in `Assessment` and `Gaps`. */
module App {
  import opened Common
  import opened Text
  import Questions
  import Assessment
  import Gaps
  import Learning

  /** Rows generated per course. */
  const BankSize: nat := 20
  /** Questions requested per level. */
  const PerLevel: nat := 4
  /** The quiz is cut to this many questions. */
  const MaxQuestions: nat := 20

  /** The Data Science templates: the module's first four, except that the second question
      does not mention Python. */
  function DataScienceTemplate(j: nat): Questions.Template
    requires j < 4
  {
    if j == 1 then Questions.Template("Which library is used for data manipulation?", "NumPy", "Pandas", "Matplotlib", "Scikit-learn", 1)
    else Questions.DataScienceTemplate(j)
  }

  /** `course_configs[course_name]`: four topics and four templates per course, `None` for a
      course the dictionary lacks. The templates of the other courses are the module's first
      four. */
  function ConfigFor(course: string): (r: Option<Questions.CourseConfig>)
    ensures r.Some? <==> course in Questions.Courses
    ensures r.Some? ==> |r.value.topics| == 4 && |r.value.templates| == 4
  {
    if course == "Data Science" then
      Some(Questions.CourseConfig(["Statistics", "Python", "Data Visualization", "Machine Learning"],
                                  seq(4, j requires 0 <= j < 4 => DataScienceTemplate(j))))
    else if course == "AI/ML" then
      Some(Questions.CourseConfig(["Linear Algebra", "Calculus", "Neural Networks", "Deep Learning"],
                                  seq(4, j requires 0 <= j < 4 => Questions.MachineLearningTemplate(j))))
    else if course == "Cybersecurity" then
      Some(Questions.CourseConfig(["Network Security", "Cryptography", "Ethical Hacking", "OS Security"],
                                  seq(4, j requires 0 <= j < 4 => Questions.CybersecurityTemplate(j))))
    else if course == "Full Stack" then
      Some(Questions.CourseConfig(["HTML/CSS", "JavaScript", "React", "Node.js"],
                                  seq(4, j requires 0 <= j < 4 => Questions.FullStackTemplate(j))))
    else None
  }

  /** The bank generated for a configured course (empty for any other): row `i` at level
      `i % 5 + 1`, with topic and template `i % 4` and id `course[:2].lower() + "_" + str(i + 1)`. */
  function Bank(course: string): seq<Questions.Question>
  {
    match ConfigFor(course)
    case Some(config) => Questions.SampleBank(course, config, BankSize)
    case None => []
  }

  /** Twenty rows; row `i` has level `i % 5 + 1` and the `i % 4`-th topic. */
  lemma BankRows(course: string)
    requires course in Questions.Courses
    ensures |Bank(course)| == BankSize
    ensures forall i :: 0 <= i < BankSize ==>
      Bank(course)[i].level == i % 5 + 1 && Bank(course)[i].topic == ConfigFor(course).value.topics[i % 4]
  {
    var config := ConfigFor(course).value;
    assert Bank(course) == Questions.SampleBank(course, config, BankSize);
  }

  /** Four rows at each level 1..5 and none elsewhere. */
  lemma BankLevels(course: string, level: int)
    requires course in Questions.Courses
    ensures |Questions.AtLevel(Bank(course), level)| == if 1 <= level <= 5 then PerLevel else 0
  {
    var config := ConfigFor(course).value;
    assert Bank(course) == Questions.SampleBank(course, config, 5 * 4);
    Questions.SampleLevelCount(course, config, 4, level);
  }

  /** The row asking topic `m` at level `level`: `5 * k + level - 1` with `k = (m - level + 1) mod 4`. */
  lemma RowFor(level: int, m: nat) returns (i: nat)
    requires 1 <= level <= 5 && m < 4
    ensures i < BankSize && i % 5 + 1 == level && i % 4 == m
  {
    var k := (m - level + 1) % 4;
    i := 5 * k + level - 1;
    assert i == 4 * (k - (m - level + 1) / 4) + m;
  }

  /** Every topic of the course is asked at every level (in the module's bank each level has
      a single topic). */
  lemma EveryTopicAtEveryLevel(course: string, level: int, m: nat)
    requires course in Questions.Courses && 1 <= level <= 5 && m < 4
    ensures exists q :: q in Questions.AtLevel(Bank(course), level) && q.topic == ConfigFor(course).value.topics[m]
  {
    var i := RowFor(level, m);
    BankRows(course);
    var bank := Bank(course);
    var q := bank[i];
    assert q in bank && q.level == level;
    assert q in Questions.AtLevel(bank, level);
  }

  /** `_create_sample_data`: the course's twenty rows, built one by one; only ever called for a
      configured course (any other raises `KeyError`). */
  method CreateSampleData(courseName: string) returns (sampleData: seq<Questions.Question>)
    requires courseName in Questions.Courses
    ensures sampleData == Bank(courseName)
  {
    var config := ConfigFor(courseName).value;
    sampleData := [];
    for i := 0 to BankSize
      invariant sampleData == Questions.SampleBank(courseName, config, i)
    {
      var t := config.templates[i % |config.templates|];
      var row := Questions.Question(Lower(Take(courseName, 2)) + "_" + NatToString(i + 1), courseName,
                                    config.topics[i % |config.topics|], i % 5 + 1,
                                    t.question, t.a, t.b, t.c, t.d, t.correct);
      assert row == Questions.SampleRecord(courseName, config, i);
      Questions.SampleBankStep(courseName, config, i);
      sampleData := sampleData + [row];
    }
  }

  /** The app's question tables: every course's bank, loaded when the processor is made. */
  class DataProcessor {
    var courses: seq<string>
    var questionBanks: map<string, seq<Questions.Question>>

    constructor ()
      ensures courses == Questions.Courses
      ensures questionBanks == map c | c in Questions.Courses :: Bank(c)
    {
      courses := Questions.Courses;
      questionBanks := map[];
      new;
      LoadAllCourses();
    }

    /** Loading one more course extends the banks loaded so far by that course's bank. */
    static lemma BanksStep(m: map<string, seq<Questions.Question>>, names: seq<string>, k: nat)
      requires k < |names|
      ensures (m + map c | c in names[..k] :: Bank(c))[names[k] := Bank(names[k])]
        == m + map c | c in names[..k + 1] :: Bank(c)
    {
      assert names[..k + 1] == names[..k] + [names[k]];
    }

    /** `load_all_courses`: every course gets its generated bank. */
    method LoadAllCourses()
      requires forall c :: c in courses ==> c in Questions.Courses
      modifies this`questionBanks
      ensures questionBanks == old(questionBanks) + map c | c in courses :: Bank(c)
    {
      var names := courses;
      for k := 0 to |names|
        invariant questionBanks == old(questionBanks) + map c | c in names[..k] :: Bank(c)
      {
        var bank := CreateSampleData(names[k]);
        BanksStep(old(questionBanks), names, k);
        questionBanks := questionBanks[names[k] := bank];
      }
      assert names[..|names|] == names;
    }

    /** `get_questions_by_level`: the bank's rows at `level`; when `limit` is truthy and smaller
        than the number of matches, `limit` of them drawn without replacement. Unlike the
        module's version there is no separate case for an empty bank. */
    function GetQuestionsByLevel(course: string, level: int, limit: Option<nat>, draw: nat -> nat): (r: seq<Questions.Question>)
      reads this
      ensures course !in questionBanks ==> r == []
      ensures course in questionBanks ==>
        var matching := Questions.AtLevel(questionBanks[course], level);
        && multiset(r) <= multiset(matching)
        && (forall q :: q in r ==> q in questionBanks[course] && q.level == level)
        && |r| == (if Questions.Truthy(limit) && |matching| > limit.value then limit.value else |matching|)
        && (!(Questions.Truthy(limit) && |matching| > limit.value) ==> r == matching)
    {
      if course !in questionBanks then []
      else
        var filtered := Questions.AtLevel(questionBanks[course], level);
        if Questions.Truthy(limit) && |filtered| > limit.value then
          var r := Take(Shuffled(filtered, draw), limit.value);
          assert forall q :: q in r ==> q in filtered by {
            forall q | q in r ensures q in filtered {
              assert multiset(r)[q] > 0;
            }
          }
          r
        else filtered
    }

    /** `get_level_distribution`: (level, count) pairs in ascending level order, nothing for an
        unknown course; no placeholder for an empty bank. */
    function GetLevelDistribution(course: string): (d: seq<(int, nat)>)
      reads this
      ensures course !in questionBanks ==> d == []
      ensures course in questionBanks ==>
        && Questions.SumCounts(d) == |questionBanks[course]|
        && (forall i, j :: 0 <= i < j < |d| ==> d[i].0 < d[j].0)
        && (forall l :: l in Questions.LevelsOf(questionBanks[course]) <==> l in Questions.KeysOf(d))
        && (forall i :: 0 <= i < |d| ==> d[i].1 == |Questions.AtLevel(questionBanks[course], d[i].0)| > 0)
    {
      if course !in questionBanks then [] else Questions.LevelCounts(Questions.LevelsOf(questionBanks[course]))
    }
  }

  /** The five per-level fetches of four questions each. One `sampleDraw` serves all five, while
      the app samples each fetch independently; no behaviour is lost, since every level of an
      app bank holds exactly four rows, the limit, so no fetch samples (`SelectionsUnsampled`). */
  function Selections(dp: DataProcessor, course: string, sampleDraw: nat -> nat): (sel: seq<seq<Questions.Question>>)
    reads dp
    ensures |sel| == 5
  {
    seq(5, l requires 0 <= l < 5 reads dp => dp.GetQuestionsByLevel(course, l + 1, Some(PerLevel), sampleDraw))
  }

  /** Each fetch holds at most four rows of the course's bank, all at the fetched level. */
  lemma SelectionsSound(dp: DataProcessor, course: string, sampleDraw: nat -> nat)
    ensures var sel := Selections(dp, course, sampleDraw);
      && (forall l :: 0 <= l < 5 ==> |sel[l]| <= PerLevel)
      && (forall l, q :: 0 <= l < 5 && q in sel[l] ==>
            course in dp.questionBanks && q in dp.questionBanks[course] && q.level == l + 1)
  {
  }

  /** On the app's own banks a fetch of four returns its level's rows whole, in bank order:
      every level holds exactly four, so the sampling branch is never taken. */
  lemma SelectionsUnsampled(dp: DataProcessor, course: string, level: int, sampleDraw: nat -> nat)
    requires course in Questions.Courses && course in dp.questionBanks && dp.questionBanks[course] == Bank(course)
    ensures dp.GetQuestionsByLevel(course, level, Some(PerLevel), sampleDraw) == Questions.AtLevel(Bank(course), level)
  {
    BankLevels(course, level);
    FetchWhole(dp, course, level, sampleDraw);
  }

  /** A fetch whose level holds no more rows than the limit returns them all. */
  lemma FetchWhole(dp: DataProcessor, course: string, level: int, sampleDraw: nat -> nat)
    requires course in dp.questionBanks
    requires |Questions.AtLevel(dp.questionBanks[course], level)| <= PerLevel
    ensures dp.GetQuestionsByLevel(course, level, Some(PerLevel), sampleDraw) == Questions.AtLevel(dp.questionBanks[course], level)
  {
    assert !Questions.Truthy(Some(PerLevel)) || |Questions.AtLevel(dp.questionBanks[course], level)| <= PerLevel;
  }

  /** The collection loop of `generate_adaptive_quiz`: level by level, each fetched question
      appended with its level and numbered after everything already collected. */
  method CollectPool(dp: DataProcessor, course: string, sampleDraw: nat -> nat) returns (pool: seq<Assessment.QuizItem>)
    ensures pool == Assessment.Pool(Selections(dp, course, sampleDraw))
  {
    ghost var sel := Selections(dp, course, sampleDraw);
    pool := [];
    for level := 1 to 6
      invariant pool == Assessment.Pool(sel[..level - 1])
    {
      var questions := dp.GetQuestionsByLevel(course, level, Some(PerLevel), sampleDraw);
      assert questions == sel[level - 1];
      pool := Assessment.AppendLevel(pool, questions, level);
      Assessment.PoolStep(sel, level - 1);
    }
    assert sel[..5] == sel;
  }

  /** Renumbering and then cutting gives what cutting and then renumbering gives. */
  lemma RenumberThenCut(items: seq<Assessment.QuizItem>, max: nat)
    ensures Take(Assessment.Renumbered(items), max) == Assessment.Renumbered(Take(items, max))
  {
  }

  /** `generate_adaptive_quiz` of the app: up to four questions from each level, shuffled,
      renumbered, then cut to 20. Since at most 20 are collected the cut never drops one, and
      the quiz is numbered 1..N in order and holds exactly the collected questions with their
      levels. `initialLevel` is accepted and ignored. */
  method GenerateAdaptiveQuiz(dp: DataProcessor, course: string, initialLevel: int,
                              sampleDraw: nat -> nat, shuffleDraw: nat -> nat)
    returns (quiz: seq<Assessment.QuizItem>)
    ensures quiz == Assessment.Composed(Selections(dp, course, sampleDraw), shuffleDraw, MaxQuestions)
    ensures |quiz| <= MaxQuestions
    ensures forall i :: 0 <= i < |quiz| ==> quiz[i].questionNumber == i + 1
    ensures forall it :: it in quiz ==>
      && 1 <= it.adaptiveLevel <= 5
      && it.questionData.level == it.adaptiveLevel
      && course in dp.questionBanks && it.questionData in dp.questionBanks[course]
    ensures multiset(Assessment.Entries(quiz)) == multiset(Assessment.Entries(Assessment.Pool(Selections(dp, course, sampleDraw))))
  {
    var quizQuestions := CollectPool(dp, course, sampleDraw);
    quizQuestions := Shuffled(quizQuestions, shuffleDraw);
    quizQuestions := Assessment.Renumber(quizQuestions);
    RenumberThenCut(Shuffled(Assessment.Pool(Selections(dp, course, sampleDraw)), shuffleDraw), MaxQuestions);
    quiz := Take(quizQuestions, MaxQuestions);
    ComposedSound(dp, course, sampleDraw, shuffleDraw);
    ComposedItemsSound(dp, course, sampleDraw, shuffleDraw);
  }

  /** Every entry of the composed quiz comes from the course's bank, at the level it is tagged with. */
  lemma ComposedItemSound(dp: DataProcessor, course: string, sampleDraw: nat -> nat, shuffleDraw: nat -> nat, it: Assessment.QuizItem)
    requires it in Assessment.Composed(Selections(dp, course, sampleDraw), shuffleDraw, MaxQuestions)
    ensures 1 <= it.adaptiveLevel <= 5 && it.questionData.level == it.adaptiveLevel
    ensures course in dp.questionBanks && it.questionData in dp.questionBanks[course]
  {
    var sel := Selections(dp, course, sampleDraw);
    Assessment.ComposedFromPool(sel, shuffleDraw, MaxQuestions, it);
    SelectionsSound(dp, course, sampleDraw);
  }

  /** The composed quiz over the app's fetches is numbered 1..N in order, holds at most 20
      entries, and holds every collected question once with its level. */
  lemma ComposedSound(dp: DataProcessor, course: string, sampleDraw: nat -> nat, shuffleDraw: nat -> nat)
    ensures var sel := Selections(dp, course, sampleDraw);
      var quiz := Assessment.Composed(sel, shuffleDraw, MaxQuestions);
      && |quiz| <= MaxQuestions
      && (forall i :: 0 <= i < |quiz| ==> quiz[i].questionNumber == i + 1)
      && multiset(Assessment.Entries(quiz)) == multiset(Assessment.Entries(Assessment.Pool(sel)))
  {
    var sel := Selections(dp, course, sampleDraw);
    SelectionsSound(dp, course, sampleDraw);
    Assessment.ComposedShape(sel, shuffleDraw, MaxQuestions);
    Assessment.PoolSize(sel, PerLevel);
  }

  /** Every entry of the composed quiz comes from the course's bank, at its level. */
  lemma ComposedItemsSound(dp: DataProcessor, course: string, sampleDraw: nat -> nat, shuffleDraw: nat -> nat)
    ensures forall it :: it in Assessment.Composed(Selections(dp, course, sampleDraw), shuffleDraw, MaxQuestions) ==>
      && 1 <= it.adaptiveLevel <= 5
      && it.questionData.level == it.adaptiveLevel
      && course in dp.questionBanks && it.questionData in dp.questionBanks[course]
  {
    forall it | it in Assessment.Composed(Selections(dp, course, sampleDraw), shuffleDraw, MaxQuestions)
      ensures 1 <= it.adaptiveLevel <= 5 && it.questionData.level == it.adaptiveLevel
      ensures course in dp.questionBanks && it.questionData in dp.questionBanks[course]
    {
      ComposedItemSound(dp, course, sampleDraw, shuffleDraw, it);
    }
  }

  /** The four resources of a focus area. */
  function FocusResources(area: string): seq<string>
  {
    ["Online tutorials on " + area, "Practice exercises for " + area,
     "Video courses covering " + area + " fundamentals", "Interactive coding challenges"]
  }

  /** The focus entry of a priority: its area and score, target 70%+, six hours. */
  function FocusItem(item: Gaps.PriorityItem): Learning.PathItem
  {
    Learning.PathItem(item.area, item.score, "70%+", FocusResources(item.area), 6)
  }

  /** The focus entries of a list of priorities, in order. */
  function FocusItems(items: seq<Gaps.PriorityItem>): (r: seq<Learning.PathItem>)
    ensures |r| == |items|
  {
    if |items| == 0 then [] else FocusItems(items[..|items| - 1]) + [FocusItem(items[|items| - 1])]
  }

  /** The app's learning path: the first three priorities, High or Medium alike, as immediate
      focus; nothing short- or long-term; six hours per entry. */
  function PathOf(priorities: seq<Gaps.PriorityItem>): Learning.LearningPath
  {
    var focus := FocusItems(Take(priorities, 3));
    Learning.LearningPath(focus, [], [], 6 * |focus|)
  }

  /** `generate_learning_path` of the app: `course` and the gap analysis are accepted and not used. */
  method GenerateLearningPath(course: string, gapAnalysis: Gaps.GapAnalysis, priorities: seq<Gaps.PriorityItem>)
    returns (learningPath: Learning.LearningPath)
    ensures learningPath == PathOf(priorities)
  {
    var top := Take(priorities, 3);
    var immediateFocus: seq<Learning.PathItem> := [];
    var estimatedHours: nat := 0;
    for i := 0 to |top|
      invariant immediateFocus == FocusItems(top[..i])
      invariant estimatedHours == 6 * i
    {
      var item := top[i];
      assert top[..i + 1][..i] == top[..i];
      immediateFocus := immediateFocus + [Learning.PathItem(item.area, item.score, "70%+", FocusResources(item.area), 6)];
      estimatedHours := estimatedHours + 6;
    }
    assert top[..|top|] == top;
    learningPath := Learning.LearningPath(immediateFocus, [], [], estimatedHours);
  }

  /** The `i`-th focus entry is the `i`-th priority's. */
  lemma {:induction false} FocusItemsAt(items: seq<Gaps.PriorityItem>, i: nat)
    requires i < |items|
    ensures FocusItems(items)[i] == FocusItem(items[i])
  {
    if i < |items| - 1 {
      FocusItemsAt(items[..|items| - 1], i);
    }
  }

  /** The path holds the first `min(3, n)` priorities in order, whatever their priority, each
      with its area and score, target 70%+, three resources naming the area and a fixed fourth,
      and six hours; the budget is six hours per entry, at most 18. */
  lemma PathShape(priorities: seq<Gaps.PriorityItem>)
    ensures var path := PathOf(priorities);
      && |path.immediateFocus| == (if |priorities| < 3 then |priorities| else 3)
      && path.shortTerm == [] && path.longTerm == []
      && path.estimatedHours == 6 * |path.immediateFocus| <= 18
      && forall i :: 0 <= i < |path.immediateFocus| ==>
           var e := path.immediateFocus[i];
           && e.area == priorities[i].area && e.score == priorities[i].score
           && e.target == "70%+" && e.hours == 6
           && |e.resources| == 4 && e.resources[0] == "Online tutorials on " + priorities[i].area
           && e.resources[1] == "Practice exercises for " + priorities[i].area
           && e.resources[2] == "Video courses covering " + priorities[i].area + " fundamentals"
           && e.resources[3] == "Interactive coding challenges"
  {
    var top := Take(priorities, 3);
    forall i | 0 <= i < |top| ensures FocusItems(top)[i] == FocusItem(priorities[i]) {
      FocusItemsAt(top, i);
    }
  }

  /** The schedule's focus text for week 1..4. */
  function WeekFocus(week: int): string
    requires 1 <= week <= 4
  {
    if week == 1 then "Foundation Building & Core Concepts"
    else if week == 2 then "Practice & Skill Development"
    else if week == 3 then "Advanced Topics & Projects"
    else "Review & Final Assessment"
  }

  /** The five activities every week lists. */
  const WeekActivities: seq<string> := [
    "Complete all assigned readings and tutorials",
    "Solve daily practice problems",
    "Participate in discussion forums",
    "Work on mini-projects",
    "Take weekly progress assessment"]

  /** Week `week` of the app's schedule: eight hours. */
  function WeekEntry(week: int): Learning.ScheduleEntry
    requires 1 <= week <= 4
  {
    Learning.ScheduleEntry(week, WeekFocus(week), WeekActivities, 8.0)
  }

  /** The number of weeks `range(weeks)` runs. */
  function WeekCount(weeks: int): nat
  {
    if weeks > 0 then weeks else 0
  }

  /** The app's schedule: weeks 1 to `weeks`, none when `weeks` is not positive. */
  function ScheduleOf(weeks: int): seq<Learning.ScheduleEntry>
    requires weeks <= 4
  {
    seq(WeekCount(weeks), i requires 0 <= i < WeekCount(weeks) => WeekEntry(i + 1))
  }

  /** `generate_study_schedule` of the app: the learning path is accepted and not used; a
      fifth week would look up a focus text that does not exist (`KeyError`). */
  method GenerateStudySchedule(learningPath: Learning.LearningPath, weeks: int) returns (schedule: seq<Learning.ScheduleEntry>)
    requires weeks <= 4
    ensures schedule == ScheduleOf(weeks)
  {
    schedule := [];
    for i := 0 to WeekCount(weeks)
      invariant schedule == ScheduleOf(i)
    {
      var focus := WeekFocus(i + 1);
      schedule := schedule + [Learning.ScheduleEntry(i + 1, focus, WeekActivities, 8.0)];
    }
  }

  /** The schedule numbers its weeks 1, 2, ... in order, gives each a different focus, five
      activities and eight hours, and extending `weeks` only appends weeks. */
  lemma ScheduleShape(weeks: int, more: int)
    requires weeks <= more <= 4
    ensures var s := ScheduleOf(weeks);
      && |s| == WeekCount(weeks)
      && (forall i :: 0 <= i < |s| ==> s[i].week == i + 1 && |s[i].activities| == 5 && s[i].hours == 8.0)
      && (forall i, j :: 0 <= i < j < |s| ==> s[i].focus != s[j].focus)
      && s <= ScheduleOf(more)
  {
  }

  /** The status column of the difficulty-level table. */
  datatype LevelStatus = LevelMastered | LevelLearning | LevelNeedsWork
  {
    function Label(): string
    {
      match this
      case LevelMastered => "Mastered"
      case LevelLearning => "Learning"
      case LevelNeedsWork => "Needs Work"
    }
  }

  /** Mastered from 70%, learning from 50%, otherwise needs work. */
  function StatusOf(score: real): LevelStatus
  {
    if score >= 70.0 then LevelMastered else if score >= 50.0 then LevelLearning else LevelNeedsWork
  }

  /** One row of the difficulty-level table. */
  datatype LevelRow = LevelRow(level: int, questions: nat, correct: nat, score: real, status: LevelStatus)

  function LevelRowOf(level: int, perf: Tally): LevelRow
    requires perf.total > 0
  {
    var score := Percent(perf.correct, perf.total);
    LevelRow(level, perf.total, perf.correct, score, StatusOf(score))
  }

  /** The rows of levels 1..n that have questions, in level order. */
  function LevelRows(levels: map<int, Tally>, n: nat): seq<LevelRow>
    requires forall l :: 1 <= l <= n ==> l in levels
  {
    if n == 0 then []
    else LevelRows(levels, n - 1) + (if levels[n].total > 0 then [LevelRowOf(n, levels[n])] else [])
  }

  /** The difficulty-level table of the results page: one row per level with questions, in
      the order of `level_performance`, whose keys are 1..5 in order. */
  method LevelData(levelPerformance: map<int, Tally>) returns (levelData: seq<LevelRow>)
    requires forall l :: l in levelPerformance <==> 1 <= l <= 5
    ensures levelData == LevelRows(levelPerformance, 5)
  {
    levelData := [];
    for level := 1 to 6
      invariant levelData == LevelRows(levelPerformance, level - 1)
    {
      var perf := levelPerformance[level];
      if perf.total > 0 {
        var row := LevelRowFor(level, perf);
        levelData := levelData + [row];
      }
    }
  }

  /** The row appended for a level with questions. */
  method LevelRowFor(level: int, perf: Tally) returns (row: LevelRow)
    requires perf.total > 0
    ensures row == LevelRowOf(level, perf)
  {
    var levelScore := Percent(perf.correct, perf.total);
    var status;
    if levelScore >= 70.0 {
      status := LevelMastered;
    } else if levelScore >= 50.0 {
      status := LevelLearning;
    } else {
      status := LevelNeedsWork;
    }
    row := LevelRow(level, perf.total, perf.correct, levelScore, status);
  }

  /** Level `n` adds its row exactly when it has questions. */
  lemma LevelRowsStep(levels: map<int, Tally>, n: nat)
    requires n > 0 && forall l :: 1 <= l <= n ==> l in levels
    ensures levels[n].total > 0 ==> LevelRows(levels, n) == LevelRows(levels, n - 1) + [LevelRowOf(n, levels[n])]
    ensures levels[n].total == 0 ==> LevelRows(levels, n) == LevelRows(levels, n - 1)
  {
  }

  /** Every row is that of a level 1..n with questions, with the level's counts and percentage. */
  lemma {:induction false} LevelRowsSound(levels: map<int, Tally>, n: nat)
    requires forall l :: 1 <= l <= n ==> l in levels
    ensures var rows := LevelRows(levels, n);
      forall i :: 0 <= i < |rows| ==>
        && 1 <= rows[i].level <= n && levels[rows[i].level].total > 0
        && rows[i] == LevelRowOf(rows[i].level, levels[rows[i].level])
  {
    if n > 0 {
      LevelRowsSound(levels, n - 1);
      LevelRowsStep(levels, n);
    }
  }

  /** The rows go up by level. */
  lemma {:induction false} LevelRowsAscending(levels: map<int, Tally>, n: nat)
    requires forall l :: 1 <= l <= n ==> l in levels
    ensures var rows := LevelRows(levels, n);
      forall i, j :: 0 <= i < j < |rows| ==> rows[i].level < rows[j].level
  {
    if n > 0 {
      LevelRowsAscending(levels, n - 1);
      LevelRowsSound(levels, n - 1);
      LevelRowsStep(levels, n);
    }
  }

  /** Every level 1..n with questions has a row. */
  lemma {:induction false} LevelRowsComplete(levels: map<int, Tally>, n: nat, l: int)
    requires forall l :: 1 <= l <= n ==> l in levels
    requires 1 <= l <= n && levels[l].total > 0
    ensures var rows := LevelRows(levels, n);
      exists i :: 0 <= i < |rows| && rows[i].level == l
  {
    var rows := LevelRows(levels, n);
    var prev := LevelRows(levels, n - 1);
    LevelRowsStep(levels, n);
    if l < n {
      LevelRowsComplete(levels, n - 1, l);
      var i :| 0 <= i < |prev| && prev[i].level == l;
      assert rows[i] == prev[i];
    } else {
      assert rows[|prev|].level == l;
    }
  }

  /** A row says Mastered exactly for a level the analyser counts as mastered; so no level
      above the demonstrated one is Mastered, and the demonstrated level's row is whenever
      any level is mastered. */
  lemma LevelStatusAgreesWithAnalysis(levels: map<int, Tally>, l: int)
    requires forall k :: 1 <= k <= 5 ==> k in levels
    requires 1 <= l <= 5 && levels[l].total > 0
    ensures LevelRowOf(l, levels[l]).status == LevelMastered <==> Gaps.Mastered(levels, l)
    ensures LevelRowOf(l, levels[l]).status == LevelMastered ==> l <= Gaps.ActualLevel(levels)
    ensures Gaps.Mastered(levels, l) ==> LevelRowOf(Gaps.ActualLevel(levels), levels[Gaps.ActualLevel(levels)]).status == LevelMastered
  {
    var actual := Gaps.ActualLevel(levels);
    if Gaps.Mastered(levels, l) {
      assert Gaps.Mastered(levels, actual);
    }
  }

  /** The remarks of a section's strength. */
  function Remarks(strength: Gaps.Readiness): string
  {
    match strength
    case Excellent => "Strong understanding of this topic"
    case Good => "Good performance, minor improvements needed"
    case Satisfactory => "Basic understanding, needs practice"
    case NeedsImprovement => "Significant improvement required"
  }

  /** One row of the section-wise table: the strength uses the readiness bands (80/70/60) and
      their labels, with remarks of its own. */
  datatype SectionRow = SectionRow(section: string, correct: nat, incorrect: int, unattempted: nat,
                                   strength: Gaps.Readiness, remarks: string)

  function SectionRowOf(topic: string, perf: Tally): SectionRow
    requires perf.total > 0
  {
    var strength := Gaps.ReadinessOf(Percent(perf.correct, perf.total));
    SectionRow(topic, perf.correct, perf.total - perf.correct, 0, strength, Remarks(strength))
  }

  /** The rows of the attempted topics of `order`, in order. */
  function SectionRows(order: seq<string>, tallies: map<string, Tally>): seq<SectionRow>
    requires forall t :: t in order ==> t in tallies
  {
    if |order| == 0 then []
    else
      var rest := SectionRows(order[..|order| - 1], tallies);
      var topic := order[|order| - 1];
      if tallies[topic].total > 0 then rest + [SectionRowOf(topic, tallies[topic])] else rest
  }

  /** The section-wise table of the results page, over `topic_performance` in its order. */
  method PerformanceData(table: TopicTable) returns (performanceData: seq<SectionRow>)
    requires forall t :: t in table.order ==> t in table.tallies
    ensures performanceData == SectionRows(table.order, table.tallies)
  {
    performanceData := [];
    for i := 0 to |table.order|
      invariant performanceData == SectionRows(table.order[..i], table.tallies)
    {
      assert table.order[..i + 1][..i] == table.order[..i];
      var topic := table.order[i];
      var perf := table.tallies[topic];
      if perf.total > 0 {
        var row := SectionRowFor(topic, perf);
        performanceData := performanceData + [row];
      }
    }
    assert table.order[..|table.order|] == table.order;
  }

  /** The row appended for an attempted topic. */
  method SectionRowFor(topic: string, perf: Tally) returns (row: SectionRow)
    requires perf.total > 0
    ensures row == SectionRowOf(topic, perf)
  {
    var percentage := Percent(perf.correct, perf.total);
    var strength, remarks;
    if percentage >= 80.0 {
      strength, remarks := Gaps.Excellent, "Strong understanding of this topic";
    } else if percentage >= 70.0 {
      strength, remarks := Gaps.Good, "Good performance, minor improvements needed";
    } else if percentage >= 60.0 {
      strength, remarks := Gaps.Satisfactory, "Basic understanding, needs practice";
    } else {
      strength, remarks := Gaps.NeedsImprovement, "Significant improvement required";
    }
    row := SectionRow(topic, perf.correct, perf.total - perf.correct, 0, strength, remarks);
  }

  /** The section names of a table. */
  function Sections(rows: seq<SectionRow>): (r: seq<string>)
    ensures |r| == |rows|
  {
    seq(|rows|, i requires 0 <= i < |rows| => rows[i].section)
  }

  /** The sections are the attempted topics, each once per listing in the table; every row's
      correct and incorrect counts add up to the topic's questions, and an "Excellent" section
      is a strong topic of the gap analysis, a "Needs Improvement" section a weak one. */
  lemma {:induction false} SectionRowsAgreeWithBands(order: seq<string>, tallies: map<string, Tally>, t: string)
    requires forall t :: t in order ==> t in tallies
    ensures var rows := SectionRows(order, tallies);
      && (t in Sections(rows) <==> t in order && tallies[t].total > 0)
      && (forall r :: r in rows ==>
            && r.section in order && r.correct + r.incorrect == tallies[r.section].total && r.unattempted == 0
            && (r.strength == Gaps.Excellent <==> Gaps.InBand(tallies[r.section], Gaps.Strong))
            && (r.strength == Gaps.NeedsImprovement <==> Gaps.InBand(tallies[r.section], Gaps.Weak)))
  {
    if |order| > 0 {
      var init := order[..|order| - 1];
      var last := order[|order| - 1];
      assert order == init + [last];
      SectionRowsAgreeWithBands(init, tallies, t);
      var rest := SectionRows(init, tallies);
      if tallies[last].total > 0 {
        assert Sections(rest + [SectionRowOf(last, tallies[last])]) == Sections(rest) + [last];
      }
    }
  }

  /** The downloadable report; its test date comes from the clock and is not modelled. */
  datatype Report = Report(
    candidateName: string, course: string, score: string, percentage: real, status: string,
    performanceBreakdown: seq<SectionRow>, strengths: seq<string>, improvementAreas: seq<string>,
    recommendations: seq<string>)

  /** "correct/total". */
  function ScoreText(correct: nat, total: nat): string
  {
    NatToString(correct) + "/" + NatToString(total)
  }

  /** The position of the first '/' of `s`, `|s|` when there is none. */
  function SlashAt(s: string): (k: nat)
    ensures k <= |s|
    ensures forall i :: 0 <= i < k ==> s[i] != '/'
    ensures k < |s| ==> s[k] == '/'
  {
    if |s| == 0 then 0 else if s[0] == '/' then 0 else 1 + SlashAt(s[1..])
  }

  /** Reads a "correct/total" score back: the numbers before and after the first '/'. */
  function ParseScore(s: string): (nat, nat)
  {
    var k := SlashAt(s);
    (ParseNat(s[..k]), if k < |s| then ParseNat(s[k + 1..]) else 0)
  }

  /** The score text reads back as the two counts it was written from. */
  lemma ScoreRoundTrip(correct: nat, total: nat)
    ensures ParseScore(ScoreText(correct, total)) == (correct, total)
  {
    var a := NatToString(correct);
    var s := ScoreText(correct, total);
    assert forall i :: 0 <= i < |a| ==> s[i] == a[i] && IsDigit(s[i]) && s[i] != '/';
    assert s[|a|] == '/';
    SlashAtFirst(s, |a|);
    assert s[..|a|] == a;
    assert s[|a| + 1..] == NatToString(total);
    ParseNatToString(correct);
    ParseNatToString(total);
  }

  /** `SlashAt` finds a '/' that nothing before it is. */
  lemma SlashAtFirst(s: string, k: nat)
    requires k < |s| && s[k] == '/' && forall i :: 0 <= i < k ==> s[i] != '/'
    ensures SlashAt(s) == k
  {
  }

  const StrengthPrefix: string := "Excellent knowledge of "
  const ImprovementPrefix: string := "Improve understanding of "

  /** Each topic of `ds`, behind `prefix`. */
  function Phrased(prefix: string, ds: seq<Gaps.TopicData>): (r: seq<string>)
    ensures |r| == |ds|
  {
    seq(|ds|, i requires 0 <= i < |ds| => prefix + ds[i].topic)
  }

  /** Stripping the phrase gives the topics back, in order. */
  lemma PhrasedInverse(prefix: string, ds: seq<Gaps.TopicData>)
    ensures forall i :: 0 <= i < |ds| ==> Phrased(prefix, ds)[i][|prefix|..] == ds[i].topic
  {
    forall i | 0 <= i < |ds| ensures Phrased(prefix, ds)[i][|prefix|..] == ds[i].topic {
      assert Phrased(prefix, ds)[i] == prefix + ds[i].topic;
    }
  }

  /** The report of the results page: candidate "Student", the course, the score text that reads
      back as the counts, the overall score and readiness label of the analysis, the section
      table, one phrase per strong and per weak topic in order, and five fixed recommendations. */
  function ExportReport(course: string, results: Assessment.ScoreReport, gap: Gaps.GapAnalysis,
                        performanceData: seq<SectionRow>): (r: Report)
    ensures r.candidateName == "Student" && r.course == course
    ensures ParseScore(r.score) == (results.correctCount, results.totalCount)
    ensures r.percentage == gap.overallScore && r.status == gap.readiness.Label()
    ensures r.performanceBreakdown == performanceData
    ensures |r.strengths| == |gap.strongTopics|
    ensures forall i :: 0 <= i < |gap.strongTopics| ==> r.strengths[i] == StrengthPrefix + gap.strongTopics[i].topic
    ensures |r.improvementAreas| == |gap.weakTopics|
    ensures forall i :: 0 <= i < |gap.weakTopics| ==> r.improvementAreas[i] == ImprovementPrefix + gap.weakTopics[i].topic
    ensures |r.recommendations| == 5
  {
    ScoreRoundTrip(results.correctCount, results.totalCount);
    Report("Student", course, ScoreText(results.correctCount, results.totalCount), gap.overallScore,
           gap.readiness.Label(), performanceData,
           Phrased(StrengthPrefix, gap.strongTopics), Phrased(ImprovementPrefix, gap.weakTopics),
           ["Review and practice core concepts", "Take advanced courses on weak areas",
            "Practice with real-world projects", "Participate in coding exercises",
            "Engage in peer learning activities"])
  }

  /** For the analysis of a score report: the report's score reads back as the counts, its
      percentage is the quiz score and its status that score's readiness label; stripping
      the fixed phrase off each strength and improvement area gives back the strong and weak
      topics in order. */
  lemma ReportAgreesWithAnalysis(course: string, results: Assessment.ScoreReport, initialLevel: int,
                                 performanceData: seq<SectionRow>)
    requires forall l :: 1 <= l <= 5 ==> l in results.levelPerformance
    requires forall t :: t in results.topicPerformance.order ==> t in results.topicPerformance.tallies
    ensures var gap := Gaps.Analysis(results, initialLevel);
      var report := ExportReport(course, results, gap, performanceData);
      && ParseScore(report.score) == (results.correctCount, results.totalCount)
      && report.percentage == results.scorePercentage
      && report.status == Gaps.ReadinessOf(results.scorePercentage).Label()
      && |report.strengths| == |gap.strongTopics| && |report.improvementAreas| == |gap.weakTopics|
      && (forall i :: 0 <= i < |gap.strongTopics| ==> report.strengths[i][|StrengthPrefix|..] == gap.strongTopics[i].topic)
      && (forall i :: 0 <= i < |gap.weakTopics| ==> report.improvementAreas[i][|ImprovementPrefix|..] == gap.weakTopics[i].topic)
  {
    var gap := Gaps.Analysis(results, initialLevel);
    ScoreRoundTrip(results.correctCount, results.totalCount);
    PhrasedInverse(StrengthPrefix, gap.strongTopics);
    PhrasedInverse(ImprovementPrefix, gap.weakTopics);
  }
}
