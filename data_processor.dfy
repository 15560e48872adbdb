/** The question bank: one generated table of questions per course, and the
    queries the quiz composer and the pages make of it (data_processor.py). */
module Questions {
  import opened Common
  import opened Text

  /** One row of a bank; the fields are the table's ten columns. */
  datatype Question = Question(
    id: string, course: string, topic: string, level: int, question: string,
    optionA: string, optionB: string, optionC: string, optionD: string, correctAnswer: int)

  /** A question text, its four options and the index of the right one. */
  datatype Template = Template(question: string, a: string, b: string, c: string, d: string, correct: int)

  datatype CourseConfig = CourseConfig(topics: seq<string>, templates: seq<Template>)
  {
    predicate WellFormed() { |topics| > 0 && |templates| > 0 }
  }

  /** The courses the processor knows, in the order of its `courses` dictionary. */
  const Courses: seq<string> := ["Data Science", "AI/ML", "Cybersecurity", "Full Stack"]

  /** Rows generated per course. */
  const BankSize: nat := 25

  /** `course_configs[course_name]`: the generator's topics and question templates for a
      course, `None` where the dictionary has no entry (data_processor.py:43-103). */
  function ConfigFor(course: string): (r: Option<CourseConfig>)
    ensures r.Some? <==> course in Courses
    ensures r.Some? ==> |r.value.topics| == 5 && |r.value.templates| == 5
  {
    if course == "Data Science" then
      Some(CourseConfig(["Statistics", "Python", "Data Visualization", "Machine Learning", "Probability"],
                        seq(5, j requires 0 <= j < 5 => DataScienceTemplate(j))))
    else if course == "AI/ML" then
      Some(CourseConfig(["Linear Algebra", "Calculus", "Neural Networks", "Deep Learning", "Algorithms"],
                        seq(5, j requires 0 <= j < 5 => MachineLearningTemplate(j))))
    else if course == "Cybersecurity" then
      Some(CourseConfig(["Network Security", "Cryptography", "Ethical Hacking", "OS Security", "Web Security"],
                        seq(5, j requires 0 <= j < 5 => CybersecurityTemplate(j))))
    else if course == "Full Stack" then
      Some(CourseConfig(["HTML/CSS", "JavaScript", "React", "Node.js", "Databases"],
                        seq(5, j requires 0 <= j < 5 => FullStackTemplate(j))))
    else None
  }

  /** The question templates of Data Science, in order. */
  function DataScienceTemplate(j: nat): Template
    requires j < 5
  {
    if j == 0 then Template("What is the mean of a dataset?", "Average", "Median", "Mode", "Range", 0)
    else if j == 1 then Template("Which library is used for data manipulation in Python?", "NumPy", "Pandas", "Matplotlib", "Scikit-learn", 1)
    else if j == 2 then Template("What does PDF stand for in statistics?", "Probability Density Function", "Portable Document Format", "Both", "Neither", 0)
    else if j == 3 then Template("What is regression analysis used for?", "Classification", "Predicting continuous values", "Clustering", "Dimensionality reduction", 1)
    else Template("Which plot is best for categorical data?", "Scatter plot", "Bar chart", "Line chart", "Histogram", 1)
  }

  /** The question templates of AI/ML, in order. */
  function MachineLearningTemplate(j: nat): Template
    requires j < 5
  {
    if j == 0 then Template("What is a gradient in machine learning?", "Slope of a function", "Type of algorithm", "Data structure", "Learning rate", 0)
    else if j == 1 then Template("What does ReLU stand for?", "Rectified Linear Unit", "Real Learning Update", "Regression Linear Unit", "Random Learning Update", 0)
    else if j == 2 then Template("What is overfitting?", "Model too simple", "Model too complex", "Perfect fit", "Underperformance", 1)
    else if j == 3 then Template("What is backpropagation used for?", "Data preprocessing", "Training neural networks", "Feature selection", "Model evaluation", 1)
    else Template("What is a tensor?", "Multi-dimensional array", "Single value", "2D array only", "Database table", 0)
  }

  /** The question templates of Cybersecurity, in order. */
  function CybersecurityTemplate(j: nat): Template
    requires j < 5
  {
    if j == 0 then Template("What is a firewall used for?", "Network security", "Data backup", "Speed optimization", "Memory management", 0)
    else if j == 1 then Template("What is encryption?", "Data scrambling", "Data compression", "Data deletion", "Data copying", 0)
    else if j == 2 then Template("What is phishing?", "Social engineering attack", "Virus type", "Firewall technique", "Encryption method", 0)
    else if j == 3 then Template("What is two-factor authentication?", "Security verification", "Data encryption", "Network protocol", "Backup method", 0)
    else Template("What is a VPN?", "Virtual Private Network", "Visual Programming Network", "Very Protected Network", "Virtual Protocol Network", 0)
  }

  /** The question templates of Full Stack, in order. */
  function FullStackTemplate(j: nat): Template
    requires j < 5
  {
    if j == 0 then Template("What does HTML stand for?", "HyperText Markup Language", "HighTech Modern Language", "Hyper Transfer Markup Language", "HighText Machine Language", 0)
    else if j == 1 then Template("What is CSS used for?", "Styling web pages", "Adding interactivity", "Database management", "Server operations", 0)
    else if j == 2 then Template("What is JavaScript primarily used for?", "Client-side scripting", "Database management", "Server configuration", "Graphic design", 0)
    else if j == 3 then Template("What is React?", "Frontend framework", "Backend framework", "Database", "Programming language", 0)
    else Template("What is Node.js?", "JavaScript runtime", "Database system", "CSS framework", "Markup language", 0)
  }

  /** Row `i` of a generated bank: level `i % 5 + 1`, topic and template chosen round-robin,
      id `course[:2].lower() + "_" + str(i + 1)`. */
  function SampleRecord(course: string, config: CourseConfig, i: nat): Question
    requires config.WellFormed()
  {
    var t := config.templates[i % |config.templates|];
    Question(Lower(Take(course, 2)) + "_" + NatToString(i + 1), course, config.topics[i % |config.topics|],
             i % 5 + 1, t.question, t.a, t.b, t.c, t.d, t.correct)
  }

  /** The first `count` generated rows. */
  function SampleBank(course: string, config: CourseConfig, count: nat): (bank: seq<Question>)
    requires config.WellFormed()
    ensures |bank| == count
  {
    seq(count, i requires 0 <= i < count => SampleRecord(course, config, i))
  }

  lemma SampleBankStep(course: string, config: CourseConfig, i: nat)
    requires config.WellFormed()
    ensures SampleBank(course, config, i + 1) == SampleBank(course, config, i) + [SampleRecord(course, config, i)]
  {
  }

  /** `_create_sample_data`: builds the course's 25 rows one by one; a course without a
      configuration raises `KeyError`, modelled as `None`. */
  method CreateSampleData(courseName: string) returns (r: Option<seq<Question>>)
    ensures courseName !in Courses <==> r == None
    ensures courseName in Courses ==> r == Some(SampleBank(courseName, ConfigFor(courseName).value, BankSize))
  {
    var found := ConfigFor(courseName);
    if found.None? {
      return None;
    }
    var config := found.value;
    var sampleData: seq<Question> := [];
    for i := 0 to BankSize
      invariant sampleData == SampleBank(courseName, config, i)
    {
      var t := config.templates[i % |config.templates|];
      var row := Question(Lower(Take(courseName, 2)) + "_" + NatToString(i + 1), courseName,
                          config.topics[i % |config.topics|], i % 5 + 1,
                          t.question, t.a, t.b, t.c, t.d, t.correct);
      assert row == SampleRecord(courseName, config, i);
      SampleBankStep(courseName, config, i);
      sampleData := sampleData + [row];
    }
    return Some(sampleData);
  }

  /** What `load_all_courses` stores for a course: its generated bank, or the empty table
      (with the ten columns of `Question`) when generation failed. */
  function LoadedBank(course: string): seq<Question>
  {
    match ConfigFor(course)
    case Some(config) => SampleBank(course, config, BankSize)
    case None => []
  }

  /** The body of the loading loop: generate the bank, and on failure store the empty table. */
  method LoadCourse(courseName: string) returns (bank: seq<Question>)
    ensures bank == LoadedBank(courseName)
    ensures courseName in Courses ==> |bank| == BankSize
  {
    var created := CreateSampleData(courseName);
    match created {
      case Some(b) => bank := b;
      case None => bank := [];
    }
  }

  function LevelsOf(bank: seq<Question>): seq<int>
  {
    seq(|bank|, i requires 0 <= i < |bank| => bank[i].level)
  }

  function TopicsOf(bank: seq<Question>): seq<string>
  {
    seq(|bank|, i requires 0 <= i < |bank| => bank[i].topic)
  }

  /** `df[df['level'] == level]`: the rows at `level`, in bank order. */
  function AtLevel(bank: seq<Question>, level: int): (r: seq<Question>)
    ensures forall q :: q in r <==> q in bank && q.level == level
    ensures |r| == multiset(LevelsOf(bank))[level]
    ensures multiset(r) <= multiset(bank)
  {
    if |bank| == 0 then []
    else
      var p := bank[..|bank| - 1];
      var q := bank[|bank| - 1];
      assert bank == p + [q];
      assert LevelsOf(bank) == LevelsOf(p) + [q.level];
      if q.level == level then AtLevel(p, level) + [q] else AtLevel(p, level)
  }

  /** The level column of a generated bank cycles through 1..5. */
  lemma SampleLevels(course: string, config: CourseConfig, count: nat)
    requires config.WellFormed()
    ensures LevelsOf(SampleBank(course, config, count)) == seq(count, i requires 0 <= i < count => i % 5 + 1)
  {
  }

  /** The levels of `5 * k` generated rows: `1, 2, 3, 4, 5` repeated `k` times. */
  function Cycles(k: nat): (s: seq<int>)
    ensures |s| == 5 * k
  {
    seq(5 * k, i requires 0 <= i < 5 * k => i % 5 + 1)
  }

  lemma CyclesStep(k: nat)
    requires k > 0
    ensures Cycles(k) == Cycles(k - 1) + [1, 2, 3, 4, 5]
  {
  }

  lemma OneCycle(level: int)
    requires 1 <= level <= 5
    ensures multiset([1, 2, 3, 4, 5])[level] == 1
  {
  }

  lemma {:induction false} CycleCount(k: nat, level: int)
    requires 1 <= level <= 5
    ensures multiset(Cycles(k))[level] == k
  {
    if k > 0 {
      CycleCount(k - 1, level);
      CyclesStep(k);
      OneCycle(level);
    }
  }

  /** Every level 1..5 of a generated bank of `5 * k` rows holds exactly `k` rows, and no
      other level holds any. */
  lemma SampleLevelCount(course: string, config: CourseConfig, k: nat, level: int)
    requires config.WellFormed()
    ensures |AtLevel(SampleBank(course, config, 5 * k), level)| == if 1 <= level <= 5 then k else 0
  {
    SampleLevels(course, config, 5 * k);
    if 1 <= level <= 5 {
      assert LevelsOf(SampleBank(course, config, 5 * k)) == Cycles(k);
      CycleCount(k, level);
    } else {
      var bank := SampleBank(course, config, 5 * k);
      assert level !in LevelsOf(bank);
    }
  }

  /** A generated course bank has exactly five rows at each level 1..5. */
  lemma LoadedBankLevels(course: string, level: int)
    requires course in Courses
    ensures |AtLevel(LoadedBank(course), level)| == if 1 <= level <= 5 then 5 else 0
  {
    var config := ConfigFor(course).value;
    assert LoadedBank(course) == SampleBank(course, config, 5 * 5);
    SampleLevelCount(course, config, 5, level);
  }

  /** With five topics, every row at a level carries that level's topic. */
  lemma SampleTopicPerLevel(course: string, config: CourseConfig, count: nat, level: int)
    requires config.WellFormed() && |config.topics| == 5 && 1 <= level <= 5
    ensures forall q :: q in AtLevel(SampleBank(course, config, count), level) ==> q.topic == config.topics[level - 1]
  {
    var bank := SampleBank(course, config, count);
    forall q | q in AtLevel(bank, level) ensures q.topic == config.topics[level - 1] {
      var i :| 0 <= i < count && bank[i] == q;
    }
  }

  /** Generated ids are pairwise different. */
  lemma SampleIdsDistinct(course: string, config: CourseConfig, i: nat, j: nat)
    requires config.WellFormed() && i != j
    ensures SampleRecord(course, config, i).id != SampleRecord(course, config, j).id
  {
    var p := Lower(Take(course, 2)) + "_";
    var a := SampleRecord(course, config, i).id;
    var b := SampleRecord(course, config, j).id;
    if a == b {
      assert a[|p|..] == NatToString(i + 1);
      assert b[|p|..] == NatToString(j + 1);
      NatToStringInjective(i + 1, j + 1);
    }
  }

  /** The smallest and largest values of a non-empty sequence. */
  function Min(s: seq<int>): (m: int)
    requires |s| > 0
    ensures m in s && forall x :: x in s ==> m <= x
  {
    if |s| == 1 then s[0] else var m := Min(s[1..]); assert s == [s[0]] + s[1..]; if s[0] <= m then s[0] else m
  }

  function Max(s: seq<int>): (m: int)
    requires |s| > 0
    ensures m in s && forall x :: x in s ==> x <= m
  {
    if |s| == 1 then s[0] else var m := Max(s[1..]); assert s == [s[0]] + s[1..]; if s[0] >= m then s[0] else m
  }

  function KeysOf(d: seq<(int, nat)>): seq<int>
  {
    seq(|d|, i requires 0 <= i < |d| => d[i].0)
  }

  function SumCounts(d: seq<(int, nat)>): nat
  {
    if |d| == 0 then 0 else d[0].1 + SumCounts(d[1..])
  }

  /** How many of `levels` fall in `lo .. lo + n - 1`. */
  function CountInRange(levels: seq<int>, lo: int, n: nat): nat
    decreases n
  {
    if n == 0 then 0 else multiset(levels)[lo] + CountInRange(levels, lo + 1, n - 1)
  }

  /** The (level, count) pairs for the levels `lo .. lo + n - 1` that occur, ascending. */
  function CountRange(levels: seq<int>, lo: int, n: nat): (d: seq<(int, nat)>)
    ensures forall i :: 0 <= i < |d| ==> lo <= d[i].0 < lo + n && d[i].1 == multiset(levels)[d[i].0] > 0
    ensures forall i, j :: 0 <= i < j < |d| ==> d[i].0 < d[j].0
    ensures forall l :: l in levels && lo <= l < lo + n ==> l in KeysOf(d)
    ensures SumCounts(d) == CountInRange(levels, lo, n)
    decreases n
  {
    if n == 0 then []
    else
      var rest := CountRange(levels, lo + 1, n - 1);
      var c := multiset(levels)[lo];
      if c > 0 then
        assert KeysOf([(lo, c)] + rest) == [lo] + KeysOf(rest);
        [(lo, c)] + rest
      else rest
  }

  lemma {:induction false} CountInRangeAppend(levels: seq<int>, x: int, lo: int, n: nat)
    ensures CountInRange(levels + [x], lo, n) == CountInRange(levels, lo, n) + (if lo <= x < lo + n then 1 else 0)
    decreases n
  {
    if n > 0 {
      CountInRangeAppend(levels, x, lo + 1, n - 1);
      assert multiset(levels + [x]) == multiset(levels) + multiset{x};
    }
  }

  /** When the range covers every value, it counts every element once. */
  lemma {:induction false} CountInRangeAll(levels: seq<int>, lo: int, n: nat)
    requires forall l :: l in levels ==> lo <= l < lo + n
    ensures CountInRange(levels, lo, n) == |levels|
  {
    if |levels| == 0 {
      CountInRangeEmpty(lo, n);
    } else {
      var p := levels[..|levels| - 1];
      var x := levels[|levels| - 1];
      assert levels == p + [x];
      assert x in levels;
      assert forall l :: l in p ==> l in levels;
      CountInRangeAll(p, lo, n);
      CountInRangeAppend(p, levels[|levels| - 1], lo, n);
    }
  }

  lemma {:induction false} CountInRangeEmpty(lo: int, n: nat)
    ensures CountInRange([], lo, n) == 0
    decreases n
  {
    if n > 0 {
      CountInRangeEmpty(lo + 1, n - 1);
    }
  }

  /** `value_counts().sort_index().to_dict()` on a column of levels: one (level, count) pair per
      level that occurs, ascending by level, the counts adding up to the number of rows. */
  function LevelCounts(levels: seq<int>): (d: seq<(int, nat)>)
    ensures forall l :: l in levels <==> l in KeysOf(d)
    ensures SumCounts(d) == |levels|
    ensures forall i :: 0 <= i < |d| ==> d[i].1 == multiset(levels)[d[i].0] > 0
    ensures forall i, j :: 0 <= i < j < |d| ==> d[i].0 < d[j].0
  {
    if |levels| == 0 then []
    else
      var lo := Min(levels);
      var n := Max(levels) - lo + 1;
      var d := CountRange(levels, lo, n);
      CountInRangeAll(levels, lo, n);
      assert forall l :: l in KeysOf(d) ==> l in levels by {
        forall l | l in KeysOf(d) ensures l in levels {
          var i :| 0 <= i < |d| && d[i].0 == l;
        }
      }
      d
  }

  /** Python's `bool(limit)` for the optional row limit. */
  predicate Truthy(limit: Option<nat>)
  {
    limit.Some? && limit.value != 0
  }

  /** The question tables of every course (the `DataProcessor` object). */
  class DataProcessor {
    var courses: seq<string>
    var questionBanks: map<string, seq<Question>>

    constructor ()
      ensures courses == Courses
      ensures questionBanks == map c | c in Courses :: LoadedBank(c)
    {
      courses := Courses;
      questionBanks := map[];
      new;
      LoadAllCourses();
    }

    /** Loading one more course extends the banks loaded so far by that course's bank. */
    static lemma BanksStep(m: map<string, seq<Question>>, names: seq<string>, k: nat)
      requires k < |names|
      ensures (m + map c | c in names[..k] :: LoadedBank(c))[names[k] := LoadedBank(names[k])]
        == m + map c | c in names[..k + 1] :: LoadedBank(c)
    {
      assert names[..k + 1] == names[..k] + [names[k]];
    }

    /** Gives every configured course its bank, the empty table when generation fails. */
    method LoadAllCourses()
      modifies this`questionBanks
      ensures questionBanks == old(questionBanks) + map c | c in courses :: LoadedBank(c)
    {
      var names := courses;
      var k := 0;
      while k < |names|
        invariant 0 <= k <= |names|
        invariant questionBanks == old(questionBanks) + map c | c in names[..k] :: LoadedBank(c)
      {
        var bank := LoadCourse(names[k]);
        BanksStep(old(questionBanks), names, k);
        questionBanks := questionBanks[names[k] := bank];
        k := k + 1;
      }
      assert names[..k] == names;
    }

    /** `get_questions_by_level`: the bank's rows at `level`; when `limit` is truthy and smaller
        than the number of matches, `limit` of them drawn without replacement (`sample`). */
    function GetQuestionsByLevel(course: string, level: int, limit: Option<nat>, draw: nat -> nat): (r: seq<Question>)
      reads this
      ensures course !in questionBanks ==> r == []
      ensures course in questionBanks ==>
        var matching := AtLevel(questionBanks[course], level);
        && multiset(r) <= multiset(matching)
        && (forall q :: q in r ==> q in questionBanks[course] && q.level == level)
        && |r| == (if Truthy(limit) && |matching| > limit.value then limit.value else |matching|)
        && (!(Truthy(limit) && |matching| > limit.value) ==> r == matching)
    {
      if course !in questionBanks then []
      else
        var df := questionBanks[course];
        if |df| == 0 then df
        else
          var filtered := AtLevel(df, level);
          if Truthy(limit) && |filtered| > limit.value then
            var r := Take(Shuffled(filtered, draw), limit.value);
            assert forall q :: q in r ==> q in filtered by {
              forall q | q in r ensures q in filtered {
                assert multiset(r)[q] > 0;
              }
            }
            r
          else filtered
    }

    /** `get_all_topics`: the distinct topics of the bank in order of first appearance. */
    function GetAllTopics(course: string): (r: seq<string>)
      reads this
      ensures course !in questionBanks ==> r == []
      ensures course in questionBanks && questionBanks[course] == [] ==> r == ["General"]
      ensures course in questionBanks && questionBanks[course] != [] ==>
        Distinct(r) && forall t :: t in r <==> t in TopicsOf(questionBanks[course])
    {
      if course !in questionBanks then []
      else
        var df := questionBanks[course];
        if |df| == 0 then ["General"] else Unique(TopicsOf(df))
    }

    /** `get_level_distribution`: (level, count) pairs in ascending level order. */
    function GetLevelDistribution(course: string): (d: seq<(int, nat)>)
      reads this
      ensures course !in questionBanks ==> d == []
      ensures course in questionBanks && questionBanks[course] == [] ==> d == [(1, 5), (2, 5), (3, 5), (4, 5), (5, 5)]
      ensures course in questionBanks ==> SumCounts(d) == if questionBanks[course] == [] then 25 else |questionBanks[course]|
      ensures course in questionBanks && questionBanks[course] != [] ==>
        && (forall i, j :: 0 <= i < j < |d| ==> d[i].0 < d[j].0)
        && (forall i :: 0 <= i < |d| ==> d[i].1 == |AtLevel(questionBanks[course], d[i].0)| > 0)
        && (forall l :: l in LevelsOf(questionBanks[course]) <==> l in KeysOf(d))
    {
      if course !in questionBanks then []
      else
        var df := questionBanks[course];
        if |df| == 0 then [(1, 5), (2, 5), (3, 5), (4, 5), (5, 5)] else LevelCounts(LevelsOf(df))
    }
  }
}
