/** Quiz composition and scoring (assessment_engine.py). */
module Assessment {
  import opened Common
  import opened Questions

  /** Set by the engine's constructor; nothing reads it. */
  const MinQuestions: nat := 15
  const MaxQuestions: nat := 25
  /** Questions requested per level. */
  const PerLevel: nat := 5

  /** One quiz entry: the question row, the level it was fetched for, and its number. */
  datatype QuizItem = QuizItem(questionData: Question, adaptiveLevel: int, questionNumber: int)

  /** A quiz entry with its number erased. */
  datatype Entry = Entry(question: Question, level: int)

  function Entries(items: seq<QuizItem>): (es: seq<Entry>)
    ensures |es| == |items|
  {
    seq(|items|, i requires 0 <= i < |items| => Entry(items[i].questionData, items[i].adaptiveLevel))
  }

  lemma EntriesAppend(a: seq<QuizItem>, b: seq<QuizItem>)
    ensures Entries(a + b) == Entries(a) + Entries(b)
  {
  }

  /** Erasing numbers commutes with permuting: equal multisets of items give equal multisets of entries. */
  lemma {:induction false} EntriesPermutation(a: seq<QuizItem>, b: seq<QuizItem>)
    requires multiset(a) == multiset(b)
    ensures multiset(Entries(a)) == multiset(Entries(b))
    decreases |a|
  {
    if |a| == 0 {
      assert |b| == |multiset(b)| == 0;
    } else {
      var n := |a| - 1;
      var x := a[n];
      assert a == a[..n] + [x];
      assert x in multiset(b);
      var j :| 0 <= j < |b| && b[j] == x;
      var b' := b[..j] + b[j + 1..];
      assert b == b[..j] + [x] + b[j + 1..];
      assert multiset(b') == multiset(b) - multiset{x};
      assert multiset(a[..n]) == multiset(a) - multiset{x};
      EntriesPermutation(a[..n], b');
      EntriesAppend(a[..n], [x]);
      EntriesAppend(b[..j] + [x], b[j + 1..]);
      EntriesAppend(b[..j], [x]);
      EntriesAppend(b[..j], b[j + 1..]);
    }
  }

  /** The questions of one level, tagged with that level and numbered after `offset`
      (`'question_number': len(quiz_questions) + 1` at the time each is appended). */
  function Tagged(questions: seq<Question>, level: int, offset: nat): (items: seq<QuizItem>)
    ensures |items| == |questions|
  {
    seq(|questions|, i requires 0 <= i < |questions| => QuizItem(questions[i], level, offset + i + 1))
  }

  lemma TaggedStep(questions: seq<Question>, r: nat, level: int, offset: nat)
    requires r < |questions|
    ensures Tagged(questions[..r + 1], level, offset) == Tagged(questions[..r], level, offset) + [QuizItem(questions[r], level, offset + r + 1)]
  {
  }

  /** Everything collected before the shuffle: `selections[l - 1]` fetched for level `l`, in level order. */
  function Pool(selections: seq<seq<Question>>): seq<QuizItem>
  {
    if |selections| == 0 then []
    else
      var p := Pool(selections[..|selections| - 1]);
      p + Tagged(selections[|selections| - 1], |selections|, |p|)
  }

  /** Every pooled item was selected for the level it is tagged with. */
  lemma {:induction false} PoolSource(selections: seq<seq<Question>>, it: QuizItem)
    requires it in Pool(selections)
    ensures 1 <= it.adaptiveLevel <= |selections| && it.questionData in selections[it.adaptiveLevel - 1]
  {
    var n := |selections| - 1;
    var p := Pool(selections[..n]);
    if it in p {
      PoolSource(selections[..n], it);
    } else {
      var i :| 0 <= i < |selections[n]| && Tagged(selections[n], n + 1, |p|)[i] == it;
    }
  }

  /** The same for an item carrying a pooled item's question and level. */
  lemma PoolSourceOf(selections: seq<seq<Question>>, source: QuizItem, it: QuizItem)
    requires source in Pool(selections)
    requires source.questionData == it.questionData && source.adaptiveLevel == it.adaptiveLevel
    ensures 1 <= it.adaptiveLevel <= |selections| && it.questionData in selections[it.adaptiveLevel - 1]
  {
    PoolSource(selections, source);
  }

  lemma PoolStep(selections: seq<seq<Question>>, n: nat)
    requires n < |selections|
    ensures Pool(selections[..n + 1]) == Pool(selections[..n]) + Tagged(selections[n], n + 1, |Pool(selections[..n])|)
  {
    assert selections[..n + 1][..n] == selections[..n];
  }

  /** Sizes add up: the pool holds every selected question once. */
  lemma {:induction false} PoolSize(selections: seq<seq<Question>>, bound: nat)
    requires forall l :: 0 <= l < |selections| ==> |selections[l]| <= bound
    ensures |Pool(selections)| <= bound * |selections|
  {
    if |selections| > 0 {
      PoolSize(selections[..|selections| - 1], bound);
    }
  }

  /** Renumbers in presentation order: item `i` gets number `i + 1`. */
  function Renumbered(items: seq<QuizItem>): (r: seq<QuizItem>)
    ensures |r| == |items|
    ensures Entries(r) == Entries(items)
  {
    seq(|items|, i requires 0 <= i < |items| => items[i].(questionNumber := i + 1))
  }

  /** The quiz built from per-level selections: shuffled, cut to `max`, renumbered. */
  function Composed(selections: seq<seq<Question>>, shuffleDraw: nat -> nat, max: nat): seq<QuizItem>
  {
    Renumbered(Take(Shuffled(Pool(selections), shuffleDraw), max))
  }

  /** Shuffling, cutting to `max` and renumbering any list gives a list numbered 1..N in order,
      of at most `max` items, whose entries are a sub-multiset of the list's (all of them when
      the list fits). */
  lemma CutShape(pool: seq<QuizItem>, shuffleDraw: nat -> nat, max: nat)
    ensures var quiz := Renumbered(Take(Shuffled(pool, shuffleDraw), max));
      && |quiz| <= max
      && (forall i :: 0 <= i < |quiz| ==> quiz[i].questionNumber == i + 1)
      && multiset(Entries(quiz)) <= multiset(Entries(pool))
      && (|pool| <= max ==> multiset(Entries(quiz)) == multiset(Entries(pool)))
  {
    var sh := Shuffled(pool, shuffleDraw);
    var cut := Take(sh, max);
    assert Entries(Renumbered(cut)) == Entries(cut);
    EntriesPermutation(sh, pool);
    if |pool| <= max {
      assert cut == sh;
    } else {
      var rest := sh[|cut|..];
      assert sh == cut + rest;
      EntriesAppend(cut, rest);
      assert multiset(Entries(sh)) == multiset(Entries(cut)) + multiset(Entries(rest));
    }
  }

  /** A composed quiz is numbered 1..N in order, holds at most `max` items, and is a
      sub-multiset of the pool with numbers erased; when the pool fits, exactly the pool. */
  lemma ComposedShape(selections: seq<seq<Question>>, shuffleDraw: nat -> nat, max: nat)
    ensures var quiz := Composed(selections, shuffleDraw, max);
      && |quiz| <= max
      && (forall i :: 0 <= i < |quiz| ==> quiz[i].questionNumber == i + 1)
      && multiset(Entries(quiz)) <= multiset(Entries(Pool(selections)))
      && (|Pool(selections)| <= max ==> multiset(Entries(quiz)) == multiset(Entries(Pool(selections))))
  {
    CutShape(Pool(selections), shuffleDraw, max);
  }

  /** The five per-level fetches, all with the processor's fixed sampling seed. */
  function Selections(dp: DataProcessor, course: string, sampleDraw: nat -> nat): (sel: seq<seq<Question>>)
    reads dp
    ensures |sel| == 5
  {
    seq(5, l requires 0 <= l < 5 reads dp => dp.GetQuestionsByLevel(course, l + 1, Some(PerLevel), sampleDraw))
  }

  /** Each fetch holds at most five rows of the course's bank, all at the fetched level. */
  lemma SelectionsSound(dp: DataProcessor, course: string, sampleDraw: nat -> nat)
    ensures var sel := Selections(dp, course, sampleDraw);
      && (forall l :: 0 <= l < 5 ==> |sel[l]| <= PerLevel)
      && (forall l, q :: 0 <= l < 5 && q in sel[l] ==>
            course in dp.questionBanks && q in dp.questionBanks[course] && q.level == l + 1)
  {
  }

  /** The collection loops of `generate_adaptive_quiz`: level by level, each fetched question is
      appended, tagged with its level and numbered after everything already collected. */
  method CollectPool(dp: DataProcessor, course: string, sampleDraw: nat -> nat) returns (pool: seq<QuizItem>)
    ensures pool == Pool(Selections(dp, course, sampleDraw))
  {
    ghost var sel := Selections(dp, course, sampleDraw);
    pool := [];
    for level := 1 to 6
      invariant pool == Pool(sel[..level - 1])
    {
      var questions := dp.GetQuestionsByLevel(course, level, Some(PerLevel), sampleDraw);
      assert questions == sel[level - 1];
      pool := AppendLevel(pool, questions, level);
      PoolStep(sel, level - 1);
    }
    assert sel[..5] == sel;
  }

  /** The inner loop: one level's questions appended in order, numbered after `pool`. */
  method AppendLevel(pool: seq<QuizItem>, questions: seq<Question>, level: int) returns (r: seq<QuizItem>)
    ensures r == pool + Tagged(questions, level, |pool|)
  {
    r := pool;
    for i := 0 to |questions|
      invariant r == pool + Tagged(questions[..i], level, |pool|)
    {
      TaggedStep(questions, i, level, |pool|);
      r := r + [QuizItem(questions[i], level, |r| + 1)];
    }
    assert questions[..|questions|] == questions;
  }

  /** The renumbering loop: item `i` gets number `i + 1`, nothing else changes. */
  method Renumber(items: seq<QuizItem>) returns (r: seq<QuizItem>)
    ensures r == Renumbered(items)
  {
    r := items;
    for idx := 0 to |r|
      invariant |r| == |items|
      invariant forall i :: 0 <= i < idx ==> r[i] == items[i].(questionNumber := i + 1)
      invariant forall i :: idx <= i < |items| ==> r[i] == items[i]
    {
      r := r[idx := r[idx].(questionNumber := idx + 1)];
    }
  }

  /** An entry of a shuffled, cut and renumbered list is one of the list's own entries. */
  lemma RenumberedFrom(pool: seq<QuizItem>, shuffleDraw: nat -> nat, max: nat, it: QuizItem) returns (j: nat)
    requires it in Renumbered(Take(Shuffled(pool, shuffleDraw), max))
    ensures j < |pool| && pool[j].questionData == it.questionData && pool[j].adaptiveLevel == it.adaptiveLevel
  {
    var sh := Shuffled(pool, shuffleDraw);
    var cut := Take(sh, max);
    var i :| 0 <= i < |cut| && Renumbered(cut)[i] == it;
    assert Entries(cut)[i] == Entries(Renumbered(cut))[i];
    assert cut[i] == sh[i];
    assert sh[i] in multiset(pool);
    j :| 0 <= j < |pool| && pool[j] == sh[i];
  }

  /** Every entry of a composed quiz was selected for the level it is tagged with. */
  lemma ComposedFromPool(selections: seq<seq<Question>>, shuffleDraw: nat -> nat, max: nat, it: QuizItem)
    requires it in Composed(selections, shuffleDraw, max)
    ensures 1 <= it.adaptiveLevel <= |selections| && it.questionData in selections[it.adaptiveLevel - 1]
  {
    var pool := Pool(selections);
    var j := RenumberedFrom(pool, shuffleDraw, max, it);
    PoolSourceOf(selections, pool[j], it);
  }

  /** What a composed quiz over the processor's fetches guarantees. */
  lemma ComposedSound(dp: DataProcessor, course: string, sampleDraw: nat -> nat, shuffleDraw: nat -> nat)
    ensures var sel := Selections(dp, course, sampleDraw);
      var quiz := Composed(sel, shuffleDraw, MaxQuestions);
      && |quiz| <= MaxQuestions
      && (forall i :: 0 <= i < |quiz| ==> quiz[i].questionNumber == i + 1)
      && (forall it :: it in quiz ==>
            && 1 <= it.adaptiveLevel <= 5
            && it.questionData.level == it.adaptiveLevel
            && course in dp.questionBanks && it.questionData in dp.questionBanks[course])
      && multiset(Entries(quiz)) == multiset(Entries(Pool(sel)))
  {
    var sel := Selections(dp, course, sampleDraw);
    SelectionsSound(dp, course, sampleDraw);
    ComposedShape(sel, shuffleDraw, MaxQuestions);
    PoolSize(sel, PerLevel);
    forall it | it in Composed(sel, shuffleDraw, MaxQuestions)
      ensures 1 <= it.adaptiveLevel <= 5 && it.questionData.level == it.adaptiveLevel
      ensures course in dp.questionBanks && it.questionData in dp.questionBanks[course]
    {
      ComposedFromPool(sel, shuffleDraw, MaxQuestions, it);
    }
  }

  /** `generate_adaptive_quiz`: up to five questions from each level 1..5, shuffled, cut to 25 and
      renumbered. `initialLevel` is accepted and ignored, as in the source. */
  method GenerateAdaptiveQuiz(dp: DataProcessor, course: string, initialLevel: int,
                              sampleDraw: nat -> nat, shuffleDraw: nat -> nat)
    returns (quiz: seq<QuizItem>)
    ensures quiz == Composed(Selections(dp, course, sampleDraw), shuffleDraw, MaxQuestions)
    ensures |quiz| <= MaxQuestions
    ensures forall i :: 0 <= i < |quiz| ==> quiz[i].questionNumber == i + 1
    ensures forall it :: it in quiz ==>
      && 1 <= it.adaptiveLevel <= 5
      && it.questionData.level == it.adaptiveLevel
      && course in dp.questionBanks && it.questionData in dp.questionBanks[course]
    ensures multiset(Entries(quiz)) == multiset(Entries(Pool(Selections(dp, course, sampleDraw))))
  {
    var quizQuestions := CollectPool(dp, course, sampleDraw);
    quizQuestions := Shuffled(quizQuestions, shuffleDraw);
    quizQuestions := Take(quizQuestions, MaxQuestions);
    quiz := Renumber(quizQuestions);

    ComposedSound(dp, course, sampleDraw, shuffleDraw);
  }

  /** An answer counts when the item's number was answered with its correct option. */
  predicate IsCorrect(answers: map<int, int>, item: QuizItem)
  {
    item.questionNumber in answers && answers[item.questionNumber] == item.questionData.correctAnswer
  }

  function CorrectCount(quiz: seq<QuizItem>, answers: map<int, int>): (n: nat)
    ensures n <= |quiz|
  {
    if |quiz| == 0 then 0
    else CorrectCount(quiz[..|quiz| - 1], answers) + (if IsCorrect(answers, quiz[|quiz| - 1]) then 1 else 0)
  }

  /** Items fetched for `level`, and how many of them were answered correctly. */
  function LevelTally(quiz: seq<QuizItem>, answers: map<int, int>, level: int): (t: Tally)
    ensures t.correct <= t.total <= |quiz|
  {
    if |quiz| == 0 then Tally(0, 0)
    else
      var p := LevelTally(quiz[..|quiz| - 1], answers, level);
      var it := quiz[|quiz| - 1];
      if it.adaptiveLevel != level then p
      else Tally(p.correct + (if IsCorrect(answers, it) then 1 else 0), p.total + 1)
  }

  /** Items on `topic`, and how many of them were answered correctly. */
  function TopicTally(quiz: seq<QuizItem>, answers: map<int, int>, topic: string): (t: Tally)
    ensures t.correct <= t.total <= |quiz|
  {
    if |quiz| == 0 then Tally(0, 0)
    else
      var p := TopicTally(quiz[..|quiz| - 1], answers, topic);
      var it := quiz[|quiz| - 1];
      if it.questionData.topic != topic then p
      else Tally(p.correct + (if IsCorrect(answers, it) then 1 else 0), p.total + 1)
  }

  function QuizTopics(quiz: seq<QuizItem>): seq<string>
  {
    seq(|quiz|, i requires 0 <= i < |quiz| => quiz[i].questionData.topic)
  }

  /** `correct / total * 100`, or 0 for an empty quiz. */
  function ScorePercentage(correct: nat, total: nat): (r: real)
    ensures total == 0 ==> r == 0.0
    ensures correct <= total ==> 0.0 <= r <= 100.0
  {
    if total > 0 then Percent(correct, total) else 0.0
  }

  datatype ScoreReport = ScoreReport(
    scorePercentage: real, correctCount: nat, totalCount: nat,
    levelPerformance: map<int, Tally>, topicPerformance: TopicTable)

  /** The five level tallies. */
  function LevelTable(quiz: seq<QuizItem>, answers: map<int, int>): map<int, Tally>
  {
    map l | 1 <= l <= 5 :: LevelTally(quiz, answers, l)
  }

  /** The topic tallies, keyed by the quiz's topics in order of first appearance. */
  function TopicTableOf(quiz: seq<QuizItem>, answers: map<int, int>): TopicTable
  {
    TopicTable(Unique(QuizTopics(quiz)), map t | t in QuizTopics(quiz) :: TopicTally(quiz, answers, t))
  }

  /** The report `calculate_score` returns, stated per item. */
  function ScoreOf(answers: map<int, int>, quiz: seq<QuizItem>): (r: ScoreReport)
    ensures r.totalCount == |quiz| && r.correctCount <= r.totalCount
    ensures r.levelPerformance.Keys == {1, 2, 3, 4, 5}
    ensures r.topicPerformance.Valid()
    ensures 0.0 <= r.scorePercentage <= 100.0
    ensures |quiz| == 0 ==> r.scorePercentage == 0.0
  {
    var c := CorrectCount(quiz, answers);
    var lt := LevelTable(quiz, answers);
    assert forall l :: l in lt <==> l in {1, 2, 3, 4, 5};
    ScoreReport(ScorePercentage(c, |quiz|), c, |quiz|, lt, TopicTableOf(quiz, answers))
  }

  /** How the correct count and the topic column change when the scan moves past item `k`. */
  lemma ScoreStep(quiz: seq<QuizItem>, k: nat, answers: map<int, int>)
    requires k < |quiz|
    ensures CorrectCount(quiz[..k + 1], answers) == CorrectCount(quiz[..k], answers) + (if IsCorrect(answers, quiz[k]) then 1 else 0)
    ensures QuizTopics(quiz[..k + 1]) == QuizTopics(quiz[..k]) + [quiz[k].questionData.topic]
  {
    assert quiz[..k + 1][..k] == quiz[..k];
  }

  /** How one level's tally changes when the scan moves past item `k`. */
  lemma LevelTallyStep(quiz: seq<QuizItem>, k: nat, answers: map<int, int>, l: int)
    requires k < |quiz|
    ensures var p := LevelTally(quiz[..k], answers, l);
      LevelTally(quiz[..k + 1], answers, l) ==
        if l != quiz[k].adaptiveLevel then p
        else Tally(p.correct + (if IsCorrect(answers, quiz[k]) then 1 else 0), p.total + 1)
  {
    assert quiz[..k + 1][..k] == quiz[..k];
  }

  /** How one topic's tally changes when the scan moves past item `k`. */
  lemma TopicTallyStep(quiz: seq<QuizItem>, k: nat, answers: map<int, int>, t: string)
    requires k < |quiz|
    ensures var p := TopicTally(quiz[..k], answers, t);
      TopicTally(quiz[..k + 1], answers, t) ==
        if t != quiz[k].questionData.topic then p
        else Tally(p.correct + (if IsCorrect(answers, quiz[k]) then 1 else 0), p.total + 1)
  {
    assert quiz[..k + 1][..k] == quiz[..k];
  }

  /** The level dictionary holds, for each of the levels 1..5, the tally of `quiz[..k]` at that level. */
  ghost predicate LevelsScanned(quiz: seq<QuizItem>, k: nat, answers: map<int, int>, levels: map<int, Tally>)
    requires k <= |quiz|
  {
    && (forall l :: l in levels <==> 1 <= l <= 5)
    && (forall l :: l in levels ==> levels[l] == LevelTally(quiz[..k], answers, l))
  }

  /** The topic dictionary holds the topics of `quiz[..k]` in order of first appearance, each
      with its tally. */
  ghost predicate TopicsScanned(quiz: seq<QuizItem>, k: nat, answers: map<int, int>, order: seq<string>, tallies: map<string, Tally>)
    requires k <= |quiz|
  {
    && order == Unique(QuizTopics(quiz[..k]))
    && (forall t :: t in tallies <==> t in QuizTopics(quiz[..k]))
    && (forall t :: t in tallies ==> tallies[t] == TopicTally(quiz[..k], answers, t))
  }

  /** The topic dictionary after item `k` is the one before it with that item's topic re-tallied,
      appended to the order when it is new. */
  lemma TopicTableStep(quiz: seq<QuizItem>, k: nat, answers: map<int, int>,
                       order: seq<string>, m: map<string, Tally>, order': seq<string>, m': map<string, Tally>)
    requires k < |quiz|
    requires TopicsScanned(quiz, k, answers, order, m)
    requires var hit := if IsCorrect(answers, quiz[k]) then 1 else 0;
      var topic := quiz[k].questionData.topic;
      var before := if topic in m then m[topic] else Tally(0, 0);
      && order' == (if topic in m then order else order + [topic])
      && m' == m[topic := Tally(before.correct + hit, before.total + 1)]
    ensures TopicsScanned(quiz, k + 1, answers, order', m')
  {
    ScoreStep(quiz, k, answers);
    var topic := quiz[k].questionData.topic;
    UniqueSnoc(QuizTopics(quiz[..k]), topic);
    if topic !in m {
      TopicTallyAbsent(quiz[..k], answers, topic);
    }
    forall t | t in m' ensures m'[t] == TopicTally(quiz[..k + 1], answers, t) {
      TopicTallyStep(quiz, k, answers, t);
    }
  }

  /** Likewise for the level dictionary, whose keys stay 1..5. */
  lemma LevelTableStep(quiz: seq<QuizItem>, k: nat, answers: map<int, int>, m: map<int, Tally>, m': map<int, Tally>)
    requires k < |quiz| && 1 <= quiz[k].adaptiveLevel <= 5
    requires LevelsScanned(quiz, k, answers, m)
    requires var hit := if IsCorrect(answers, quiz[k]) then 1 else 0;
      var level := quiz[k].adaptiveLevel;
      m' == m[level := Tally(m[level].correct + hit, m[level].total + 1)]
    ensures LevelsScanned(quiz, k + 1, answers, m')
  {
    forall l | l in m' ensures m'[l] == LevelTally(quiz[..k + 1], answers, l) {
      LevelTallyStep(quiz, k, answers, l);
    }
  }

  /** The counters after item `item` is scored, from the counters before: the topic gets an
      entry when it is new, the item's level and topic totals go up by one, and when the item's
      number was answered with the right option the correct count and both corrects go up by one. */
  ghost predicate Applied(answers: map<int, int>, item: QuizItem,
                          c: nat, levels: map<int, Tally>, order: seq<string>, tallies: map<string, Tally>,
                          c': nat, levels': map<int, Tally>, order': seq<string>, tallies': map<string, Tally>)
    requires item.adaptiveLevel in levels
  {
    var hit := if IsCorrect(answers, item) then 1 else 0;
    var level := item.adaptiveLevel;
    var topic := item.questionData.topic;
    var before := if topic in tallies then tallies[topic] else Tally(0, 0);
    && c' == c + hit
    && levels' == levels[level := Tally(levels[level].correct + hit, levels[level].total + 1)]
    && order' == (if topic in tallies then order else order + [topic])
    && tallies' == tallies[topic := Tally(before.correct + hit, before.total + 1)]
  }

  /** What the scoring loop knows after the first `k` items: each counter is the
      specification's value on the prefix `quiz[..k]`. */
  ghost predicate Scanned(quiz: seq<QuizItem>, k: nat, answers: map<int, int>, correctCount: nat,
                          levels: map<int, Tally>, order: seq<string>, tallies: map<string, Tally>)
    requires k <= |quiz|
  {
    && correctCount == CorrectCount(quiz[..k], answers)
    && LevelsScanned(quiz, k, answers, levels)
    && TopicsScanned(quiz, k, answers, order, tallies)
  }

  /** One pass of the loop body keeps `Scanned`, one item further on. */
  lemma ScannedStep(quiz: seq<QuizItem>, k: nat, answers: map<int, int>,
                    c: nat, levels: map<int, Tally>, order: seq<string>, tallies: map<string, Tally>,
                    c': nat, levels': map<int, Tally>, order': seq<string>, tallies': map<string, Tally>)
    requires k < |quiz| && 1 <= quiz[k].adaptiveLevel <= 5
    requires Scanned(quiz, k, answers, c, levels, order, tallies)
    requires Applied(answers, quiz[k], c, levels, order, tallies, c', levels', order', tallies')
    ensures Scanned(quiz, k + 1, answers, c', levels', order', tallies')
  {
    ScoreStep(quiz, k, answers);
    LevelTableStep(quiz, k, answers, levels, levels');
    TopicTableStep(quiz, k, answers, order, tallies, order', tallies');
  }

  /** The body of the scoring loop for one item. */
  method ScoreItem(answers: map<int, int>, item: QuizItem, correctCount: nat,
                   levelPerformance: map<int, Tally>, topicOrder: seq<string>, topicTallies: map<string, Tally>)
    returns (correctCount': nat, levelPerformance': map<int, Tally>, topicOrder': seq<string>, topicTallies': map<string, Tally>)
    requires item.adaptiveLevel in levelPerformance
    ensures Applied(answers, item, correctCount, levelPerformance, topicOrder, topicTallies,
                    correctCount', levelPerformance', topicOrder', topicTallies')
  {
    correctCount', levelPerformance', topicOrder', topicTallies' := correctCount, levelPerformance, topicOrder, topicTallies;
    var level := item.adaptiveLevel;
    var topic := item.questionData.topic;
    if topic !in topicTallies' {
      topicOrder' := topicOrder' + [topic];
      topicTallies' := topicTallies'[topic := Tally(0, 0)];
    }
    levelPerformance' := levelPerformance'[level := levelPerformance'[level].(total := levelPerformance'[level].total + 1)];
    topicTallies' := topicTallies'[topic := topicTallies'[topic].(total := topicTallies'[topic].total + 1)];

    if item.questionNumber in answers {
      var userAnswer := answers[item.questionNumber];
      if userAnswer == item.questionData.correctAnswer {
        correctCount' := correctCount' + 1;
        levelPerformance' := levelPerformance'[level := levelPerformance'[level].(correct := levelPerformance'[level].correct + 1)];
        topicTallies' := topicTallies'[topic := topicTallies'[topic].(correct := topicTallies'[topic].correct + 1)];
      }
    }
  }

  /** The dictionaries the scan ends with are the report's tables. */
  lemma ScoreTables(quiz: seq<QuizItem>, answers: map<int, int>, levels: map<int, Tally>, order: seq<string>, topics: map<string, Tally>)
    requires LevelsScanned(quiz, |quiz|, answers, levels)
    requires TopicsScanned(quiz, |quiz|, answers, order, topics)
    ensures levels == LevelTable(quiz, answers)
    ensures topics == TopicTableOf(quiz, answers).tallies
  {
    assert quiz[..|quiz|] == quiz;
  }

  /** `calculate_score`: one pass over the quiz updating the counters; an item at a level
      outside 1..5 would raise `KeyError`, so callers must not pass one. The report is a
      function of `answers` and `quiz` alone. */
  method CalculateScore(answers: map<int, int>, quiz: seq<QuizItem>) returns (r: ScoreReport)
    requires forall it :: it in quiz ==> 1 <= it.adaptiveLevel <= 5
    ensures r == ScoreOf(answers, quiz)
  {
    var correctCount: nat := 0;
    var totalCount := |quiz|;
    var levelPerformance := map[1 := Tally(0, 0), 2 := Tally(0, 0), 3 := Tally(0, 0), 4 := Tally(0, 0), 5 := Tally(0, 0)];
    var topicOrder: seq<string> := [];
    var topicTallies: map<string, Tally> := map[];

    for k := 0 to |quiz|
      invariant Scanned(quiz, k, answers, correctCount, levelPerformance, topicOrder, topicTallies)
    {
      var item := quiz[k];
      assert item in quiz;
      ghost var c0, levels0, order0, tallies0 := correctCount, levelPerformance, topicOrder, topicTallies;
      correctCount, levelPerformance, topicOrder, topicTallies :=
        ScoreItem(answers, item, correctCount, levelPerformance, topicOrder, topicTallies);
      ScannedStep(quiz, k, answers, c0, levels0, order0, tallies0,
                  correctCount, levelPerformance, topicOrder, topicTallies);
    }
    assert quiz[..|quiz|] == quiz;
    ScoreTables(quiz, answers, levelPerformance, topicOrder, topicTallies);
    var scorePercentage := if totalCount > 0 then Percent(correctCount, totalCount) else 0.0;
    r := ScoreReport(scorePercentage, correctCount, totalCount, levelPerformance, TopicTable(topicOrder, topicTallies));
  }

  /** Level totals over 1..5. */
  function LevelTotals(quiz: seq<QuizItem>, answers: map<int, int>): nat
  {
    LevelTally(quiz, answers, 1).total + LevelTally(quiz, answers, 2).total + LevelTally(quiz, answers, 3).total
    + LevelTally(quiz, answers, 4).total + LevelTally(quiz, answers, 5).total
  }

  function LevelCorrects(quiz: seq<QuizItem>, answers: map<int, int>): nat
  {
    LevelTally(quiz, answers, 1).correct + LevelTally(quiz, answers, 2).correct + LevelTally(quiz, answers, 3).correct
    + LevelTally(quiz, answers, 4).correct + LevelTally(quiz, answers, 5).correct
  }

  /** Every item lands in exactly one level tally: the level totals add up to the quiz length. */
  lemma {:induction false} LevelTotalsAddUp(quiz: seq<QuizItem>, answers: map<int, int>)
    requires forall it :: it in quiz ==> 1 <= it.adaptiveLevel <= 5
    ensures LevelTotals(quiz, answers) == |quiz|
  {
    if |quiz| > 0 {
      var p := quiz[..|quiz| - 1];
      assert quiz[|quiz| - 1] in quiz;
      assert forall it :: it in p ==> it in quiz;
      LevelTotalsAddUp(p, answers);
    }
  }

  /** And the level corrects add up to the overall correct count. */
  lemma {:induction false} LevelCorrectsAddUp(quiz: seq<QuizItem>, answers: map<int, int>)
    requires forall it :: it in quiz ==> 1 <= it.adaptiveLevel <= 5
    ensures LevelCorrects(quiz, answers) == CorrectCount(quiz, answers)
  {
    if |quiz| > 0 {
      var p := quiz[..|quiz| - 1];
      assert quiz[|quiz| - 1] in quiz;
      assert forall it :: it in p ==> it in quiz;
      LevelCorrectsAddUp(p, answers);
    }
  }

  /** Sum of a field of the topic tallies over a list of topics. */
  function SumTopicTotals(quiz: seq<QuizItem>, answers: map<int, int>, topics: seq<string>): nat
  {
    if |topics| == 0 then 0
    else SumTopicTotals(quiz, answers, topics[..|topics| - 1]) + TopicTally(quiz, answers, topics[|topics| - 1]).total
  }

  function SumTopicCorrects(quiz: seq<QuizItem>, answers: map<int, int>, topics: seq<string>): nat
  {
    if |topics| == 0 then 0
    else SumTopicCorrects(quiz, answers, topics[..|topics| - 1]) + TopicTally(quiz, answers, topics[|topics| - 1]).correct
  }

  lemma SumTopicTotalsSnoc(quiz: seq<QuizItem>, answers: map<int, int>, topics: seq<string>, t: string)
    ensures SumTopicTotals(quiz, answers, topics + [t]) == SumTopicTotals(quiz, answers, topics) + TopicTally(quiz, answers, t).total
  {
    assert (topics + [t])[..|topics|] == topics;
  }

  /** Adding one item to the quiz raises the total over distinct topics by one when its topic is listed. */
  lemma {:induction false} SumTopicTotalsStep(p: seq<QuizItem>, x: QuizItem, answers: map<int, int>, topics: seq<string>)
    requires Distinct(topics)
    ensures SumTopicTotals(p + [x], answers, topics)
      == SumTopicTotals(p, answers, topics) + (if x.questionData.topic in topics then 1 else 0)
  {
    var q := p + [x];
    assert q[..|q| - 1] == p;
    if |topics| > 0 {
      var init := topics[..|topics| - 1];
      assert topics == init + [topics[|topics| - 1]];
      SumTopicTotalsStep(p, x, answers, init);
    }
  }

  lemma SumTopicCorrectsSnoc(quiz: seq<QuizItem>, answers: map<int, int>, topics: seq<string>, t: string)
    ensures SumTopicCorrects(quiz, answers, topics + [t]) == SumTopicCorrects(quiz, answers, topics) + TopicTally(quiz, answers, t).correct
  {
    assert (topics + [t])[..|topics|] == topics;
  }

  /** Likewise for the corrects, when the item is answered correctly. */
  lemma {:induction false} SumTopicCorrectsStep(p: seq<QuizItem>, x: QuizItem, answers: map<int, int>, topics: seq<string>)
    requires Distinct(topics)
    ensures SumTopicCorrects(p + [x], answers, topics)
      == SumTopicCorrects(p, answers, topics) + (if x.questionData.topic in topics && IsCorrect(answers, x) then 1 else 0)
  {
    var q := p + [x];
    assert q[..|q| - 1] == p;
    if |topics| > 0 {
      var init := topics[..|topics| - 1];
      assert topics == init + [topics[|topics| - 1]];
      SumTopicCorrectsStep(p, x, answers, init);
    }
  }

  lemma {:induction false} TopicTallyAbsent(quiz: seq<QuizItem>, answers: map<int, int>, topic: string)
    requires topic !in QuizTopics(quiz)
    ensures TopicTally(quiz, answers, topic) == Tally(0, 0)
  {
    if |quiz| > 0 {
      var p := quiz[..|quiz| - 1];
      assert QuizTopics(quiz) == QuizTopics(p) + [quiz[|quiz| - 1].questionData.topic];
      TopicTallyAbsent(p, answers, topic);
    }
  }

  /** The last item's topic either was already listed or is appended to the list. */
  lemma QuizTopicsStep(quiz: seq<QuizItem>)
    requires |quiz| > 0
    ensures var p := quiz[..|quiz| - 1]; var topic := quiz[|quiz| - 1].questionData.topic;
      && quiz == p + [quiz[|quiz| - 1]]
      && Unique(QuizTopics(quiz)) == if topic in Unique(QuizTopics(p)) then Unique(QuizTopics(p)) else Unique(QuizTopics(p)) + [topic]
  {
    var p := quiz[..|quiz| - 1];
    assert QuizTopics(quiz)[..|quiz| - 1] == QuizTopics(p);
  }

  /** Every item lands in exactly one topic tally: over the reported topics the totals add up
      to the quiz length. */
  lemma {:induction false} TopicTotalsAddUp(quiz: seq<QuizItem>, answers: map<int, int>)
    ensures SumTopicTotals(quiz, answers, Unique(QuizTopics(quiz))) == |quiz|
  {
    if |quiz| > 0 {
      var p := quiz[..|quiz| - 1];
      var x := quiz[|quiz| - 1];
      var topic := x.questionData.topic;
      var u := Unique(QuizTopics(p));
      QuizTopicsStep(quiz);
      TopicTotalsAddUp(p, answers);
      SumTopicTotalsStep(p, x, answers, u);
      if topic !in u {
        SumTopicTotalsSnoc(quiz, answers, u, topic);
        TopicTallyAbsent(p, answers, topic);
        assert TopicTally(quiz, answers, topic).total == 1;
      }
    }
  }


  /** And the topic corrects add up to the overall correct count. */
  lemma {:induction false} TopicCorrectsAddUp(quiz: seq<QuizItem>, answers: map<int, int>)
    ensures SumTopicCorrects(quiz, answers, Unique(QuizTopics(quiz))) == CorrectCount(quiz, answers)
  {
    if |quiz| > 0 {
      var p := quiz[..|quiz| - 1];
      var x := quiz[|quiz| - 1];
      var topic := x.questionData.topic;
      var u := Unique(QuizTopics(p));
      QuizTopicsStep(quiz);
      TopicCorrectsAddUp(p, answers);
      SumTopicCorrectsStep(p, x, answers, u);
      if topic !in u {
        SumTopicCorrectsSnoc(quiz, answers, u, topic);
        TopicTallyAbsent(p, answers, topic);
        assert TopicTally(quiz, answers, topic).correct == (if IsCorrect(answers, x) then 1 else 0);
      }
    }
  }


  /** The report's counting invariants: level totals and topic totals each add up to the
      number of items, and their corrects to the overall correct count. */
  lemma ScoreAddsUp(answers: map<int, int>, quiz: seq<QuizItem>)
    requires forall it :: it in quiz ==> 1 <= it.adaptiveLevel <= 5
    ensures var r := ScoreOf(answers, quiz);
      && r.levelPerformance[1].total + r.levelPerformance[2].total + r.levelPerformance[3].total
         + r.levelPerformance[4].total + r.levelPerformance[5].total == r.totalCount
      && r.levelPerformance[1].correct + r.levelPerformance[2].correct + r.levelPerformance[3].correct
         + r.levelPerformance[4].correct + r.levelPerformance[5].correct == r.correctCount
      && SumTopicTotals(quiz, answers, r.topicPerformance.order) == r.totalCount
      && SumTopicCorrects(quiz, answers, r.topicPerformance.order) == r.correctCount
      && (forall t :: t in r.topicPerformance.order ==> r.topicPerformance.tallies[t] == TopicTally(quiz, answers, t))
  {
    LevelTotalsAddUp(quiz, answers);
    LevelCorrectsAddUp(quiz, answers);
    TopicTotalsAddUp(quiz, answers);
    TopicCorrectsAddUp(quiz, answers);
  }

  /** Unanswered items are never correct: with no answers nothing is counted correct. */
  lemma {:induction false} NoAnswersNoneCorrect(quiz: seq<QuizItem>)
    ensures CorrectCount(quiz, map[]) == 0
  {
    if |quiz| > 0 {
      NoAnswersNoneCorrect(quiz[..|quiz| - 1]);
    }
  }

  /** Answers given for numbers the quiz does not hold change nothing. */
  lemma {:induction false} StrayAnswersIgnored(quiz: seq<QuizItem>, answers: map<int, int>, n: int, option: int)
    requires forall it :: it in quiz ==> it.questionNumber != n
    ensures CorrectCount(quiz, answers[n := option]) == CorrectCount(quiz, answers)
  {
    if |quiz| > 0 {
      var p := quiz[..|quiz| - 1];
      assert forall it :: it in p ==> it in quiz;
      StrayAnswersIgnored(p, answers, n, option);
    }
  }
}
