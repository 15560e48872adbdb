# SkillScan scoring and gap-analysis pipeline in Dafny

SkillScan is a prerequisite self-assessment tool. A learner picks a course (Data Science, AI/ML,
Cybersecurity or Full Stack) and states a self-assessed level 1..5. The tool then:

1. builds a quiz from a generated question bank;
2. scores the answers overall, per difficulty level and per topic;
3. bands the topics into strong, moderate and weak, gives a readiness verdict and works out the
   level the learner has actually mastered;
4. turns the weak and moderate topics into a priority list, a learning path and a weekly schedule;
5. draws a skill tree and a radar chart of the per-level scores.

The repository contains the pipeline twice. It is once in separate modules and once inline in the
single-page application `app.py`, where some constants and some rules differ. This project models
both copies:

| Dafny file | module | models |
|---|---|---|
| `text.dfy` | `Text` | the Python string operations the pipeline uses: ASCII `lower`, `in`, `replace`, `strip`, `str(int)` |
| `common.dfy` | `Common` | `Option`, per-level and per-topic tallies, exact percentages, the insertion-ordered topic dictionary, `unique`, slicing `[:n]`, and Fisher-Yates shuffling driven by a caller-supplied draw function |
| `data_processor.dfy` | `Questions` | `data_processor.py`: bank generation, loading, level query, topics, level distribution |
| `assessment_engine.dfy` | `Assessment` | `assessment_engine.py`: quiz composition and scoring |
| `gap_analyzer.dfy` | `Gaps` | `gap_analyzer.py`: topic bands, readiness, actual level, gap message, priority list |
| `learning_path.dfy` | `Learning` | `learning_path.py`: resource library and lookup, learning path, study schedule |
| `skill_tree.dfy` | `SkillTree` | `skill_tree.py`: hierarchy table, skill status, the four node lists, radar scores |
| `app.dfy` | `App` | the inline copy in `app.py` (20-question bank, 4 per level, 20-question quiz, 6-hour path, fixed 4-week schedule) and the results and report tables |

Code that changes state step by step is written as imperative Dafny. Examples are the loops that
build banks, pools, tallies, band lists, paths, schedules and node lists, and the loaders that fill
the `question_banks` dictionary. Each such method is proved equal to a specification function.
The properties the source promises are then proved about those functions as lemmas.

Objects the source keeps state in are classes:
- `Questions.DataProcessor` and `App.DataProcessor` hold `courses` and `questionBanks`;
- `Learning.LearningPathGenerator` holds the resource library;
- `SkillTree.SkillTreeBuilder` holds the skill hierarchies.

Percentages are exact rationals (`real`). A threshold test such as `pct >= 80` is also proved
equivalent to the integer test `correct * 100 >= 80 * total`.

`random.shuffle` and `DataFrame.sample` are modelled as Fisher-Yates over a draw function
`nat -> nat` that the caller supplies. Every property is proved for all draw functions.

The two copies of the pipeline use different constants. The module copy keeps 25 questions per
bank, 5 per level and a 25-question quiz. The inline copy keeps 20 per bank, 4 per level and a
20-question quiz. Both sets are modelled as the code has them rather than unified. The module
schedule follows the cumulative-hours algorithm of `learning_path.py`. The fixed four-week table
is the inline copy's schedule only.

The inline `calculate_score` (app.py:200-234) and the inline `GapAnalyzer` (app.py:237-341) repeat
the module code statement for statement, with the same thresholds and messages. The same members
model them: `Assessment.CalculateScore` and its lemmas, and `Gaps.AnalyzeGaps`,
`Gaps.CalculateActualLevel`, `Gaps.GapBandOf` and `Gaps.GeneratePriorityList` with theirs. The one
difference is that the inline copy tests `if quiz_questions` rather than `total_count > 0` before
dividing, and both tests are false exactly for an empty quiz.

## Model

| member | source | states |
|---|---|---|
| Text.Lower | skill_tree.py:120 | ASCII lower-casing keeps the length, leaves no upper-case letter, and changes only `A`..`Z`, each by +32 |
| Text.ContainsIff | skill_tree.py:124 | the `in` test on strings holds iff the needle occurs at some position of the haystack |
| Text.ReplaceAbsent | learning_path.py:143 | replacing a pattern that does not occur returns the string unchanged |
| Text.RemoveShortens | learning_path.py:143 | deleting every occurrence of a pattern never lengthens the string |
| Text.Strip | learning_path.py:143 | `strip()` returns no more characters than it got, with no whitespace at either end; whitespace is every character `str.isspace()` accepts, including the Unicode spaces above U+00FF |
| Text.StripIsSlice | learning_path.py:143 | `strip()` returns a contiguous slice of its input with only whitespace cut off on either side |
| Text.NatToString | app.py:816 | `str(n)` for a natural number is a non-empty run of decimal digits |
| Text.ParseNatToString | app.py:816 | reading the decimal text of `n` back gives `n` |
| Text.NatToStringInjective | app.py:816 | different counts print as different text |
| Common.Percent | assessment_engine.py:78 | `correct / total * 100` is exact, non-negative and at most 100 when correct <= total |
| Common.PercentAtLeast | gap_analyzer.py:25-30 | a percentage reaches threshold k iff `correct * 100 >= k * total` |
| Common.PercentMonotone | gap_analyzer.py:70-72 | more correct answers out of the same total never lower the percentage |
| Common.Unique | data_processor.py:150 | `unique()` has no repeats and keeps exactly the values of its input |
| Common.UniqueFirstAppearance | data_processor.py:150 | `unique()` lists values in order of their first appearance |
| Common.Take | assessment_engine.py:35 | `s[:n]` has length min(n, len(s)), is a prefix of `s`, and invents no element |
| Common.Shuffled | assessment_engine.py:32 | a shuffle is a permutation: same length, same multiset of elements |
| Questions.ConfigFor | data_processor.py:43-103 | exactly the four courses have a configuration, each with 5 topics and 5 question templates |
| Questions.SampleBank | data_processor.py:105-121 | the generated bank has exactly the requested number of rows |
| Questions.CreateSampleData | data_processor.py:38-123 | an unknown course raises (None); a known course yields exactly its 25 generated rows in order |
| Questions.LoadCourse | data_processor.py:26-36 | one loading step stores the generated bank, or the empty table if generation failed; 25 rows for a configured course |
| Questions.SampleLevels | data_processor.py:105-114 | row i of a generated bank has level `i % 5 + 1` |
| Questions.SampleLevelCount | data_processor.py:105-114 | a bank of 5k generated rows holds exactly k rows at each level 1..5 and none at any other level |
| Questions.LoadedBankLevels | data_processor.py:105-114 | every loaded course has exactly 5 questions at each level 1..5 |
| Questions.SampleTopicPerLevel | data_processor.py:106-107 | all generated questions at one level share one topic, `topics[level - 1]` |
| Questions.SampleIdsDistinct | data_processor.py:111 | generated ids `course[:2].lower() + "_" + str(i + 1)` are pairwise distinct |
| Questions.AtLevel | data_processor.py:134 | the level filter keeps exactly the rows at that level, as many as the bank has there, and invents none |
| Questions.LevelCounts | data_processor.py:152-160 | `value_counts().sort_index()`: strictly ascending levels, each present level exactly once with its positive count, counts summing to the number of rows |
| Questions.CountInRangeAll | data_processor.py:152-160 | levels inside a range are all counted by the per-level tally of that range |
| Questions.DataProcessor.constructor | data_processor.py:9-21 | the processor knows the four courses and every one of them has its loaded bank |
| Questions.DataProcessor.LoadAllCourses | data_processor.py:23-36 | every course in `courses` gets an entry: its bank, or the empty table on failure; other entries stay |
| Questions.DataProcessor.GetQuestionsByLevel | data_processor.py:125-139 | unknown course gives no rows; an empty bank is returned as is; otherwise only rows of the bank at that level, all of them unless a truthy limit is smaller than the number of matches, then exactly `limit` rows drawn without replacement |
| Questions.DataProcessor.GetAllTopics | data_processor.py:141-150 | unknown course gives `[]`, an empty bank `['General']`, otherwise the bank's topics without repeats |
| Questions.DataProcessor.GetLevelDistribution | data_processor.py:152-160 | unknown course gives `{}`, an empty bank the placeholder `{1:5,...,5:5}`, otherwise ascending levels, each with its row count, summing to the bank size |
| Assessment.Renumbered | assessment_engine.py:38-39 | renumbering changes only the numbers: same length, same questions and levels in the same order |
| Assessment.PoolSource | assessment_engine.py:22-29 | every collected item came from the selection for its own `adaptive_level`, which is within 1..5 |
| Assessment.PoolSize | assessment_engine.py:22-29 | the collected pool has at most 5 items per level |
| Assessment.CutShape | assessment_engine.py:32-39 | after shuffle, cut and renumbering the quiz has at most `max` items numbered 1..N in order, a sub-multiset of the pool, all of it when the pool fits |
| Assessment.ComposedShape | assessment_engine.py:22-39 | the composed quiz has at most `max` items numbered 1..N and is a sub-multiset of the pool, all of it when the pool fits |
| Assessment.ComposedFromPool | assessment_engine.py:22-39 | each quiz item's question was selected for the item's `adaptive_level` |
| Assessment.SelectionsSound | assessment_engine.py:22-23 | each level's selection has at most 5 rows, all from the course's bank and at that level |
| Assessment.CollectPool | assessment_engine.py:19-29 | the collecting loop builds exactly the pool of level 1..5 selections, numbered in collection order |
| Assessment.AppendLevel | assessment_engine.py:24-29 | one level's rows are appended with that level and consecutive numbers |
| Assessment.Renumber | assessment_engine.py:38-39 | the renumbering loop computes the renumbered list |
| Assessment.ComposedSound | assessment_engine.py:15-41 | the quiz has at most 25 items numbered 1..N; each item has level 1..5 equal to its question's level and comes from the course's bank; with at most 25 collected the quiz is a permutation of the pool |
| Assessment.GenerateAdaptiveQuiz | assessment_engine.py:15-41 | `generate_adaptive_quiz` returns the composed quiz: at most 25 items, dense numbering, sound levels, a permutation of the collected pool |
| Assessment.CorrectCount | assessment_engine.py:69-76 | the number of correctly answered items never exceeds the quiz length |
| Assessment.LevelTally | assessment_engine.py:66-75 | a level's correct count never exceeds its total, which never exceeds the quiz length |
| Assessment.TopicTally | assessment_engine.py:67-76 | a topic's correct count never exceeds its total, which never exceeds the quiz length |
| Assessment.ScorePercentage | assessment_engine.py:78 | the score is 0 for an empty quiz and within 0..100 otherwise |
| Assessment.ScoreOf | assessment_engine.py:43-85 | `total_count` is the quiz length, correct <= total, the level table has exactly keys 1..5, the topic table is a well-formed ordered dictionary, the percentage is within 0..100 and 0 for an empty quiz |
| Assessment.CalculateScore | assessment_engine.py:43-85 | the tallying loop returns exactly the report defined per item, so the result depends only on `answers` and the quiz |
| Assessment.ScoreTables | assessment_engine.py:57-76 | the tables the loop builds are the per-level tallies and the per-topic tallies in first-seen order |
| Assessment.ScoreAddsUp | assessment_engine.py:48-76 | the level totals and the topic totals each add up to `total_count`; the level and topic correct counts each add up to `correct_count` |
| Assessment.LevelTotalsAddUp | assessment_engine.py:57-66 | every item counts towards exactly one of the levels 1..5, answered or not |
| Assessment.TopicTotalsAddUp | assessment_engine.py:63-67 | every item counts towards exactly one first-seen topic, answered or not |
| Assessment.TopicTallyAbsent | assessment_engine.py:63-64 | a topic not in the quiz has no tally |
| Assessment.NoAnswersNoneCorrect | assessment_engine.py:69 | with no answers nothing is correct |
| Assessment.StrayAnswersIgnored | assessment_engine.py:69-73 | an answer to a number no item carries changes nothing |
| Gaps.BandByCounts | gap_analyzer.py:25-30 | strong iff correct·100 >= 80·total, weak iff correct·100 < 60·total, moderate iff in between |
| Gaps.Banded | gap_analyzer.py:15-30 | each band's entries are topics of the table in that band, with their own percentage and counts |
| Gaps.BandedTopics | gap_analyzer.py:15-30 | a topic is in a band's list iff it is in the table and its tally falls in that band |
| Gaps.BandsPartition | gap_analyzer.py:15-30 | a topic with total > 0 lands in exactly one band; a topic with total 0 lands in none |
| Gaps.BandedOrder | gap_analyzer.py:15-30 | each band list keeps the topic table's order |
| Gaps.BandTopics | gap_analyzer.py:15-30 | the banding loop builds exactly the strong, weak and moderate lists |
| Gaps.ReadinessOf | gap_analyzer.py:33-45 | Excellent iff score >= 80, Good iff 70 <= score < 80, Satisfactory iff 60 <= score < 70, Needs Improvement iff score < 60 |
| Gaps.ReadinessMonotone | gap_analyzer.py:33-45 | a higher score never gets a worse readiness label |
| Gaps.HighestMasteredFrom | gap_analyzer.py:66-75 | scanning down from a level finds the highest mastered level at or below it, else 1 |
| Gaps.ActualLevel | gap_analyzer.py:66-75 | the actual level is within 1..5, no higher level is mastered, and it is mastered itself unless no level is, when it is 1 |
| Gaps.CalculateActualLevel | gap_analyzer.py:66-75 | the descending loop with early break computes the actual level |
| Gaps.ActualLevelMonotone | gap_analyzer.py:66-75 | raising correct counts with the same totals never lowers the actual level |
| Gaps.GapBandOf | gap_analyzer.py:77-85 | significant iff gap > 2, slightly optimistic iff gap is 1 or 2, matching iff 0, above self-assessment iff gap < 0 |
| Gaps.Analysis | gap_analyzer.py:6-64 | the score and both tables pass through unchanged, the self-assessed level is kept, the actual level is within 1..5 and the gap is `initial_level - actual_level` |
| Gaps.AnalyzeGaps | gap_analyzer.py:6-64 | `analyze_gaps` returns exactly that analysis |
| Gaps.PrioritisedShape | gap_analyzer.py:87-109 | the list has |weak| + |moderate| entries; an entry is High iff it comes from the weak topics; every High precedes every Medium; areas follow the weak then the moderate topics in order |
| Gaps.GeneratePriorityList | gap_analyzer.py:87-109 | the two loops build exactly the High-then-Medium list |
| Gaps.NoStrongPriorities | gap_analyzer.py:87-109 | no priority names a strong topic; each names a weak or a moderate one |
| Learning.CourseTopics | learning_path.py:12-79 | each course's library has two topics with resources at levels 1..5 |
| Learning.BuildLibrary | learning_path.py:12-79 | the library covers exactly the four courses, two topics each, every topic with five levels |
| Learning.LevelList | learning_path.py:151 | `.get(level, [])` gives nothing for a level outside the table |
| Learning.CleanAreaShortens | learning_path.py:143 | cleaning an area name never lengthens it |
| Learning.Generic | learning_path.py:163-167 | the generic fallback is three strings |
| Learning.KeyIndex | learning_path.py:150 | finds the first library entry whose key equals the cleaned area, or reports none |
| Learning.FirstHit | learning_path.py:156-160 | finds the first entry, in table order, that matches by substring and has resources at the level |
| Learning.Lookup | learning_path.py:146-167 | a course's lookup never returns an empty list |
| Learning.ResourcesFor | learning_path.py:140-167 | `_get_resources` never returns an empty list |
| Learning.LookupOrder | learning_path.py:146-167 | the result is the exact key's non-empty list; or else the first partial match's non-empty list; or else, when nothing matches, the generic fallback |
| Learning.ResourcesSource | learning_path.py:140-167 | the result is either the generic fallback or a non-empty list from the course's own library |
| Learning.MissingLevelIsGeneric | learning_path.py:140-167 | a level outside 1..5, such as 6 from `actual_level + 1`, always falls through to the generic fallback |
| Learning.WithPriority | learning_path.py:101-114 | the filtered list keeps only priorities of that kind, drawn from the input |
| Learning.WithPriorityOfPrioritised | learning_path.py:101-114 | filtering the priority list for High gives back the weak topics and for Medium the moderate ones, in order |
| Learning.WithPriorityAppend | learning_path.py:101-114 | filtering distributes over concatenation |
| Learning.StretchLevel | learning_path.py:128 | `min(5, actual_level + 2)` is at most 5 and at most `actual_level + 2`, and equals one of them |
| Learning.PathHours | learning_path.py:93-138 | hours = 5·|immediate| + 3·|short| + 2·|long| <= 28; at most 3, 3 and 2 items; targets 70%+ and 80%+; item hours 5, 3 and 2 |
| Learning.ImmediateFromAnalysis | learning_path.py:101-111 | the immediate focus is the first min(3, |weak|) weak topics in order |
| Learning.ShortTermFromAnalysis | learning_path.py:114-124 | the short term is the first min(3, |moderate|) moderate topics in order |
| Learning.LearningPathGenerator.constructor | learning_path.py:8-79 | the generator holds the resource library |
| Learning.LearningPathGenerator.GetResources | learning_path.py:140-167 | the lookup loop computes the specified resources |
| Learning.LearningPathGenerator.AddItems | learning_path.py:102-111 | one band's loop appends one path item per priority and adds `hours` per item to the budget |
| Learning.LearningPathGenerator.GenerateLearningPath | learning_path.py:81-138 | the loops build exactly the path of the first 3 High, first 3 Medium and first 2 strong topics, with their levels and hours |
| Learning.NextWeek | learning_path.py:190-209 | the week counter stays or advances by exactly one |
| Learning.ScanImmediate | learning_path.py:179-192 | every immediate item gets one entry, in order, and the week advances by at most one per item |
| Learning.ScanShort | learning_path.py:195-209 | short-term entries follow in order, all within `weeks`; the loop stops only once the week passes `weeks` |
| Learning.ScheduleWeeks | learning_path.py:171-222 | weeks never decrease and step by at most one from week 1; the review entry (week = `weeks`, hours = total/weeks) is appended iff the counter is still <= `weeks` |
| Learning.ScheduleFoci | learning_path.py:179-209 | the schedule lists all immediate items, then a prefix of the short-term items, each in its week |
| Learning.ScanShortStopped | learning_path.py:196-197 | once the week counter passes `weeks` no further short-term entry is added |
| Learning.LearningPathGenerator.GenerateStudySchedule | learning_path.py:169-223 | the schedule loops build exactly the specified schedule |
| Learning.ScheduleImmediate | learning_path.py:179-192 | the immediate loop builds the specified entries and week counter |
| Learning.ScheduleShortTerm | learning_path.py:195-209 | the short-term loop builds the specified entries and week counter |
| SkillTree.CourseSkills | skill_tree.py:12-38 | every stage of every course lists three skills |
| SkillTree.CourseHierarchy | skill_tree.py:12-38 | each course's hierarchy maps the four stage names to their three skills |
| SkillTree.DefineSkillHierarchies | skill_tree.py:12-38 | hierarchies exist for exactly the four courses, each with four stages of three skills |
| SkillTree.GetSkillStatus | skill_tree.py:118-132 | strong iff the skill matches a strong topic; weak iff it matches no strong topic and some weak topic; moderate otherwise; a match is a case-insensitive substring in either direction |
| SkillTree.LevelColorsOrdered | skill_tree.py:76-82 | lightgreen stages precede the yellow one, which precedes lightcoral; only stage `actual_level + 1` is yellow |
| SkillTree.SkillNodes | skill_tree.py:84-97 | one node per skill |
| SkillTree.StageNodes | skill_tree.py:67-97 | a stage contributes its own node and one node per skill |
| SkillTree.StagesLength | skill_tree.py:67-97 | k stages contribute k nodes plus their skills |
| SkillTree.TreeShape | skill_tree.py:44-97 | the tree is empty iff the course is unknown; otherwise the four lists have equal length 5 + number of skills and index 0 is the root (course, "", 100, lightblue) |
| SkillTree.SeventeenNodes | skill_tree.py:15-97 | every known course's tree has 17 nodes |
| SkillTree.StageInTree | skill_tree.py:67-97 | stage k's nodes sit together in the tree, in stage order Foundation, Intermediate, Advanced, Expert |
| SkillTree.StageNodesAre | skill_tree.py:67-97 | a stage node has parent the course, value 10 per skill and its level colour; each skill node has parent its stage, value 10 and its status colour |
| SkillTree.StageValueIsSum | skill_tree.py:67-97 | a stage's value is the sum of its skill nodes' values |
| SkillTree.SkillTreeBuilder.constructor | skill_tree.py:9-38 | the builder holds the skill hierarchies |
| SkillTree.SkillTreeBuilder.BuildSkillTree | skill_tree.py:41-97 | the nested loops build exactly the specified four node lists, or the empty tree for an unknown course |
| SkillTree.AppendSkills | skill_tree.py:84-97 | the inner loop appends one node per skill to all four lists |
| SkillTree.CreatePerformanceRadar | skill_tree.py:150-160 | five entries labelled "Level 1".."Level 5", each scored by its level's tally |
| SkillTree.RadarAgainstTarget | skill_tree.py:153-180 | a radar score lies within 0..100 and reaches the 70% target line iff the level is mastered |
| App.ConfigFor | app.py:91-144 | exactly the four courses have an inline configuration, each with 4 topics and 4 templates |
| App.BankRows | app.py:144-161 | an inline bank has 20 rows; row i has level `i % 5 + 1` and topic `topics[i % 4]` |
| App.BankLevels | app.py:144-161 | an inline bank holds exactly 4 questions at each level 1..5 and none elsewhere |
| App.EveryTopicAtEveryLevel | app.py:144-161 | in an inline bank every topic occurs at every level |
| App.CreateSampleData | app.py:89-163 | the inline generator returns the 20-row bank in order |
| App.DataProcessor.constructor | app.py:80-83 | the inline processor knows the four courses and holds each one's bank |
| App.DataProcessor.LoadAllCourses | app.py:85-87 | every course gets its bank; other entries stay |
| App.DataProcessor.GetQuestionsByLevel | app.py:165-172 | unknown course gives no rows; otherwise only rows at that level, all unless a truthy limit is smaller, then exactly `limit` rows drawn without replacement |
| App.DataProcessor.GetLevelDistribution | app.py:174-178 | unknown course gives `{}`; otherwise ascending levels covering exactly the bank's levels, each paired with its own positive row count, counts summing to the bank size, with no placeholder for an empty bank |
| App.SelectionsSound | app.py:187-188 | each level's selection has at most 4 rows, from the course's bank at that level |
| App.FetchWhole | app.py:165-172 | a fetch with limit 4 whose level holds at most 4 rows returns exactly that level's rows, in bank order |
| App.SelectionsUnsampled | app.py:165-172 | on the app's own banks a fetch of 4 at any level returns that level's rows whole, since each level holds exactly 4, so the sampling branch is never taken |
| App.CollectPool | app.py:186-194 | the collecting loop builds exactly the pool of level 1..5 selections |
| App.RenumberThenCut | app.py:195-198 | renumbering before cutting to 20 gives the same quiz as cutting first |
| App.GenerateAdaptiveQuiz | app.py:185-198 | the inline quiz has at most 20 items numbered 1..N, each at its fetched level from the course's bank, and is a permutation of the pool |
| App.ComposedItemSound | app.py:187-198 | each inline quiz item has level 1..5 equal to its question's level and comes from the bank |
| App.ComposedSound | app.py:185-198 | the inline quiz has at most 20 items, dense numbering, and, with at most 20 collected, all of the pool |
| App.FocusItems | app.py:353-365 | one focus item per priority |
| App.GenerateLearningPath | app.py:345-368 | the inline loop builds exactly the fixed-resource path |
| App.PathShape | app.py:345-368 | the first min(3, n) priorities whatever their kind, each with its area and score, target 70%+, 6 hours, and 4 resources: three naming the area (tutorials, practice exercises, video courses on its fundamentals) and the fixed fourth "Interactive coding challenges"; short and long term empty; hours = 6·count <= 18 |
| App.GenerateStudySchedule | app.py:370-391 | the inline loop builds one entry per week |
| App.ScheduleShape | app.py:370-391 | entry i is week i + 1 with 5 activities and 8 hours; the four focus texts differ; a shorter plan is a prefix of a longer one |
| App.LevelData | app.py:616-626 | the level table lists, in level order, a row for each level with questions |
| App.LevelRowFor | app.py:619-625 | one row's score and status |
| App.LevelRowsSound | app.py:617-626 | each row is the row of a level with total > 0 |
| App.LevelRowsAscending | app.py:617-626 | rows are in strictly ascending level order |
| App.LevelRowsComplete | app.py:617-626 | every level with total > 0 has a row |
| App.LevelStatusAgreesWithAnalysis | app.py:625 | Mastered iff the level is mastered in the gap analysis; Mastered rows are at or below the actual level, and the actual level's row is Mastered whenever any level is |
| App.PerformanceData | app.py:718-742 | the section loop builds the rows of the topic table |
| App.SectionRowFor | app.py:721-742 | one section's strength, remarks and counts |
| App.SectionRowsAgreeWithBands | app.py:719-742 | a topic has a row iff it has questions; correct + incorrect = total and unattempted = 0; Excellent iff the topic is strong and Needs Improvement iff it is weak |
| App.SlashAt | app.py:816 | finds the first `/` of the score text |
| App.ScoreRoundTrip | app.py:816 | the score text "correct/total" reads back as the two counts |
| App.PhrasedInverse | app.py:820-821 | stripping the fixed prefix from a phrase gives back the topic |
| App.ExportReport | app.py:812-828 | candidate "Student" and the course; the score text "correct/total" reads back as the two counts; percentage = overall score and status = readiness label; the section table as breakdown; one "Excellent knowledge of" phrase per strong topic and one "Improve understanding of" phrase per weak topic, in order; five fixed recommendations |
| App.ReportAgreesWithAnalysis | app.py:812-821 | the score text reads back as correct and total; the percentage is the overall score; the status is the readiness label; strengths and improvement areas name the strong and weak topics in order |

## Left out

- The Streamlit pages (`app.py` outside the pipeline copy and the three derivations): page setup, styling, navigation, session state, widgets and rendering are presentation.
- Randomness: `random.shuffle` and `DataFrame.sample` are parameters. The draw function is supplied by the caller, and `random_state=42` is just one particular draw function. The app's five fetches share one draw function where the app samples each independently; on the app's banks no fetch samples at all (App.SelectionsUnsampled).
- Floating point: percentages are exact rationals. The `.1f` formatting of `current_score`, of the priority `reason` strings and of the report's percentage text is not modelled. Priority items carry no `reason` field.
- Text.Lower: lower-cases ASCII letters only. Python's `str.lower` also folds non-ASCII letters. The course names, topics and skills are ASCII.
- The CSV path table, `os.makedirs`, `print` and the logging in `load_all_courses` are I/O that nothing reads back.
- The report's `test_date` comes from the clock and is left out. The report has no date field; its candidate name and five fixed recommendations are modelled.
- Plotly figure objects (`go.Figure`, `Sunburst`, `Scatterpolar`, layout) and the annotation of the empty tree are left out. The model keeps the four node lists, with `EmptyTree` for an unknown course, and the radar's labels and scores.
- The inline `SkillTreeBuilder` (app.py:394-423) is not part of this model. It returns hard-coded lists.
- pandas internals are left out: frames are sequences of `Question` records, and `iterrows`, `reset_index` and `value_counts` are sequence operations.
- Questions.CreateSampleData: the `KeyError` for an unknown course is modelled as `None`. Questions.DataProcessor.LoadAllCourses stores the empty table in that case, as the source's `except` branch does.
- App.CreateSampleData: requires a configured course. The inline generator has no `except` and raises `KeyError` otherwise.
- App.DataProcessor.LoadAllCourses: requires every course in `courses` to be configured, for the same reason.
- App.GenerateStudySchedule: requires `weeks <= 4`. Week 5 and later raise `KeyError` in the focus table.
- Learning.LearningPathGenerator.GenerateStudySchedule: requires `weeks > 0`. The source divides by `weeks`.
- Assessment.CalculateScore: requires every `adaptive_level` to be within 1..5. Any other level raises `KeyError`.
- App.LevelData: requires the level table's keys to be exactly 1..5, which is what the score report holds. The model visits them in ascending order, as the dictionary is built.
- Learning.ScheduleWeeks: the week counter is compared with the running hours as exact rationals, `hours >= hours_per_week * week`. The rounding of the float product is not modelled.
- `min_questions` (15) is set by the engine and never read. It is kept as a constant only.
- Several loops of the source are split into helper methods of their own. Examples are the inner loops of quiz collection, scoring, banding, path building and tree building. Each helper is proved against the same specification functions, so the composed behaviour is the source's.
