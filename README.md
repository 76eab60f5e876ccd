# Smart Resume Analyzer — verified model of the analysis pipeline

This project models the deterministic core of the Smart Resume Analyzer in Dafny, and proves
properties of that model. It covers seven parts:

- the scoring engine (`utils/scoring.py`): structure, content and impact rubrics, the weighted
  section score, the combined overall score, the letter grade, and strengths and weaknesses;
- the skill classifier (`utils/skill_classifier.py`): the context-confidence fold, the two-pass
  matcher that fills the per-category skill lists, the statistics, skill gaps, recommendations
  and the skill summary;
- the feedback generator (`utils/feedback.py`): the content-quality analysis, the enhanced
  feedback list with its conditional blocks, and the legacy entry point;
- the section detector (`utils/section_extractor.py`): line-anchored, case-insensitive section
  headers;
- parts of the resume parser (`parser/resume_parser.py`): the education-line scanner, the text
  statistics, the capitalisation strategies of name extraction, and basic information;
- two helpers of the PDF report (`utils/report_generator.py`): the feedback-line classifier and
  the latin-1 sanitiser, with the `**` removal of a feedback item;
- the upload check of the web front end (`app.py`): `allowed_file`, the `secure_filename`
  rewriting of the name, and the routing of an accepted name to a text extractor on the
  extension of the secured name.

## Conventions

- Python dictionaries are ordered association lists `seq<(string, V)>` (module `PyValues`).
  Updating a key keeps its position.
- Regular expressions with character classes and repetitions go through a regular-expression
  engine, which the model takes as a parameter `rx: (pattern, subject) -> seq<Match>`.
  - `re.search` is "some match".
  - `len(re.findall(...))` is the number of matches.
  - `re.finditer` is the match list.
- Patterns made of literal words are modelled concretely:
  - the section headers;
  - the whole-word skill pattern `\b` + skill + `\b`;
  - the `kw in text_lower` substring tests;
  - the sentence split `[.!?]+`;
  - the education scanner's keyword and degree patterns;
  - the name patterns.
- Letter case and whitespace are ASCII: `lower()` keeps the length of the text.
- Confidences are integer tenths (5 stands for 0.5). The overall score is computed in exact
  hundredths (`30·section + 25·structure + 25·content + 20·impact`).
- A number the feedback prints is a `Num`: an `int` or a float held in tenths.
- Methods follow the source's loops and `append`s. Each method is proved equal to a function,
  and the properties are proved about that function.

## Model

| member | source | states |
|---|---|---|
| `Scoring.PresentMembers` | utils/scoring.py:24-40 | an action verb (likewise a keyword) is counted exactly when it is on the list and occurs in the lower-cased text; each list entry counts once |
| `Scoring.PresentIsSubsequence` | utils/feedback.py:133 | the words found keep the order of their fixed list |
| `Scoring.MatchTotal` | utils/scoring.py:50-52 | the quantifiable count is at least the number of matches of every single pattern |
| `Scoring.SumMatches` | utils/scoring.py:50-52 | the loop adding `len(re.findall(p, text_lower))` over the patterns computes the total of all matches of all patterns |
| `Scoring.ContentScore` | utils/scoring.py:4-80 | the content score always lies between 20 and 70, so the cap at 100 never applies |
| `Scoring.ContentTotal` | utils/scoring.py:15-80 | each of the four rubrics adds between 5 and its top tier, so the total lies between 20 and 70 |
| `Scoring.ContentRubrics` | utils/scoring.py:15-80 | the four if-ladders add up to the rubric total for the given counts |
| `Scoring.CalculateContentScore` | utils/scoring.py:4-80 | the step-by-step computation equals the content score of the text |
| `Scoring.ContentTotalMonotone` | utils/scoring.py:15-78 | more verbs, quantified achievements or keywords never lower the content score; the word band peaks at 15 exactly for 200–800 words, and it is lower past 1200 or below 100 |
| `Scoring.ImpactScore` | utils/scoring.py:126-193 | the impact score always lies between 15 and 80, so the cap at 100 never applies |
| `Scoring.ImpactTiersMonotone` | utils/scoring.py:144-191 | more results words, metrics or leadership words never lower the impact score |
| `Scoring.CalculateImpactScore` | utils/scoring.py:126-193 | the three if-ladders compute the impact score of the text |
| `Scoring.CountOn` | utils/scoring.py:94 | the number of present sections among the names is at most the number of names |
| `Scoring.CountOnMonotone` | utils/scoring.py:94 | more present sections never give a lower count |
| `Scoring.StructureScore` | utils/scoring.py:82-124 | the structure score lies between 0 and 85, so the cap at 100 never applies |
| `Scoring.CalculateStructureScore` | utils/scoring.py:82-124 | the if-ladders and bonuses compute the structure score |
| `Scoring.StructureScoreNone` | utils/scoring.py:90-124 | with none of the seven sections present the structure score is 0 |
| `Scoring.StructureScoreTop` | utils/scoring.py:96-122 | with all essential sections and at least three valuable ones the score is the maximum 85 |
| `Scoring.StructureScoreMonotone` | utils/scoring.py:90-124 | adding sections never lowers the structure score |
| `Scoring.SectionScoreNone` | utils/scoring.py:214-217 | only present sections that have a weight contribute; with none, the section score is 0 |
| `Scoring.SectionScoreNonNegative` | utils/scoring.py:214-217 | with non-negative weights the section score is non-negative |
| `Scoring.SectionScore` | utils/scoring.py:214-217 | the sum, in map order, of the weights of the present sections, 0 for a present section without a weight; what it promises is stated by `SectionScoreNone` and `SectionScoreNonNegative` |
| `Scoring.SumPresentWeights` | utils/scoring.py:214-217 | the loop over the section map adds the weight of each present section, 0 for one without a weight |
| `Scoring.Capped` | utils/scoring.py:228 | `min(overall, 100)` never exceeds 100 and is the exact overall score when that is at most 100 |
| `Scoring.Reported` | utils/scoring.py:228-231 | the cap yields the int 100; otherwise the float lies within half a tenth of the exact score |
| `Scoring.GetGrade` | utils/scoring.py:243-264 | the grade is always one of the ten grades |
| `Scoring.Passed` | utils/scoring.py:243-264 | the number of grade thresholds reached is at most their number |
| `Scoring.PassedMonotone` | utils/scoring.py:243-264 | a higher score reaches at least as many thresholds |
| `Scoring.GradeIsLadderRung` | utils/scoring.py:243-264 | the grade is the rung of D, C-, …, A+ given by how many of the inclusive bounds 50, 55, …, 90 the score reaches |
| `Scoring.GradeRank` | utils/scoring.py:243-264 | every grade has a position on the ladder |
| `Scoring.GradeMonotone` | utils/scoring.py:243-264 | a higher score never yields a lower grade |
| `Scoring.GradeBeforeRounding` | utils/scoring.py:231-238 | the grade comes from the unrounded score: 89.95 is shown as 90.0 but graded "A" |
| `Scoring.AppendsInOrder` | utils/scoring.py:268-287 | five conditional appends keep the order of their messages |
| `Scoring.AppendsMembers` | utils/scoring.py:268-287 | with distinct messages, each is appended exactly when its condition holds |
| `Scoring.Strengths` | utils/scoring.py:266-287 | each section message is listed exactly when its section is present, and each text message exactly when there is text and its count reaches the threshold; the list keeps the order of the messages |
| `Scoring.IdentifyStrengths` | utils/scoring.py:266-287 | the appends compute the strengths |
| `Scoring.Weaknesses` | utils/scoring.py:289-310 | each "Missing …" message is listed exactly when its section is absent, and each text message exactly when there is text and its count falls short; the list keeps the order of the messages |
| `Scoring.IdentifyWeaknesses` | utils/scoring.py:289-310 | the appends compute the weaknesses |
| `Scoring.Report` | utils/scoring.py:195-241 | the breakdown has the four keys in order: the section score, then structure, content and impact shown as ints, with content and impact 0 without text; the overall score is the rounded capped combination, the grade comes from the unrounded one, and the strengths and weaknesses are those of the sections and the text |
| `Scoring.ScoreResume` | utils/scoring.py:195-241 | the computation with its section loop yields that report |
| `Scoring.EmptyTextReport` | utils/scoring.py:210-211 | without text, content and impact are 0 and no text-based strength or weakness is listed |
| `Scoring.AllOffNone` | utils/scoring.py:216 | a map whose values are all False has no present section |
| `Scoring.NothingScores` | utils/scoring.py:209-225 | with every section False and no text the weighted combination is 0 |
| `Scoring.EmptyResume` | utils/scoring.py:195-241 | with every section False and no text, the overall score is 0.0, the grade is "D" and there is no strength |
| `Scoring.FirstIsMessage` | utils/scoring.py:266-287 | a non-empty strengths list starts with one of the messages |
| `Scoring.OverallInRange` | utils/scoring.py:220-231 | with non-negative weights the displayed overall score lies between 0.0 and 100 |
| `Scoring.WeightsKeepScoreInRange` | utils/scoring.py:313-321 | with `WEIGHTS` the displayed overall score lies between 0.0 and 100 |
| `SkillClassifier.Clip` | utils/skill_classifier.py:102-104 | Python slicing with out-of-range bounds stays within the text, and is the plain slice for in-range bounds |
| `SkillClassifier.ContextWindow` | utils/skill_classifier.py:102-104 | the context window has at most 200 characters, and is a slice of the text around the position when the position lies in the text |
| `SkillClassifier.Raise` | utils/skill_classifier.py:108-116 | raising steps clamp at 1.0, never lower the confidence, and change nothing when no indicator matches |
| `SkillClassifier.Drop` | utils/skill_classifier.py:118-121 | lowering steps clamp at 0.0, never raise the confidence, and change nothing when no indicator matches |
| `SkillClassifier.ContextConfidence` | utils/skill_classifier.py:88-137 | the confidence always lies between 0.0 and 1.0 |
| `SkillClassifier.NoIndicatorBaseline` | utils/skill_classifier.py:106-137 | with no indicator in the window the confidence is exactly 0.5, below the 0.6 of the literal pass |
| `SkillClassifier.ConfidentNeedsIndicator` | utils/skill_classifier.py:106-168 | a confidence of 0.6 or more needs a raising indicator in the window |
| `SkillClassifier.RaiseAll` | utils/skill_classifier.py:109-116 | the indicator loop computes the raising steps |
| `SkillClassifier.DropAll` | utils/skill_classifier.py:119-121 | the low-confidence loop computes the lowering steps |
| `SkillClassifier.AnalyzeSkillContext` | utils/skill_classifier.py:88-137 | the step-by-step confidence equals the fold and lies between 0.0 and 1.0 |
| `SkillClassifier.WordMatchesFrom` | utils/skill_classifier.py:162-163 | every reported start is a whole-word occurrence of the skill, and there is one exactly when an occurrence exists |
| `SkillClassifier.Mentions` | utils/skill_classifier.py:162-165 | the mentions are whole-word occurrences in the lower-cased text, and there is one exactly when the skill occurs as a whole word |
| `SkillClassifier.InitialTables` | utils/skill_classifier.py:155-157 | the category lists have exactly the taxonomy's categories as keys, each list starting empty |
| `SkillClassifier.InitialValid` | utils/skill_classifier.py:155-157 | the initial tables satisfy the matcher invariant |
| `SkillClassifier.RecordValid` | utils/skill_classifier.py:169-172 | recording a new skill with a confidence from 0.5 to 1.0 keeps the invariant: the same categories, no repeated skill, a confidence and a context for exactly the listed skills, and every confidence between 0.5 and 1.0 |
| `SkillClassifier.TakeValid` | utils/skill_classifier.py:168-172 | the guarded append of the literal pass keeps the invariant |
| `SkillClassifier.TakeProjection` | utils/skill_classifier.py:169-170 | the guarded append changes only its category's list, appending the skill unless it is already there |
| `SkillClassifier.LitPassValid` | utils/skill_classifier.py:160-172 | the literal pass keeps the invariant |
| `SkillClassifier.ListMentionsMembers` | utils/skill_classifier.py:165-170 | after the mentions of a skill, the list holds that skill exactly when it held it before or some mention was accepted |
| `SkillClassifier.ListSkillsMembers` | utils/skill_classifier.py:161-170 | after a category's skills, the list holds exactly what it held before and the skills with an accepted mention |
| `SkillClassifier.LitPassProjection` | utils/skill_classifier.py:160-172 | after the first n categories the lists are the lists of accepted skills of those categories, the rest still empty |
| `SkillClassifier.LiteralPassFinds` | utils/skill_classifier.py:160-172 | after the literal pass, a category's list holds a skill exactly when the skill is listed in that category and some whole-word mention reaches confidence 0.6; no list repeats a skill |
| `SkillClassifier.PatternCategoriesAreKeys` | utils/skill_classifier.py:31-68 | the pattern table has the seven categories, in order |
| `SkillClassifier.AdmitValid` | utils/skill_classifier.py:189-192 | admitting a match with confidence from 0.5 to 1.0 keeps the invariant |
| `SkillClassifier.PatStepValid` | utils/skill_classifier.py:179-192 | one pattern match keeps the invariant |
| `SkillClassifier.PatPassValid` | utils/skill_classifier.py:175-192 | the pattern pass keeps the invariant |
| `SkillClassifier.PatPassKeys` | utils/skill_classifier.py:175-192 | when the tables have a list for every category of the pattern table, the pass raises no `KeyError` and adds no category |
| `SkillClassifier.PatStepCases` | utils/skill_classifier.py:185-192 | a match either changes nothing or, stripped and longer than two characters, is admitted with its confidence of at least 0.5 |
| `SkillClassifier.PatPassOutcome` | utils/skill_classifier.py:175-192 | the pattern pass raises `KeyError` only for a category of its table that the tables lack, and otherwise keeps the categories |
| `SkillClassifier.PatPassExtends` | utils/skill_classifier.py:175-192 | the pattern pass only appends to the category lists, and only lower-case texts longer than two characters |
| `SkillClassifier.TakeMentions` | utils/skill_classifier.py:165-172 | the mention loop computes the literal pass for one skill |
| `SkillClassifier.TakeMention` | utils/skill_classifier.py:166-172 | one turn of the mention loop records a confident mention once |
| `SkillClassifier.LiteralPass` | utils/skill_classifier.py:155-172 | the first loop nest computes the literal pass from the initial tables |
| `SkillClassifier.AdmitMatches` | utils/skill_classifier.py:179-192 | the match loop computes the pattern pass for one pattern, stopping at a `KeyError` |
| `SkillClassifier.AdmitPatterns` | utils/skill_classifier.py:176-192 | the pattern loop computes the pattern pass for one category |
| `SkillClassifier.PatternPass` | utils/skill_classifier.py:175-192 | the second loop nest computes the pattern pass |
| `SkillClassifier.CategoriesWithSkills` | utils/skill_classifier.py:208 | no more categories have skills than there are categories |
| `SkillClassifier.BandsPartition` | utils/skill_classifier.py:209-211 | the high, medium and low counts share out the confidence scores |
| `SkillClassifier.ConfidenceSumBounds` | utils/skill_classifier.py:196 | scores between 0.5 and 1.0 sum to between 0.5 and 1.0 times their number |
| `SkillClassifier.AverageConfidence` | utils/skill_classifier.py:196-207 | 0 without scores; otherwise the mean confidence in hundredths, within half a hundredth of the exact mean, half-way cases going up |
| `SkillClassifier.AverageBounds` | utils/skill_classifier.py:196-207 | with scores between 0.5 and 1.0 the rounded average lies between 0.5 and 1.0 |
| `SkillClassifier.ListedSetFacts` | utils/skill_classifier.py:195 | the distinct listed skills are exactly the listed ones, and there are no more of them than the total skill count |
| `SkillClassifier.ScoresAtMostSkills` | utils/skill_classifier.py:195-196 | there are no more confidence scores than listed skills |
| `SkillClassifier.Missing` | utils/skill_classifier.py:229 | the missing skills are at most the skills of the category |
| `SkillClassifier.MissingMembers` | utils/skill_classifier.py:229 | a skill is missing exactly when it is in the category and was not found |
| `SkillClassifier.FirstFive` | utils/skill_classifier.py:232 | `xs[:5]` is a prefix of at most five, all of a shorter list |
| `SkillClassifier.IdentifySkillGaps` | utils/skill_classifier.py:217-234 | the loop over the taxonomy computes the gaps |
| `SkillClassifier.GapEntries` | utils/skill_classifier.py:225-234 | only taxonomy categories have gaps, each listing one to five skills |
| `SkillClassifier.GapOf` | utils/skill_classifier.py:227-232 | a category has a gap exactly when some of its skills were not found, and the gap is the first five of them in taxonomy order |
| `SkillClassifier.SkillGaps` | utils/skill_classifier.py:217-234 | for each taxonomy category with skills that were not found, the first five of them in taxonomy order; stated by `GapEntries` and `GapOf` |
| `SkillClassifier.WeakCategoriesEmpty` | utils/skill_classifier.py:247-253 | there is no weak category exactly when every category has at least three skills |
| `SkillClassifier.ValuableLines` | utils/skill_classifier.py:263-268 | at most one line per high-value category |
| `SkillClassifier.AddValuableLines` | utils/skill_classifier.py:263-268 | the loop over the high-value table appends those lines in table order |
| `SkillClassifier.GenerateSkillRecommendations` | utils/skill_classifier.py:236-270 | the appends compute the recommendations; the gaps argument plays no part |
| `SkillClassifier.RecommendationsBound` | utils/skill_classifier.py:244-270 | there are at most five recommendations |
| `SkillClassifier.ValuableLinesEmpty` | utils/skill_classifier.py:263-268 | there is no high-value line exactly when each high-value category misses none of its skills |
| `SkillClassifier.NoRecommendations` | utils/skill_classifier.py:244-270 | nothing is recommended exactly when every category has at least three skills and every high-value skill is found |
| `SkillClassifier.Recommendations` | utils/skill_classifier.py:236-270 | the weak-category line when some category has fewer than three skills, then one line per high-value category that misses skills; stated by `RecommendationsBound` and `NoRecommendations` |
| `SkillClassifier.FallbackCategories` | utils/skill_classifier.py:20-28 | the fallback taxonomy has exactly the seven pattern categories, with unique keys |
| `SkillClassifier.Passes` | utils/skill_classifier.py:154-192 | the tables after the literal pass on fresh tables and then the pattern pass, or the pattern pass's `KeyError`; stated by `PassesValid`, `PassesErrors` and `PassesFind` |
| `SkillClassifier.Classify` | utils/skill_classifier.py:139-215 | both passes, then the statistics, gaps and recommendations of the skills found, or the `KeyError`; stated by `ClassifyErrors`, `ClassifiedSkills` and `ClassificationStatistics` |
| `SkillClassifier.ClassifySkillsEnhanced` | utils/skill_classifier.py:139-215 | the classifier computes both passes, the statistics, the gaps and the recommendations, or the `KeyError` |
| `SkillClassifier.ClassifySkills` | utils/skill_classifier.py:272-277 | the legacy entry point returns the category lists of the classification, or its `KeyError` |
| `SkillClassifier.PassesValid` | utils/skill_classifier.py:155-192 | after both passes the invariant holds, with the taxonomy's categories |
| `SkillClassifier.PassesErrors` | utils/skill_classifier.py:175-189 | the passes raise `KeyError` only for a pattern category the taxonomy lacks, and never when it has them all |
| `SkillClassifier.ClassifyErrors` | utils/skill_classifier.py:139-215 | the classifier raises `KeyError` only for one of the seven pattern categories that the taxonomy lacks, and never when it has all seven |
| `SkillClassifier.FallbackNeverRaises` | utils/skill_classifier.py:20-28 | with the fallback taxonomy the classifier always succeeds |
| `SkillClassifier.PassesFind` | utils/skill_classifier.py:155-192 | after both passes every confidently mentioned taxonomy skill is listed, anything else listed is a lower-case pattern match longer than two characters, and no list repeats a skill |
| `SkillClassifier.ClassifiedSkills` | utils/skill_classifier.py:139-215 | the same for the classification's skills by category |
| `SkillClassifier.StatsFacts` | utils/skill_classifier.py:195-211 | for valid tables the three bands share out the scores, there are no more scores than skills, the average is between 0.5 and 1.0 (0 without scores), and no more categories have skills than there are categories |
| `SkillClassifier.ClassificationStatistics` | utils/skill_classifier.py:195-211 | the same for the statistics of a successful classification |
| `SkillClassifier.GetSkillSummary` | utils/skill_classifier.py:279-290 | the summary carries the total and the categories with skills, and its coverage lies between 0 and 100 |
| `SkillClassifier.CategoriesWithSkillsAll` | utils/skill_classifier.py:284 | every category has skills exactly when all of them count |
| `SkillClassifier.NoSkillsNoCategories` | utils/skill_classifier.py:283-284 | no skill at all exactly when no category has skills |
| `SkillClassifier.Coverage` | utils/skill_classifier.py:283-289 | coverage is 100 exactly when every category of a non-empty map has a skill, and 0 exactly when no skill was found |
| `Feedback.TipTableShape` | utils/feedback.py:48-105 | every section of the tip table has at least three tips, and its keys are unique |
| `Feedback.Analysis` | utils/feedback.py:107-177 | the action verbs, quantified achievements, leadership and technical words found in the lower-cased text, and the improvement areas of the counts; stated by `AnalysisFacts` |
| `Feedback.FoundAllCount` | utils/feedback.py:144-146 | the matches collected by `extend` are as many as the scorer counts |
| `Feedback.ImprovementAreasExact` | utils/feedback.py:168-175 | each improvement area is listed exactly when its count is short, in order; none exactly when all counts suffice |
| `Feedback.ExtendMatches` | utils/feedback.py:144-146 | the `extend` loop appends all matches of all patterns |
| `Feedback.AnalyzeContentQuality` | utils/feedback.py:107-177 | the step-by-step analysis equals the analysis of the text |
| `Feedback.CollectAreas` | utils/feedback.py:168-175 | the three conditional appends compute the improvement areas |
| `Feedback.AnalysisFacts` | utils/feedback.py:123-175 | the found lists are order-preserving sublists of their fixed lists, holding exactly the entries in the lower-cased text; the achievements are all matches; each area is listed exactly when its count is short |
| `Feedback.Level` | utils/feedback.py:200-224 | a band index is at most the number of thresholds |
| `Feedback.LevelMonotone` | utils/feedback.py:200-224 | a higher score never reaches a lower band |
| `Feedback.AssessmentByLevel` | utils/feedback.py:200-209 | the verdict is the rung for the bands 85/75/65/55, so a higher score never gets a lower verdict |
| `Feedback.BreakdownRating` | utils/feedback.py:216-224 | a breakdown line carries the mark and label of its score's band: Excellent from 80, Good from 65, Needs Improvement from 50, Poor below |
| `Feedback.BreakdownLines` | utils/feedback.py:215-224 | exactly one line per breakdown entry, in map order |
| `Feedback.AppendBreakdown` | utils/feedback.py:215-224 | the breakdown loop appends those lines |
| `Feedback.Bullets` | utils/feedback.py:232-233 | one bullet per item |
| `Feedback.BulletsAt` | utils/feedback.py:232-238 | bullet i is the prefix followed by item i |
| `Feedback.AppendBullets` | utils/feedback.py:232-238 | the item loop appends the bullets |
| `Feedback.FirstThree` | utils/feedback.py:247 | `tips[:3]` is a prefix of three, or all of a shorter list |
| `Feedback.AppendSection` | utils/feedback.py:244-253 | one section's lines are appended |
| `Feedback.AppendSections` | utils/feedback.py:243-253 | the loop over the section map appends every section's lines, in map order |
| `Feedback.SectionShape` | utils/feedback.py:243-253 | a present section with tips gets its header and exactly its first three tips; a missing section with a message gets its header and exactly that message; otherwise the header alone |
| `Feedback.AppendAnalysis` | utils/feedback.py:258-281 | the content-analysis lines are appended |
| `Feedback.AppendOpening` | utils/feedback.py:198-224 | the opening lines are built |
| `Feedback.AppendListBlock` | utils/feedback.py:230-238 | a bulleted block is appended |
| `Feedback.AppendContent` | utils/feedback.py:256-281 | the content block is appended for a non-empty text only |
| `Feedback.AppendClosing` | utils/feedback.py:284-300 | the best practices and the action plan are appended |
| `Feedback.AppendFeedback` | utils/feedback.py:179-302 | with any message tables, the line-by-line appends compute the feedback list |
| `Feedback.Lines` | utils/feedback.py:179-302 | the feedback list: the opening, the strengths block, the improvement block, the section analysis, the content block, the best practices and the action plan, in that order; stated by `BlockPresence`, `OpeningLayout` and `LinesFrame` |
| `Feedback.GenerateEnhancedFeedback` | utils/feedback.py:179-302 | the feedback list built with the module's tip and message tables |
| `Feedback.SectionsSigns` | utils/feedback.py:243-253 | the section analysis shows a present-section header exactly when some section is present, and a missing-section header exactly when some section is missing |
| `Feedback.ListBlockSigns` | utils/feedback.py:230-238 | a bulleted block shows its header's symbol exactly when it has items |
| `Feedback.ExpectedSignsExact` | utils/feedback.py:198-300 | each optional block's symbol is expected exactly when the block is there, and the fixed blocks' symbols always |
| `Feedback.BlockPresence` | utils/feedback.py:179-302 | the feedback holds the strengths block exactly for strengths, the improvement block exactly for weaknesses, the content analysis exactly for a non-empty text with its priorities exactly when something is short, and the breakdown, section analysis, best practices and action plan always |
| `Feedback.OverallLineShows` | utils/feedback.py:198 | the overall line names the grade and the score |
| `Feedback.OpeningLayout` | utils/feedback.py:198-224 | the list opens with the overall line, the band's verdict, the breakdown header and one rated line per breakdown entry in order |
| `Feedback.LinesFrame` | utils/feedback.py:179-302 | the list starts with the opening and ends with the best practices and the action plan |
| `Feedback.ClosingLength` | utils/feedback.py:284-300 | the closing blocks are ten lines: a header and five practices, a header and three steps |
| `Feedback.ActionPlanChoice` | utils/feedback.py:292-300 | the plan is the urgent one exactly below 70, the fine-tuning one otherwise |
| `Feedback.ListBlockShape` | utils/feedback.py:230-238 | a bulleted block is empty exactly for no items, otherwise its header and one bullet per item in order |
| `Feedback.ContentBlockShape` | utils/feedback.py:256-281 | the content block is there exactly for a non-empty text: its header, three count lines, the technical line when there are keywords, and the priorities block last |
| `Feedback.LegacyGradeByLevel` | utils/feedback.py:311 | the legacy grade is A from 90, B from 80, C from 70, D below, and never lower for a higher score |
| `Feedback.LegacyGrade` | utils/feedback.py:311 | A from 90, B from 80, C from 70, D below; stated by `LegacyGradeByLevel` |
| `Feedback.LegacyReport` | utils/feedback.py:309-315 | the report of the legacy entry point: the score, one `section_score` breakdown entry holding the score, the legacy grade, and no strengths or weaknesses |
| `Feedback.LegacyOpening` | utils/feedback.py:309-315 | the legacy report's breakdown has one line, for `section_score` |
| `Feedback.LegacyLines` | utils/feedback.py:309-318 | with the legacy report and no text there is no strengths, improvement or content block |
| `Feedback.GenerateFeedback` | utils/feedback.py:304-318 | the legacy entry point yields the opening, the section analysis and the closing blocks alone |
| `SectionExtractor.SectionNamesAreTableKeys` | utils/section_extractor.py:5-11 | the table's keys are summary, experience, education, projects and certifications, in order |
| `SectionExtractor.DetectHeaders` | utils/section_extractor.py:23-29 | for any table, the flag of each entry is set exactly when its header occurs, in table order |
| `SectionExtractor.AllAbsent` | utils/section_extractor.py:23 | every section starts out absent |
| `SectionExtractor.SectionPresent` | utils/section_extractor.py:26 | a section is present when some line, lower-cased, starts after optional whitespace with one of its header phrasings at a word boundary; an unknown section never is |
| `SectionExtractor.SwitchOn` | utils/section_extractor.py:25-27 | the second loop switches on exactly the sections whose header occurs |
| `SectionExtractor.ExtractSections` | utils/section_extractor.py:13-29 | the result has exactly the five keys in order, each True exactly when some line starts, after whitespace, with one of its header phrasings followed by a word boundary, ignoring case |
| `SectionExtractor.PhrasesStartWithWords` | utils/section_extractor.py:6-10 | every phrasing starts with a non-empty word |
| `SectionExtractor.EmptyTextHasNoSections` | utils/section_extractor.py:23-29 | an empty text has no section |
| `SectionExtractor.CaseInsensitive` | utils/section_extractor.py:26 | texts equal up to letter case have the same sections |
| `SectionExtractor.LowerCaseInvariant` | utils/section_extractor.py:26 | lower-casing the text never changes a section |
| `SectionExtractor.AppendKeepsSections` | utils/section_extractor.py:25-27 | appending further lines never makes a detected section disappear |
| `ResumeParser.Indicators` | parser/resume_parser.py:284-291 | a line matches at most three degree patterns |
| `ResumeParser.Scan` | parser/resume_parser.py:271-293 | the scanner over the remaining lines: blank lines skipped, a keyword line switching into the section and dropped, and inside the section a line with two indicators kept, stripped; stated by `ScanInSection` and `ScanFromStart` |
| `ResumeParser.EducationLines` | parser/resume_parser.py:258-295 | the scanner over the lines of the text, starting outside the section |
| `ResumeParser.ScanLine` | parser/resume_parser.py:271-293 | one turn of the line loop keeps the result plus the rest of the scan fixed |
| `ResumeParser.ExtractEducationInfo` | parser/resume_parser.py:258-295 | the line loop with the in-section flag computes the scanner's result |
| `ResumeParser.Entries` | parser/resume_parser.py:282-293 | every line kept inside the section is non-blank, names no keyword and matches two degree patterns |
| `ResumeParser.ScanInSection` | parser/resume_parser.py:277-293 | once inside the section the flag never resets: the scanner keeps exactly the stripped entries in order |
| `ResumeParser.ScanFromStart` | parser/resume_parser.py:269-293 | the scanner keeps exactly the entries after the first keyword line, and nothing without a keyword line |
| `ResumeParser.NoKeywordInBlank` | parser/resume_parser.py:273-277 | a blank line is never a keyword line |
| `ResumeParser.InstitutionIsKeyword` | parser/resume_parser.py:263-286 | a line matching the institution pattern names an education keyword |
| `ResumeParser.DegreeIsKeyword` | parser/resume_parser.py:263-285 | a line matching the degree pattern with any degree word but "Associate" names an education keyword |
| `ResumeParser.EducationEntryShape` | parser/resume_parser.py:277-293 | a returned line never matches the institution pattern, matches the degree pattern only through "Associate", and shows a year |
| `ResumeParser.IntendedFromStart` | parser/resume_parser.py:269-293 | the corrected scanner keeps every line with two degree patterns after the first keyword line |
| `ResumeParser.InstitutionAndYear` | parser/resume_parser.py:277-291 | a line naming an institution and a year is a keyword line with two indicators |
| `ResumeParser.EducationFinding` | parser/resume_parser.py:271-293 | under a header line, a line naming an institution and a year is dropped as written and kept by the corrected scanner |
| `ResumeParser.KeywordLineUnderHeader` | parser/resume_parser.py:271-293 | under a header line, any keyword line with two degree patterns is dropped as written and kept by the corrected scanner |
| `ResumeParser.YaleInstance` | parser/resume_parser.py:271-293 | "Education\nYale University 2018" yields no line as written and the Yale line as intended |
| `ResumeParser.SentencePieces` | parser/resume_parser.py:304 | the split has at least one piece and no piece holds a terminator |
| `ResumeParser.PiecesConcat` | parser/resume_parser.py:304 | the pieces put back together are the text without its terminators |
| `ResumeParser.NonBlankCount` | parser/resume_parser.py:308 | the non-blank count is at most the number of pieces, and 0 exactly when all pieces are blank |
| `ResumeParser.BlankPieces` | parser/resume_parser.py:304-308 | all pieces are blank exactly when the text holds only whitespace and terminators |
| `ResumeParser.NoSentenceExactly` | parser/resume_parser.py:304-308 | the sentence count is 0 exactly when the text holds only whitespace and terminators |
| `ResumeParser.StatisticsOutcomes` | parser/resume_parser.py:298-314 | the statistics are empty exactly for an empty text, and divide by zero exactly for a non-empty text of whitespace and terminators |
| `ResumeParser.StatisticsFields` | parser/resume_parser.py:303-314 | otherwise the word count is the whitespace token count, the character count the length, and the average the word count over the positive sentence count |
| `ResumeParser.IntendedStatisticsAgree` | parser/resume_parser.py:310 | the corrected statistics never divide by zero and agree with the statistics as written wherever those do not raise |
| `ResumeParser.EllipsisDividesByZero` | parser/resume_parser.py:310 | "..." makes the statistics divide by zero |
| `ResumeParser.GetTextStatistics` | parser/resume_parser.py:298-314 | nothing for an empty text, a division by zero when no piece is non-blank, and otherwise the word, sentence and character counts, the average and the three contact flags; stated by `StatisticsOutcomes` and `StatisticsFields` |
| `ResumeParser.TwoWordIsFullName` | parser/resume_parser.py:184-186 | every line the third name pattern matches, the first already matches |
| `ResumeParser.CapitalisedCount` | parser/resume_parser.py:221 | the count of capitalised words is at most the word count, and equal exactly when every word starts with a capital |
| `ResumeParser.EightyPercentIsAll` | parser/resume_parser.py:219-222 | with two to four words, 80 per cent capitalised means all of them |
| `ResumeParser.Take` | parser/resume_parser.py:190 | `lines[:n]` is a prefix of at most n lines, exactly n when there are enough |
| `ResumeParser.PatternCandidate` | parser/resume_parser.py:190-205 | a stripped line of at least three characters, without a skip word, matching one of the three name patterns, with at least two words and fewer than 50 characters |
| `ResumeParser.CapitalsCandidate` | parser/resume_parser.py:208-222 | a stripped line of at least three characters, without a skip word, of two to four words, at least 80 per cent of them capitalised |
| `ResumeParser.Strategy` | parser/resume_parser.py:190-223 | the first of the first `limit` lines that, stripped, passes the strategy's test; stated by `StrategyFinds` |
| `ResumeParser.NameAdvanced` | parser/resume_parser.py:165-225 | the second strategy on the first 10 lines, or else the third on the first 15; stated by `NameShape` |
| `ResumeParser.FirstCandidate` | parser/resume_parser.py:190-225 | the strategy loop returns the first stripped line that passes, or nothing |
| `ResumeParser.ExtractNameAdvanced` | parser/resume_parser.py:165-225 | the second strategy on the first 10 lines, then the third on the first 15 |
| `ResumeParser.StrategyFinds` | parser/resume_parser.py:190-225 | a strategy returns the stripped form of the first passing line among its first lines, and nothing exactly when none passes |
| `ResumeParser.StrategyIndex` | parser/resume_parser.py:190-223 | a strategy stops at a line before which every line fails; it returns that line, stripped, when the line passes, and nothing exactly when it reaches the end of its first `limit` lines |
| `ResumeParser.NameShape` | parser/resume_parser.py:182-225 | a name found is a line of at least three characters with two to four words, no skip word and every word capitalised |
| `ResumeParser.PatternNameShape` | parser/resume_parser.py:190-205 | a line accepted by the second strategy has that shape |
| `ResumeParser.CapitalsNameShape` | parser/resume_parser.py:208-223 | a line accepted by the third strategy has that shape |
| `ResumeParser.FirstPhone` | parser/resume_parser.py:143-153 | the phone is the first match of the first pattern that matches, and there is none exactly when no pattern matches |
| `ResumeParser.FindPhone` | parser/resume_parser.py:149-153 | the phone loop stops at the first pattern that matches |
| `ResumeParser.OrNotFound` | parser/resume_parser.py:159-161 | an empty or missing field is reported as "Not Found", anything else as found |
| `ResumeParser.BasicInfoOf` | parser/resume_parser.py:127-162 | no field for an empty text; otherwise the stripped name or "Not Found", the first e-mail match and the phone of the first matching pattern, each "Not Found" when missing; stated by `BasicInfoFields` |
| `ResumeParser.ExtractBasicInfo` | parser/resume_parser.py:127-162 | the e-mail match, the phone loop and the name strategies give the basic information |
| `ResumeParser.BasicInfoFields` | parser/resume_parser.py:129-162 | an empty text gives no field at all; any other text gives all three, each the value found or "Not Found" |
| `Report.GetFeedbackType` | utils/report_generator.py:50-57 | Strength exactly when a strength keyword occurs; Critical exactly when no strength keyword but a critical one does; Suggestion and Info likewise |
| `Report.StrengthFirst` | utils/report_generator.py:51-54 | a line with both "Good" and "Missing" is a strength |
| `Report.CaseSensitive` | utils/report_generator.py:51-57 | matching is case-sensitive: "good" is informational |
| `Report.SanitizeText` | utils/report_generator.py:4-6 | sanitising keeps the length, yields latin-1 text, and replaces each non-latin-1 character by one '?' |
| `Report.SanitizeFixedPoints` | utils/report_generator.py:4-6 | a latin-1 text is unchanged, and sanitising is idempotent |
| `Report.SanitizeAppend` | utils/report_generator.py:4-6 | sanitising distributes over concatenation |
| `Report.RemovalLeavesNoDoubleStar` | utils/report_generator.py:46 | removing "**" from left to right leaves no "**" behind |
| `Report.FeedbackItemText` | utils/report_generator.py:46 | the printed item starts with "- ", holds no "**" after it, and is latin-1 |
| `Upload.LastIndexOf` | app.py:47 | the last occurrence of a character, or none exactly when it does not occur |
| `Upload.Extension` | app.py:47 | the extension is the dot-free text after the last dot |
| `Upload.AllowedFile` | app.py:44-47 | the name has a dot and its lower-cased last extension is "pdf" or "docx"; stated by `AcceptedExtensions` and `LastExtensionDecides` |
| `Upload.LastExtensionDecides` | app.py:44-47 | only the text after the last dot counts, compared in lower case |
| `Upload.NoDotRejected` | app.py:46 | a name without a dot is rejected |
| `Upload.AcceptedExtensions` | app.py:37-47 | exactly "pdf" and "docx" are accepted, in any letter case; an empty extension is not |
| `Upload.UpperCaseLastExtensionAccepted` | app.py:44-47 | "cv.tar.PDF" is accepted |
| `Upload.InnerExtensionIgnored` | app.py:44-47 | "cv.pdf.exe" is rejected |
| `Upload.EmptyAndDocRejected` | app.py:37-47 | a trailing dot and ".doc" are rejected |
| `Upload.ExtractorFor` | app.py:162-169 | dispatch on the lower-cased last extension: "pdf" to the PDF reader, "docx" or "doc" to the Word reader, anything else to none |
| `Upload.AcceptedNamesReachAnExtractor` | app.py:162-169 | a name `allowed_file` accepts, dispatched on its own extension, reaches an extractor, never through the "doc" alternative, which is dead |
| `Upload.AsciiOnly` | app.py:152 | dropping non-ASCII characters leaves only ASCII characters and never lengthens the name |
| `Upload.SlashToSpace` | app.py:152 | replacing the path separator keeps the length and every other character, and leaves no '/' |
| `Upload.KeepSafe` | app.py:152 | removing unsafe characters leaves only characters of `[A-Za-z0-9_.-]` |
| `Upload.LStripDots` | app.py:152 | `lstrip("._")` leaves a suffix that starts with neither a dot nor an underscore |
| `Upload.RStripDots` | app.py:152 | `rstrip("._")` leaves a prefix that ends with neither a dot nor an underscore |
| `Upload.SecureFilename` | app.py:152 | the secured name holds only characters of `[A-Za-z0-9_.-]` and neither starts nor ends with a dot or an underscore |
| `Upload.SecuredExtension` | app.py:152 | securing a name that ends in an accepted extension gives a name ending in that extension behind a dot, or the bare extension |
| `Upload.SecuredKeepsExtension` | app.py:152-162 | when a dot survives securing, the secured name's extension is the one `allowed_file` accepted |
| `Upload.Route` | app.py:145-169 | an empty or rejected name gets a 400; an accepted name fails with a 500 exactly when no dot is left after securing, and is dispatched otherwise |
| `Upload.IntendedRoute` | app.py:145-169 | never a 500: an accepted name is always dispatched to an extractor |
| `Upload.RouteAgrees` | app.py:145-169 | the handler as written and as intended agree on every name the written one does not turn into a 500 |
| `Upload.VanishingStemCrashes` | app.py:152-162 | when only dots, underscores and non-ASCII characters without an ASCII compatibility decomposition (Cyrillic, CJK and the like) precede an accepted extension, the name is accepted, securing leaves the bare extension, and the handler as written fails with a 500 where the intended one dispatches |
| `Upload.NonAsciiStemExample` | app.py:152-162 | "резюме.pdf" gets a 500 as written and the PDF reader as intended |
| `Upload.DotStemExample` | app.py:152-162 | ".pdf" gets a 500 as written and the PDF reader as intended |
| `Upload.UnderscoreStemExample` | app.py:152-162 | "_.pdf" gets a 500 as written and the PDF reader as intended |

## Left out

- Text extraction from PDF and DOCX files and the language-model strategy of name extraction
  rely on foreign libraries. Name extraction is modelled for a model that finds no person.
- `extract_contact_info` is not part of this model.
- Loading the skills file at import time is I/O. The taxonomy is a parameter, and the fallback
  dictionary is the constant `SkillClassifier.FallbackSkills`.
- The Flask routes are left out except the file-name checks and the extractor dispatch of the
  analysis route. The request checks before the file name, the saving of the upload, the time
  stamp and the clean-up are left out.
- `Upload.SecureFilename` models werkzeug's `secure_filename` on a POSIX system. It leaves out
  the Unicode NFKD normalisation: a non-ASCII character is dropped whole, whereas werkzeug keeps
  the ASCII base letter of a decomposable character such as "é". The Windows device-name prefix
  is also left out. As a result `Upload.Route` answers a stem such as "é" with a 500, where
  the program secures "é.pdf" to "e.pdf" and dispatches it.
- `Upload.VanishingStemCrashes` holds for the program only when the non-ASCII characters of the
  stem have no ASCII compatibility decomposition, such as Cyrillic or CJK letters.
- The PDF layout and rendering of the report are left out. The colour a feedback type selects
  is not modelled.
- `INDUSTRY_TIPS` in `utils/feedback.py` is never used, so it is not modelled.
- The command-line front end, the deployment script and the server configuration are left out.
- The regular-expression engine is a parameter: patterns with classes or repetitions are not
  interpreted. The properties that depend on them hold for any engine, or for any engine whose
  matches are substrings of the subject (`Regex.Faithful`).
- The tuple branch of the pattern pass is dead code, because `match.group()` is a string, so it
  is left out.
- Letter case and whitespace are ASCII only. Unicode case mappings that change the length of a
  text are not modelled.
- The regular-expression classes `\w`, `\b` and `\d` have their ASCII meaning. Python 3's
  patterns on `str` treat every Unicode letter and digit as a word character or a digit. So in
  "pythonä" Python's `\bpython\b` finds nothing, whereas `SkillClassifier.WordMatchesFrom`
  reports a match. The same holds for the header boundary of `SectionExtractor.SectionPresent`
  and the year digits of the education scanner.
- Floating point is not modelled. Scores are exact hundredths or tenths, and confidences are
  exact tenths, so artefacts such as `0.7 - 0.2` falling just below `0.5` are not captured.
- `Scoring.Reported`: `round(x, 1)` is modelled as rounding half-way cases upwards. Python
  rounds the binary double to nearest-even, so ties are not faithful.
- `SkillClassifier.AverageConfidence`: `round(avg, 2)` is modelled with half-way cases rounded
  upwards, for the same reason.
- `SkillClassifier.PassesFind`: of the pattern-pass additions it states only that they are
  lower-case and longer than two characters. Which matches are added depends on the abstract
  engine.
- `SkillClassifier.ClassifiedSkills`: as for `PassesFind`.
- The second name strategy's loop over its three patterns is folded into one test
  (`ResumeParser.PatternCandidate`). The patterns match the whole stripped line, so the loop
  returns the line whichever pattern matches first.

## Findings

| source | as written | input that shows it | evidently intended | confidence | as-written member | corrected member |
|---|---|---|---|---|---|---|
| parser/resume_parser.py:277-293 | the keyword test runs before the in-section test, and a keyword line is skipped with `continue` even inside the section; a degree line almost always names a keyword ("University", "Bachelor"), so it is never returned | "Education\nYale University 2018" returns [] | inside the section, keep every line with two degree indicators, keyword or not | not executed | `ResumeParser.EducationFinding` | `ResumeParser.IntendedFromStart` |
| parser/resume_parser.py:310 | the guard `if sentences` tests the unfiltered split, which is never empty, so the average divides by the count of non-blank pieces even when that count is 0 | "..." raises ZeroDivisionError | an average of 0 when no non-blank sentence remains | not executed | `ResumeParser.EllipsisDividesByZero` | `ResumeParser.IntendedStatisticsAgree` |
| app.py:152-162 | `allowed_file` checks the name as uploaded, but the extension is read from the output of `secure_filename`; when only dots, underscores or non-ASCII characters without an ASCII compatibility decomposition (Cyrillic, CJK and the like) precede the extension, securing removes the dot, and `rsplit('.', 1)[1]` raises `IndexError`, which the handler reports as a 500 | ".pdf", "_.pdf" and "резюме.pdf" are accepted and answered with a 500 | dispatch on the extension that `allowed_file` accepted | not executed | `Upload.VanishingStemCrashes` | `Upload.IntendedRoute` |
