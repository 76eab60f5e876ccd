/** The feedback generator: the ordered list of feedback lines built from the section map, the
    score report and the résumé text, the content-quality analysis it draws on, and the legacy
    entry point that builds a minimal report from a bare score.

    The message tables are parameters of the specification functions (`Lines` and its blocks)
    and module constants for the methods, which use them as the generator does. */
module Feedback {
  import opened Text
  import opened PyValues
  import opened Regex
  import opened Scoring

  // ----- the symbols that open the lines -----

  const TargetSign: char := '\U{1F3AF}'
  const TrophySign: char := '\U{1F3C6}'
  const RocketSign: char := '\U{1F680}'
  const ThumbsUpSign: char := '\U{1F44D}'
  const SirenSign: char := '\U{1F6A8}'
  const ChartSign: char := '\U{1F4CA}'
  const CheckSign: char := '\U{2705}'
  const CrossSign: char := '\U{274C}'
  const MuscleSign: char := '\U{1F4AA}'
  const BulletSign: char := '\U{2022}'
  const WrenchSign: char := '\U{1F527}'
  const ClipboardSign: char := '\U{1F4CB}'
  const BulbSign: char := '\U{1F4A1}'
  const MemoSign: char := '\U{1F4DD}'
  const FactorySign: char := '\U{1F3ED}'
  const TrendSign: char := '\U{1F4C8}'

  /** The warning sign is written with a variation selector: two characters. */
  const WarningSign: string := "\U{26A0}\U{FE0F}"

  // ----- message tables -----

  /** `SECTION_FEEDBACK_MESSAGES`: what to say about a missing section. */
  const SectionFeedbackMessages: Dict<string> := [
    ("experience", "Experience: This is the most critical section. Detail your work history with quantifiable achievements and impact metrics."),
    ("projects", "Projects: A projects section is crucial for demonstrating practical skills. Include GitHub links, technologies used, and outcomes."),
    ("education", "Education: Clearly list your academic background with relevant coursework and achievements."),
    ("summary", "Summary: A professional summary helps recruiters understand your profile quickly. Keep it concise and impactful."),
    ("certifications", "Certifications: Mention any certifications to highlight specialized knowledge and continuous learning."),
    ("skills", "Skills: Organize skills by category and include proficiency levels where appropriate."),
    ("achievements", "Achievements: Highlight awards, recognitions, and notable accomplishments.")
  ]

  /** `ENHANCED_IMPROVEMENT_TIPS`: six tips per section, the first three of which are shown. */
  const EnhancedImprovementTips: Dict<seq<string>> := [
    ("experience", [
      "Use action verbs to start each bullet point (e.g., 'Developed', 'Implemented', 'Led')",
      "Include quantifiable achievements (e.g., 'Increased sales by 25%', 'Reduced costs by $50K')",
      "Focus on impact and results, not just responsibilities",
      "Use industry-specific keywords and terminology",
      "Include team size and project scope where relevant",
      "Mention technologies, tools, and methodologies used"
    ]),
    ("projects", [
      "Include live links to deployed projects and GitHub repositories",
      "Mention the complete tech stack and architecture",
      "Describe the problem solved and your unique approach",
      "Highlight any awards, recognition, or user adoption metrics",
      "Include collaboration details and team roles",
      "Mention scalability and performance optimizations"
    ]),
    ("education", [
      "Include relevant coursework if you're a recent graduate",
      "Mention GPA if it's above 3.5/4.0 or equivalent",
      "List academic achievements, honors, and scholarships",
      "Include relevant certifications and training programs",
      "Mention thesis topics or research projects",
      "Include study abroad or exchange programs if relevant"
    ]),
    ("summary", [
      "Keep it to 2-3 sentences maximum (30-50 words)",
      "Mention years of experience and key skills upfront",
      "Tailor it to the specific job you're applying for",
      "Avoid generic statements and buzzwords",
      "Include your career objective or target role",
      "Mention unique value proposition or specialization"
    ]),
    ("certifications", [
      "Include certification dates and expiry if applicable",
      "Mention the issuing organization and credential ID",
      "Focus on industry-recognized certifications",
      "Keep them relevant to your target role",
      "Include ongoing certifications or courses",
      "Mention certification levels or specializations"
    ]),
    ("skills", [
      "Organize skills by category (Technical, Soft Skills, Tools)",
      "Include proficiency levels (Beginner, Intermediate, Advanced)",
      "Mention years of experience with each skill",
      "Include emerging technologies and trends",
      "Add relevant industry-specific skills",
      "Keep skills current and remove outdated ones"
    ]),
    ("achievements", [
      "Include specific awards and recognition dates",
      "Mention the awarding organization and criteria",
      "Quantify the impact or significance of achievements",
      "Include industry-specific accolades",
      "Mention leadership awards and team achievements",
      "Include patents, publications, or speaking engagements"
    ])
  ]

  /** Every section of the tip table has at least three tips, and its keys are unique. */
  lemma TipTableShape()
    ensures UniqueKeys(EnhancedImprovementTips)
    ensures forall i :: 0 <= i < |EnhancedImprovementTips| ==> |EnhancedImprovementTips[i].1| >= 3
  {
  }

  // ----- content quality -----

  /** Technical keywords looked for in the content analysis. */
  const TechnicalKeywords: seq<string> := [
    "python", "java", "javascript", "react", "node.js", "aws", "docker",
    "kubernetes", "sql", "mongodb", "machine learning", "ai", "data science",
    "agile", "scrum", "git", "ci/cd", "microservices", "api"
  ]

  const FewVerbsArea := "Add more action verbs to make your experience more impactful"
  const FewNumbersArea := "Include more quantifiable achievements with specific numbers"
  const FewLeadersArea := "Highlight more leadership and management experience"

  /** The dictionary `analyze_content_quality` returns. */
  datatype ContentAnalysis = ContentAnalysis(actionVerbs: seq<string>, quantifiableAchievements: seq<string>,
    leadershipIndicators: seq<string>, technicalKeywords: seq<string>, improvementAreas: seq<string>)

  /** The `findall` results of each pattern, one list after the other. */
  function FoundAll(rx: Engine, patterns: seq<string>, s: string): seq<string>
    decreases |patterns|
  {
    if patterns == [] then []
    else
      var init := patterns[..|patterns| - 1];
      FoundAll(rx, init, s) + FindAll(rx, patterns[|patterns| - 1], s)
  }

  /** The matches collected are the matches the scorer counts. */
  lemma {:induction false} FoundAllCount(rx: Engine, patterns: seq<string>, s: string)
    ensures |FoundAll(rx, patterns, s)| == MatchTotal(rx, patterns, s)
    decreases |patterns|
  {
    if patterns != [] {
      FoundAllCount(rx, patterns[..|patterns| - 1], s);
    }
  }

  /** The improvement areas for the three counts, each message after the one before. */
  function ImprovementAreas(verbs: nat, numbers: nat, leaders: nat): seq<string> {
    Opt(verbs < 5, FewVerbsArea) + Opt(numbers < 3, FewNumbersArea) + Opt(leaders < 2, FewLeadersArea)
  }

  lemma AreasDistinct()
    ensures FewVerbsArea != FewNumbersArea && FewNumbersArea != FewLeadersArea && FewVerbsArea != FewLeadersArea
  {
  }

  /** For any three distinct messages: each is listed exactly when its flag is set, and none is
      listed when no flag is set. */
  lemma OptionalMembers(f0: bool, m0: string, f1: bool, m1: string, f2: bool, m2: string)
    requires m0 != m1 && m1 != m2 && m0 != m2
    ensures var a := Opt(f0, m0) + Opt(f1, m1) + Opt(f2, m2);
      (m0 in a <==> f0) && (m1 in a <==> f1) && (m2 in a <==> f2) && (a == [] <==> !f0 && !f1 && !f2)
  {
    var o0, o1, o2 := Opt(f0, m0), Opt(f1, m1), Opt(f2, m2);
    assert forall m :: m in o0 + o1 + o2 <==> m in o0 || m in o1 || m in o2;
    assert m0 in o0 <==> f0;
    assert m1 in o1 <==> f1;
    assert m2 in o2 <==> f2;
  }

  /** Three conditional messages keep their order. */
  lemma OptionalOrder(f0: bool, m0: string, f1: bool, m1: string, f2: bool, m2: string)
    ensures IsSubsequence(Opt(f0, m0) + Opt(f1, m1) + Opt(f2, m2), [m0, m1, m2])
  {
    OptIsSubsequence(f0, m0);
    OptIsSubsequence(f1, m1);
    OptIsSubsequence(f2, m2);
    SubsequenceConcat(Opt(f0, m0), [m0], Opt(f1, m1), [m1]);
    assert [m0, m1] == [m0] + [m1];
    SubsequenceConcat(Opt(f0, m0) + Opt(f1, m1), [m0, m1], Opt(f2, m2), [m2]);
    assert [m0, m1, m2] == [m0, m1] + [m2];
  }

  /** Each message is listed exactly when its count is short, and they keep their order. */
  lemma ImprovementAreasExact(verbs: nat, numbers: nat, leaders: nat)
    ensures var a := ImprovementAreas(verbs, numbers, leaders);
      (FewVerbsArea in a <==> verbs < 5) && (FewNumbersArea in a <==> numbers < 3) &&
      (FewLeadersArea in a <==> leaders < 2) &&
      IsSubsequence(a, [FewVerbsArea, FewNumbersArea, FewLeadersArea]) &&
      (a == [] <==> verbs >= 5 && numbers >= 3 && leaders >= 2)
  {
    AreasDistinct();
    OptionalMembers(verbs < 5, FewVerbsArea, numbers < 3, FewNumbersArea, leaders < 2, FewLeadersArea);
    OptionalOrder(verbs < 5, FewVerbsArea, numbers < 3, FewNumbersArea, leaders < 2, FewLeadersArea);
  }

  /** The analysis of a text, compared in lower case. */
  function Analysis(rx: Engine, text: string): ContentAnalysis {
    var lower := Lower(text);
    var verbs := Present(ActionVerbs, lower);
    var numbers := FoundAll(rx, QuantifiablePatterns, lower);
    var leaders := Present(LeadershipKeywords, lower);
    ContentAnalysis(verbs, numbers, leaders, Present(TechnicalKeywords, lower),
      ImprovementAreas(|verbs|, |numbers|, |leaders|))
  }

  /** The `extend` loop over the quantifiable patterns. */
  method ExtendMatches(rx: Engine, patterns: seq<string>, s: string, found0: seq<string>) returns (found: seq<string>)
    ensures found == found0 + FoundAll(rx, patterns, s)
  {
    found := found0;
    for i := 0 to |patterns|
      invariant found == found0 + FoundAll(rx, patterns[..i], s)
    {
      assert patterns[..i + 1][..i] == patterns[..i];
      found := found + FindAll(rx, patterns[i], s);
    }
    assert patterns[..|patterns|] == patterns;
  }

  /** `analyze_content_quality`. */
  method AnalyzeContentQuality(rx: Engine, text: string) returns (a: ContentAnalysis)
    ensures a == Analysis(rx, text)
  {
    var lower := Lower(text);
    var verbs := Present(ActionVerbs, lower);
    var numbers := ExtendMatches(rx, QuantifiablePatterns, lower, []);
    var leaders := Present(LeadershipKeywords, lower);
    var technical := Present(TechnicalKeywords, lower);
    var areas := CollectAreas(|verbs|, |numbers|, |leaders|);
    a := ContentAnalysis(verbs, numbers, leaders, technical, areas);
  }

  /** The three conditional `append`s of the improvement areas. */
  method CollectAreas(verbs: nat, numbers: nat, leaders: nat) returns (areas: seq<string>)
    ensures areas == ImprovementAreas(verbs, numbers, leaders)
  {
    areas := [];
    if verbs < 5 {
      areas := areas + [FewVerbsArea];
    }
    if numbers < 3 {
      areas := areas + [FewNumbersArea];
    }
    if leaders < 2 {
      areas := areas + [FewLeadersArea];
    }
  }

  /** The word lists of the analysis keep the order of their fixed lists and hold exactly the
      entries that occur in the lower-cased text; the quantified achievements are all matches of
      all patterns; and each improvement area is listed exactly when its count is short. */
  lemma AnalysisFacts(rx: Engine, text: string)
    ensures var a := Analysis(rx, text); var lower := Lower(text);
      IsSubsequence(a.actionVerbs, ActionVerbs) &&
      IsSubsequence(a.leadershipIndicators, LeadershipKeywords) &&
      IsSubsequence(a.technicalKeywords, TechnicalKeywords) &&
      (forall w :: w in a.actionVerbs <==> w in ActionVerbs && Contains(lower, w)) &&
      (forall w :: w in a.leadershipIndicators <==> w in LeadershipKeywords && Contains(lower, w)) &&
      (forall w :: w in a.technicalKeywords <==> w in TechnicalKeywords && Contains(lower, w)) &&
      |a.quantifiableAchievements| == MatchTotal(rx, QuantifiablePatterns, lower) &&
      (FewVerbsArea in a.improvementAreas <==> |a.actionVerbs| < 5) &&
      (FewNumbersArea in a.improvementAreas <==> |a.quantifiableAchievements| < 3) &&
      (FewLeadersArea in a.improvementAreas <==> |a.leadershipIndicators| < 2)
  {
    var lower := Lower(text);
    PresentIsSubsequence(ActionVerbs, lower);
    PresentIsSubsequence(LeadershipKeywords, lower);
    PresentIsSubsequence(TechnicalKeywords, lower);
    PresentMembers(ActionVerbs, lower);
    PresentMembers(LeadershipKeywords, lower);
    PresentMembers(TechnicalKeywords, lower);
    FoundAllCount(rx, QuantifiablePatterns, lower);
    var a := Analysis(rx, text);
    ImprovementAreasExact(|a.actionVerbs|, |a.quantifiableAchievements|, |a.leadershipIndicators|);
  }

  // ----- ladders -----

  /** How many of the ascending `thresholds` a value reaches. */
  function Level(t: int, thresholds: seq<int>): (n: nat)
    ensures n <= |thresholds|
  {
    if thresholds == [] then 0
    else (if thresholds[0] <= t then 1 else 0) + Level(t, thresholds[1..])
  }

  lemma {:induction false} LevelMonotone(t1: int, t2: int, thresholds: seq<int>)
    requires t1 <= t2
    ensures Level(t1, thresholds) <= Level(t2, thresholds)
    decreases |thresholds|
  {
    if thresholds != [] {
      LevelMonotone(t1, t2, thresholds[1..]);
    }
  }

  lemma LevelOfThree(t: int, a: int, b: int, c: int)
    requires a <= b <= c
    ensures Level(t, [a, b, c]) == if t < a then 0 else if t < b then 1 else if t < c then 2 else 3
  {
    assert [a, b, c][1..] == [b, c] && [b, c][1..] == [c] && [c][1..] == [];
    assert Level(t, [c]) == if c <= t then 1 else 0;
    assert Level(t, [b, c]) == (if b <= t then 1 else 0) + Level(t, [c]);
    assert Level(t, [a, b, c]) == (if a <= t then 1 else 0) + Level(t, [b, c]);
  }

  lemma LevelOfFour(t: int, a: int, b: int, c: int, d: int)
    requires a <= b <= c <= d
    ensures Level(t, [a, b, c, d]) == if t < a then 0 else if t < b then 1 else if t < c then 2 else if t < d then 3 else 4
  {
    assert [a, b, c, d][1..] == [b, c, d];
    LevelOfThree(t, b, c, d);
  }

  // ----- line shapes -----

  /** A block header: a line break, the block's symbol, then its title. */
  function Heading(sign: char, title: string): string {
    ['\n', sign] + title
  }

  /** An indented line of a block. */
  function Indented(body: string): string {
    "  " + body
  }

  /** The symbol of a block header (a line that starts with a line break), none for any other
      line. */
  function SignOf(line: string): set<char> {
    if |line| >= 2 && line[0] == '\n' then {line[1]} else {}
  }

  /** The symbols of all block headers among the lines: which blocks the feedback holds. */
  function HeaderSigns(lines: seq<string>): set<char>
    decreases |lines|
  {
    if lines == [] then {} else SignOf(lines[0]) + HeaderSigns(lines[1..])
  }

  lemma {:induction false} HeaderSignsConcat(a: seq<string>, b: seq<string>)
    ensures HeaderSigns(a + b) == HeaderSigns(a) + HeaderSigns(b)
    decreases |a|
  {
    if a != [] {
      assert (a + b)[0] == a[0] && (a + b)[1..] == a[1..] + b;
      HeaderSignsConcat(a[1..], b);
      assert HeaderSigns(a + b) == SignOf(a[0]) + (HeaderSigns(a[1..]) + HeaderSigns(b));
    } else {
      assert a + b == b;
    }
  }

  /** Lines none of which is a header carry no header symbol. */
  lemma {:induction false} NoHeaderSigns(lines: seq<string>)
    requires forall i :: 0 <= i < |lines| ==> |lines[i]| > 0 && lines[i][0] == ' '
    ensures HeaderSigns(lines) == {}
    decreases |lines|
  {
    if lines != [] {
      NoHeaderSigns(lines[1..]);
    }
  }

  // ----- the opening lines -----

  function OverallLine(report: ScoreReport): string {
    Concat([[TargetSign], " **Overall Assessment: ", report.grade, " (", report.overallScore.Show(), "/100)**"])
  }

  const ExcellentVerdict: string := [TrophySign] + " **Excellent!** Your resume demonstrates strong professional presentation and comprehensive coverage of key areas."
  const VeryGoodVerdict: string := [RocketSign] + " **Very Good!** Your resume has a solid foundation with room for strategic improvements."
  const GoodVerdict: string := [ThumbsUpSign] + " **Good!** Your resume shows potential but needs targeted enhancements to stand out."
  const NeedsWorkVerdict: string := WarningSign + " **Needs Improvement.** Your resume requires significant work to be competitive."
  const MajorWorkVerdict: string := [SirenSign] + " **Major Improvements Needed.** Your resume needs substantial restructuring and content enhancement."

  /** The verdict line under the overall assessment, from the score band. */
  function AssessmentLine(score: Num): string {
    var t := score.Tenths();
    if t >= 850 then ExcellentVerdict
    else if t >= 750 then VeryGoodVerdict
    else if t >= 650 then GoodVerdict
    else if t >= 550 then NeedsWorkVerdict
    else MajorWorkVerdict
  }

  /** The verdicts from the lowest band to the highest. */
  const AssessmentLadder: seq<string> := [MajorWorkVerdict, NeedsWorkVerdict, GoodVerdict, VeryGoodVerdict, ExcellentVerdict]

  const AssessmentThresholds: seq<int> := [550, 650, 750, 850]

  /** The verdict is the rung of the ladder the score reaches, so a higher score never gets a
      lower verdict. */
  lemma AssessmentByLevel(score: Num, better: Num)
    ensures AssessmentLine(score) == AssessmentLadder[Level(score.Tenths(), AssessmentThresholds)]
    ensures score.Tenths() <= better.Tenths() ==>
      Level(score.Tenths(), AssessmentThresholds) <= Level(better.Tenths(), AssessmentThresholds)
  {
    var t := score.Tenths();
    LevelOfFour(t, 550, 650, 750, 850);
    if score.Tenths() <= better.Tenths() {
      LevelMonotone(score.Tenths(), better.Tenths(), AssessmentThresholds);
    }
  }

  // ----- the score breakdown -----

  const BreakdownHeader: string := Heading(ChartSign, " **Score Breakdown:**")

  /** `component.replace("_", " ").title()`. */
  function ComponentName(component: string): string {
    Title(Replace(component, "_", " "))
  }

  const RatingMarks: seq<string> := [[CrossSign], WarningSign, [ThumbsUpSign], [CheckSign]]
  const RatingLabels: seq<string> := ["Poor", "Needs Improvement", "Good", "Excellent"]
  const RatingThresholds: seq<int> := [500, 650, 800]

  /** One breakdown line, marked and labelled by the band of its score. */
  function BreakdownLine(component: string, score: Num): string {
    var t := score.Tenths();
    var rating :=
      if t >= 800 then ([CheckSign], "Excellent")
      else if t >= 650 then ([ThumbsUpSign], "Good")
      else if t >= 500 then (WarningSign, "Needs Improvement")
      else ([CrossSign], "Poor");
    Indented(Concat([rating.0, " ", ComponentName(component), ": ", score.Show(), "/100 (", rating.1, ")"]))
  }

  /** The mark and the label of a breakdown line are those of the band its score reaches. */
  lemma BreakdownRating(component: string, score: Num)
    ensures var k := Level(score.Tenths(), RatingThresholds);
      BreakdownLine(component, score) ==
        Indented(Concat([RatingMarks[k], " ", ComponentName(component), ": ", score.Show(), "/100 (", RatingLabels[k], ")"]))
  {
    var t := score.Tenths();
    LevelOfThree(t, 500, 650, 800);
  }

  function BreakdownLines(breakdown: Dict<Num>): (r: seq<string>)
    ensures |r| == |breakdown|
    ensures forall i :: 0 <= i < |breakdown| ==> r[i] == BreakdownLine(breakdown[i].0, breakdown[i].1)
    decreases |breakdown|
  {
    if breakdown == [] then []
    else
      var init := breakdown[..|breakdown| - 1];
      var last := breakdown[|breakdown| - 1];
      BreakdownLines(init) + [BreakdownLine(last.0, last.1)]
  }

  method AppendBreakdown(feedback0: seq<string>, breakdown: Dict<Num>) returns (feedback: seq<string>)
    ensures feedback == feedback0 + BreakdownLines(breakdown)
  {
    feedback := feedback0;
    for i := 0 to |breakdown|
      invariant feedback == feedback0 + BreakdownLines(breakdown[..i])
    {
      assert breakdown[..i + 1][..i] == breakdown[..i];
      feedback := feedback + [BreakdownLine(breakdown[i].0, breakdown[i].1)];
    }
    assert breakdown[..|breakdown|] == breakdown;
  }

  // ----- bulleted blocks -----

  /** One line per item, in order, each behind `prefix`. */
  function Bullets(prefix: string, items: seq<string>): (r: seq<string>)
    ensures |r| == |items|
    decreases |items|
  {
    if items == [] then []
    else Bullets(prefix, items[..|items| - 1]) + [prefix + items[|items| - 1]]
  }

  /** The bullets are the items, each behind the prefix, in order. */
  lemma {:induction false} BulletsAt(prefix: string, items: seq<string>)
    ensures forall i :: 0 <= i < |items| ==> Bullets(prefix, items)[i] == prefix + items[i]
    decreases |items|
  {
    if items != [] {
      BulletsAt(prefix, items[..|items| - 1]);
    }
  }

  method AppendBullets(feedback0: seq<string>, prefix: string, items: seq<string>) returns (feedback: seq<string>)
    ensures feedback == feedback0 + Bullets(prefix, items)
  {
    feedback := feedback0;
    for i := 0 to |items|
      invariant feedback == feedback0 + Bullets(prefix, items[..i])
    {
      assert items[..i + 1][..i] == items[..i];
      feedback := feedback + [prefix + items[i]];
    }
    assert items[..|items|] == items;
  }

  const Dot: string := Indented([BulletSign, ' '])
  const StrengthsHeader: string := Heading(MuscleSign, " **Key Strengths:**")
  const WeaknessesHeader: string := Heading(WrenchSign, " **Areas for Improvement:**")

  /** A header and one bullet per item, or nothing at all for an empty list. */
  function ListBlock(header: string, items: seq<string>): seq<string> {
    if items == [] then [] else [header] + Bullets(Dot, items)
  }

  // ----- the section-by-section analysis -----

  const SectionsHeader: string := Heading(ClipboardSign, " **Section-by-Section Analysis:**")
  const TipMark: string := Indented([BulbSign, ' '])

  /** `tips[:3]`. */
  function FirstThree(tips: seq<string>): (r: seq<string>)
    ensures |r| == if |tips| < 3 then |tips| else 3
    ensures r <= tips
  {
    if |tips| <= 3 then tips else tips[..3]
  }

  function PresentHeader(section: string): string {
    Heading(CheckSign, " **" + Title(section) + " Section:**")
  }

  function MissingHeader(section: string): string {
    Heading(CrossSign, " **Missing " + Title(section) + " Section:**")
  }

  function MissingLine(message: string): string {
    Indented(WarningSign + " " + message)
  }

  /** The lines for one section: a present section gets its header and its first three tips, a
      missing one its header and the message about it, as far as the tables know the section. */
  function SectionLines(section: string, present: bool, tips: Dict<seq<string>>, messages: Dict<string>): seq<string> {
    if present then
      [PresentHeader(section)] + (match Find(tips, section) case Some(t) => Bullets(TipMark, FirstThree(t)) case None => [])
    else
      [MissingHeader(section)] + (match Find(messages, section) case Some(m) => [MissingLine(m)] case None => [])
  }

  /** The lines of all sections, in the order of the section map. */
  function SectionsLines(sections: Dict<bool>, tips: Dict<seq<string>>, messages: Dict<string>): seq<string>
    decreases |sections|
  {
    if sections == [] then []
    else
      var last := sections[|sections| - 1];
      SectionsLines(sections[..|sections| - 1], tips, messages) + SectionLines(last.0, last.1, tips, messages)
  }

  /** The lines of one section, appended one by one. */
  method AppendSection(feedback0: seq<string>, section: string, present: bool, tips: Dict<seq<string>>, messages: Dict<string>)
    returns (feedback: seq<string>)
    ensures feedback == feedback0 + SectionLines(section, present, tips, messages)
  {
    if present {
      feedback := feedback0 + [PresentHeader(section)];
      match Find(tips, section)
      case Some(t) =>
        feedback := AppendBullets(feedback, TipMark, FirstThree(t));
      case None =>
    } else {
      feedback := feedback0 + [MissingHeader(section)];
      match Find(messages, section)
      case Some(m) =>
        feedback := feedback + [MissingLine(m)];
      case None =>
    }
  }

  lemma SectionsLinesSnoc(sections: Dict<bool>, i: nat, tips: Dict<seq<string>>, messages: Dict<string>)
    requires i < |sections|
    ensures SectionsLines(sections[..i + 1], tips, messages) ==
      SectionsLines(sections[..i], tips, messages) + SectionLines(sections[i].0, sections[i].1, tips, messages)
  {
    assert sections[..i + 1][..i] == sections[..i];
  }

  /** One turn of the loop over the section map: the lines of the next section. */
  method AppendSectionAt(feedback0: seq<string>, sections: Dict<bool>, i: nat, tips: Dict<seq<string>>,
    messages: Dict<string>, ghost prefix: seq<string>) returns (feedback: seq<string>)
    requires i < |sections| && feedback0 == prefix + SectionsLines(sections[..i], tips, messages)
    ensures feedback == prefix + SectionsLines(sections[..i + 1], tips, messages)
  {
    SectionsLinesSnoc(sections, i, tips, messages);
    feedback := AppendSection(feedback0, sections[i].0, sections[i].1, tips, messages);
  }

  method AppendSections(feedback0: seq<string>, sections: Dict<bool>, tips: Dict<seq<string>>, messages: Dict<string>)
    returns (feedback: seq<string>)
    ensures feedback == feedback0 + SectionsLines(sections, tips, messages)
  {
    feedback := feedback0;
    for i := 0 to |sections|
      invariant feedback == feedback0 + SectionsLines(sections[..i], tips, messages)
    {
      feedback := AppendSectionAt(feedback, sections, i, tips, messages, feedback0);
    }
    assert sections[..|sections|] == sections;
  }

  /** With tip lists of at least three tips, as in the generator's table: a present section known
      to the tip table gets its header and exactly its first three tips, a missing section known
      to the message table gets its header and exactly its message, and any other section gets
      its header alone. */
  lemma SectionShape(section: string, present: bool, tips: Dict<seq<string>>, messages: Dict<string>)
    requires forall i :: 0 <= i < |tips| ==> |tips[i].1| >= 3
    ensures var lines := SectionLines(section, present, tips, messages);
      lines != [] && lines[0] == (if present then PresentHeader(section) else MissingHeader(section)) &&
      (present && HasKey(tips, section) ==>
        |lines| == 4 && forall k :: 0 <= k < 3 ==> k < |Get(tips, section, [])| && lines[k + 1] == TipMark + Get(tips, section, [])[k]) &&
      (!present && HasKey(messages, section) ==>
        lines == [MissingHeader(section), MissingLine(Get(messages, section, ""))]) &&
      ((present && !HasKey(tips, section)) || (!present && !HasKey(messages, section)) ==> |lines| == 1)
  {
    FindGet(tips, section, []);
    FindGet(messages, section, "");
    if present && HasKey(tips, section) {
      GetAt(tips, section, []);
      var shown := FirstThree(Get(tips, section, []));
      BulletsAt(TipMark, shown);
    }
  }

  // ----- the content-analysis block -----

  const ContentHeader: string := Heading(MemoSign, " **Content Quality Analysis:**")
  const PrioritiesHeader: string := Heading(TargetSign, " **Content Improvement Priorities:**")

  /** A count line when something was found, otherwise the fallback line. */
  function CountLine(found: seq<string>, caption: string, absent: string): string {
    if found != [] then Indented(Concat([[CheckSign], " ", caption, ": ", ShowNat(|found|)]))
    else Indented(Concat([[CrossSign], " ", absent]))
  }

  function TechnicalLines(technical: seq<string>): seq<string> {
    if technical != [] then [Indented(Concat([[CheckSign], " Technical Keywords: ", ShowNat(|technical|)]))] else []
  }

  /** The lines about an analysis. */
  function AnalysisLines(a: ContentAnalysis): seq<string> {
    [ContentHeader,
     CountLine(a.actionVerbs, "Action Verbs Found", "No action verbs detected"),
     CountLine(a.quantifiableAchievements, "Quantifiable Achievements", "No quantifiable achievements found"),
     CountLine(a.leadershipIndicators, "Leadership Indicators", "Limited leadership experience shown")] +
    TechnicalLines(a.technicalKeywords) +
    ListBlock(PrioritiesHeader, a.improvementAreas)
  }

  /** The content-analysis block: only for a non-empty text. */
  function ContentBlock(text: string, analysis: ContentAnalysis): seq<string> {
    if text == "" then [] else AnalysisLines(analysis)
  }

  method AppendAnalysis(feedback0: seq<string>, a: ContentAnalysis) returns (feedback: seq<string>)
    ensures feedback == feedback0 + AnalysisLines(a)
  {
    feedback := feedback0 + [ContentHeader];
    feedback := feedback + [CountLine(a.actionVerbs, "Action Verbs Found", "No action verbs detected")];
    feedback := feedback + [CountLine(a.quantifiableAchievements, "Quantifiable Achievements", "No quantifiable achievements found")];
    feedback := feedback + [CountLine(a.leadershipIndicators, "Leadership Indicators", "Limited leadership experience shown")];
    if a.technicalKeywords != [] {
      feedback := feedback + TechnicalLines(a.technicalKeywords);
    }
    if a.improvementAreas != [] {
      feedback := feedback + [PrioritiesHeader];
      feedback := AppendBullets(feedback, Dot, a.improvementAreas);
    }
  }

  // ----- the closing blocks -----

  const BestPractices: seq<string> := [
    Heading(FactorySign, " **Industry Best Practices:**"),
    Dot + "Use industry-specific keywords and terminology",
    Dot + "Include relevant certifications and training",
    Dot + "Highlight quantifiable achievements and metrics",
    Dot + "Demonstrate continuous learning and skill development",
    Dot + "Show progression and career growth"
  ]

  const PlanHeader: string := Heading(TrendSign, " **Recommended Action Plan:**")

  const UrgentPlan: seq<string> := [
    Indented("1. **Immediate (Week 1):** Restructure missing sections and add basic content"),
    Indented("2. **Short-term (Week 2-3):** Enhance content with quantifiable achievements"),
    Indented("3. **Medium-term (Week 4-6):** Optimize for ATS and industry-specific keywords")
  ]

  const FineTunePlan: seq<string> := [
    Indented("1. **Fine-tune:** Optimize existing content for better impact"),
    Indented("2. **Enhance:** Add more quantifiable achievements and metrics"),
    Indented("3. **Polish:** Ensure ATS optimization and industry alignment")
  ]

  /** The three-step plan: urgent below 70, fine-tuning otherwise. */
  function ActionPlan(score: Num): seq<string> {
    [PlanHeader] + if score.Tenths() < 700 then UrgentPlan else FineTunePlan
  }

  /** The closing blocks: the best practices, then the action plan. */
  function Closing(score: Num): seq<string> {
    BestPractices + ActionPlan(score)
  }

  // ----- the whole list -----

  /** The opening: the overall assessment, the verdict, and the score breakdown. */
  function Opening(report: ScoreReport): seq<string> {
    [OverallLine(report), AssessmentLine(report.overallScore), BreakdownHeader] + BreakdownLines(report.breakdown)
  }

  /** All feedback lines, block after block. */
  function Lines(sections: Dict<bool>, report: ScoreReport, text: string, analysis: ContentAnalysis,
    tips: Dict<seq<string>>, messages: Dict<string>): seq<string>
  {
    Opening(report) +
    ListBlock(StrengthsHeader, report.strengths) +
    ListBlock(WeaknessesHeader, report.weaknesses) +
    [SectionsHeader] + SectionsLines(sections, tips, messages) +
    ContentBlock(text, analysis) +
    Closing(report.overallScore)
  }

  method AppendOpening(report: ScoreReport) returns (feedback: seq<string>)
    ensures feedback == Opening(report)
  {
    feedback := [OverallLine(report)];
    feedback := feedback + [AssessmentLine(report.overallScore)];
    feedback := feedback + [BreakdownHeader];
    assert feedback == [OverallLine(report), AssessmentLine(report.overallScore), BreakdownHeader];
    feedback := AppendBreakdown(feedback, report.breakdown);
  }

  method AppendListBlock(feedback0: seq<string>, header: string, items: seq<string>) returns (feedback: seq<string>)
    ensures feedback == feedback0 + ListBlock(header, items)
  {
    feedback := feedback0;
    if items != [] {
      feedback := feedback + [header];
      feedback := AppendBullets(feedback, Dot, items);
    }
  }

  /** The content analysis, for a non-empty text only. */
  method AppendContent(feedback0: seq<string>, rx: Engine, text: string) returns (feedback: seq<string>)
    ensures feedback == feedback0 + ContentBlock(text, Analysis(rx, text))
  {
    feedback := feedback0;
    if text != "" {
      var a := AnalyzeContentQuality(rx, text);
      feedback := AppendAnalysis(feedback, a);
    }
  }

  method AppendClosing(feedback0: seq<string>, score: Num) returns (feedback: seq<string>)
    ensures feedback == feedback0 + Closing(score)
  {
    feedback := feedback0 + BestPractices;
    feedback := feedback + ActionPlan(score);
  }

  /** `generate_enhanced_feedback` with any message tables: the lines are appended one by one. */
  method AppendFeedback(rx: Engine, sections: Dict<bool>, report: ScoreReport, text: string,
    tips: Dict<seq<string>>, messages: Dict<string>) returns (feedback: seq<string>)
    ensures feedback == Lines(sections, report, text, Analysis(rx, text), tips, messages)
  {
    feedback := AppendOpening(report);
    feedback := AppendListBlock(feedback, StrengthsHeader, report.strengths);
    feedback := AppendListBlock(feedback, WeaknessesHeader, report.weaknesses);
    feedback := feedback + [SectionsHeader];
    feedback := AppendSections(feedback, sections, tips, messages);
    feedback := AppendContent(feedback, rx, text);
    feedback := AppendClosing(feedback, report.overallScore);
  }

  /** `generate_enhanced_feedback`. */
  method GenerateEnhancedFeedback(rx: Engine, sections: Dict<bool>, report: ScoreReport, text: string)
    returns (feedback: seq<string>)
    ensures feedback == Lines(sections, report, text, Analysis(rx, text), EnhancedImprovementTips, SectionFeedbackMessages)
  {
    feedback := AppendFeedback(rx, sections, report, text, EnhancedImprovementTips, SectionFeedbackMessages);
  }

  // ----- which blocks the feedback holds -----

  lemma {:induction false} BulletsSigns(prefix: string, items: seq<string>)
    requires |prefix| > 0 && prefix[0] == ' '
    ensures HeaderSigns(Bullets(prefix, items)) == {}
  {
    BulletsAt(prefix, items);
    var b := Bullets(prefix, items);
    forall i | 0 <= i < |b| ensures |b[i]| > 0 && b[i][0] == ' ' {
      assert b[i] == prefix + items[i];
    }
    NoHeaderSigns(b);
  }

  /** A bulleted block shows its header's symbol exactly when it has items. */
  lemma ListBlockSigns(header: string, items: seq<string>)
    requires |header| >= 2 && header[0] == '\n'
    ensures HeaderSigns(ListBlock(header, items)) == if items == [] then {} else {header[1]}
  {
    if items != [] {
      HeaderSignsConcat([header], Bullets(Dot, items));
      BulletsSigns(Dot, items);
      assert HeaderSigns([header]) == SignOf(header) + HeaderSigns([]);
    }
  }

  lemma ThreeSigns(x: string, y: string, z: string)
    ensures HeaderSigns([x, y, z]) == SignOf(x) + SignOf(y) + SignOf(z)
  {
    assert [x, y, z][1..] == [y, z] && [y, z][1..] == [z] && [z][1..] == [];
    assert HeaderSigns([z]) == SignOf(z);
    assert HeaderSigns([y, z]) == SignOf(y) + SignOf(z);
  }

  /** A heading carries its own symbol. */
  lemma HeadingSign(sign: char, title: string)
    ensures SignOf(Heading(sign, title)) == {sign}
  {
  }

  lemma IndentedStart(body: string)
    ensures |Indented(body)| > 0 && Indented(body)[0] == ' '
  {
  }

  lemma OpeningLinesAreNotHeaders(report: ScoreReport)
    ensures SignOf(OverallLine(report)) == {} && SignOf(AssessmentLine(report.overallScore)) == {}
  {
    var parts := [[TargetSign], " **Overall Assessment: ", report.grade, " (", report.overallScore.Show(), "/100)**"];
    assert OverallLine(report) == [TargetSign] + Concat(parts[1..]);
    var v := AssessmentLine(report.overallScore);
    assert v == ExcellentVerdict || v == VeryGoodVerdict || v == GoodVerdict || v == NeedsWorkVerdict || v == MajorWorkVerdict;
    assert WarningSign[0] != '\n';
  }

  lemma BreakdownNotHeaders(breakdown: Dict<Num>)
    ensures HeaderSigns(BreakdownLines(breakdown)) == {}
  {
    var lines := BreakdownLines(breakdown);
    forall i | 0 <= i < |lines| ensures |lines[i]| > 0 && lines[i][0] == ' ' {
      var t := breakdown[i].1.Tenths();
      BreakdownRating(breakdown[i].0, breakdown[i].1);
      var k := Level(t, RatingThresholds);
      IndentedStart(Concat([RatingMarks[k], " ", ComponentName(breakdown[i].0), ": ", breakdown[i].1.Show(), "/100 (", RatingLabels[k], ")"]));
    }
    NoHeaderSigns(lines);
  }

  lemma OpeningSigns(report: ScoreReport)
    ensures HeaderSigns(Opening(report)) == {ChartSign}
  {
    var head := [OverallLine(report), AssessmentLine(report.overallScore), BreakdownHeader];
    ThreeSigns(head[0], head[1], head[2]);
    OpeningLinesAreNotHeaders(report);
    HeadingSign(ChartSign, " **Score Breakdown:**");
    BreakdownNotHeaders(report.breakdown);
    HeaderSignsConcat(head, BreakdownLines(report.breakdown));
  }

  lemma SectionLinesSigns(section: string, present: bool, tips: Dict<seq<string>>, messages: Dict<string>)
    ensures HeaderSigns(SectionLines(section, present, tips, messages)) == {if present then CheckSign else CrossSign}
  {
    var lines := SectionLines(section, present, tips, messages);
    var header := if present then PresentHeader(section) else MissingHeader(section);
    var body := lines[1..];
    assert lines == [header] + body;
    if present {
      HeadingSign(CheckSign, " **" + Title(section) + " Section:**");
      match Find(tips, section)
      case Some(t) =>
        BulletsSigns(TipMark, FirstThree(t));
      case None =>
        assert body == [];
    } else {
      HeadingSign(CrossSign, " **Missing " + Title(section) + " Section:**");
      match Find(messages, section)
      case Some(m) =>
        IndentedStart(WarningSign + " " + m);
        assert body == [MissingLine(m)];
        assert body[1..] == [];
      case None =>
        assert body == [];
    }
    HeaderSignsConcat([header], body);
    assert HeaderSigns([header]) == SignOf(header) + HeaderSigns([]);
  }

  /** Some section of the map has the presence flag `flag`. */
  predicate SomeSection(sections: Dict<bool>, flag: bool) {
    exists i :: 0 <= i < |sections| && sections[i].1 == flag
  }

  lemma SomeSectionSnoc(sections: Dict<bool>, flag: bool)
    requires sections != []
    ensures SomeSection(sections, flag) <==>
      SomeSection(sections[..|sections| - 1], flag) || sections[|sections| - 1].1 == flag
  {
    var init := sections[..|sections| - 1];
    if SomeSection(sections, flag) {
      var i :| 0 <= i < |sections| && sections[i].1 == flag;
      if i < |init| {
        assert init[i] == sections[i];
      }
    }
    if SomeSection(init, flag) {
      var i :| 0 <= i < |init| && init[i].1 == flag;
      assert sections[i] == init[i];
    }
  }

  /** The section analysis shows a present-section header exactly when some section is present,
      and a missing-section header exactly when some section is missing. */
  lemma {:induction false} SectionsSigns(sections: Dict<bool>, tips: Dict<seq<string>>, messages: Dict<string>)
    ensures HeaderSigns(SectionsLines(sections, tips, messages)) ==
      (if SomeSection(sections, true) then {CheckSign} else {}) + (if SomeSection(sections, false) then {CrossSign} else {})
    decreases |sections|
  {
    if sections != [] {
      var init, last := sections[..|sections| - 1], sections[|sections| - 1];
      SectionsSigns(init, tips, messages);
      SectionLinesSigns(last.0, last.1, tips, messages);
      HeaderSignsConcat(SectionsLines(init, tips, messages), SectionLines(last.0, last.1, tips, messages));
      SomeSectionSnoc(sections, true);
      SomeSectionSnoc(sections, false);
    }
  }

  lemma AnalysisSigns(a: ContentAnalysis)
    ensures HeaderSigns(AnalysisLines(a)) == {MemoSign} + if a.improvementAreas == [] then {} else {TargetSign}
  {
    var counts := [
      CountLine(a.actionVerbs, "Action Verbs Found", "No action verbs detected"),
      CountLine(a.quantifiableAchievements, "Quantifiable Achievements", "No quantifiable achievements found"),
      CountLine(a.leadershipIndicators, "Leadership Indicators", "Limited leadership experience shown")] +
      TechnicalLines(a.technicalKeywords);
    NoHeaderSigns(counts);
    assert AnalysisLines(a) == [ContentHeader] + counts + ListBlock(PrioritiesHeader, a.improvementAreas);
    HeaderSignsConcat([ContentHeader], counts);
    HeaderSignsConcat([ContentHeader] + counts, ListBlock(PrioritiesHeader, a.improvementAreas));
    assert HeaderSigns([ContentHeader]) == SignOf(ContentHeader) + HeaderSigns([]);
    ListBlockSigns(PrioritiesHeader, a.improvementAreas);
  }

  lemma ClosingSigns(score: Num)
    ensures HeaderSigns(Closing(score)) == {FactorySign, TrendSign}
  {
    NoHeaderSigns(BestPractices[1..]);
    assert BestPractices == [BestPractices[0]] + BestPractices[1..];
    HeaderSignsConcat([BestPractices[0]], BestPractices[1..]);
    var plan := if score.Tenths() < 700 then UrgentPlan else FineTunePlan;
    NoHeaderSigns(plan);
    HeaderSignsConcat([PlanHeader], plan);
    HeaderSignsConcat(BestPractices, ActionPlan(score));
    assert HeaderSigns([PlanHeader]) == SignOf(PlanHeader) + HeaderSigns([]);
    assert HeaderSigns([BestPractices[0]]) == SignOf(BestPractices[0]) + HeaderSigns([]);
  }

  /** The header symbols of the whole list are those of its blocks. */
  lemma BlocksSigns(o: seq<string>, sb: seq<string>, wb: seq<string>, sl: seq<string>, cb: seq<string>, cl: seq<string>)
    ensures HeaderSigns(o + sb + wb + [SectionsHeader] + sl + cb + cl) ==
      HeaderSigns(o) + HeaderSigns(sb) + HeaderSigns(wb) + {ClipboardSign} + HeaderSigns(sl) + HeaderSigns(cb) + HeaderSigns(cl)
  {
    HeadingSign(ClipboardSign, " **Section-by-Section Analysis:**");
    assert HeaderSigns([SectionsHeader]) == SignOf(SectionsHeader) + HeaderSigns([]);
    HeaderSignsConcat(o, sb);
    HeaderSignsConcat(o + sb, wb);
    HeaderSignsConcat(o + sb + wb, [SectionsHeader]);
    HeaderSignsConcat(o + sb + wb + [SectionsHeader], sl);
    HeaderSignsConcat(o + sb + wb + [SectionsHeader] + sl, cb);
    HeaderSignsConcat(o + sb + wb + [SectionsHeader] + sl + cb, cl);
  }

  /** The header symbols the feedback shows, given which of its optional blocks are there. */
  function ExpectedSigns(strengths: bool, weaknesses: bool, present: bool, missing: bool, content: bool, priorities: bool): set<char> {
    {ChartSign, ClipboardSign, FactorySign, TrendSign} +
    (if strengths then {MuscleSign} else {}) + (if weaknesses then {WrenchSign} else {}) +
    (if present then {CheckSign} else {}) + (if missing then {CrossSign} else {}) +
    (if content then {MemoSign} else {}) + (if priorities then {TargetSign} else {})
  }

  /** Each optional block's symbol is shown exactly when the block is there, and the fixed blocks'
      symbols always. */
  lemma ExpectedSignsExact(strengths: bool, weaknesses: bool, present: bool, missing: bool, content: bool, priorities: bool)
    ensures var signs := ExpectedSigns(strengths, weaknesses, present, missing, content, priorities);
      (MuscleSign in signs <==> strengths) && (WrenchSign in signs <==> weaknesses) &&
      (CheckSign in signs <==> present) && (CrossSign in signs <==> missing) &&
      (MemoSign in signs <==> content) && (TargetSign in signs <==> priorities) &&
      ChartSign in signs && ClipboardSign in signs && FactorySign in signs && TrendSign in signs
  {
  }

  /** The symbols of the blocks, put together. */
  lemma SignsAssemble(o: set<char>, sb: set<char>, wb: set<char>, sl: set<char>, cb: set<char>, cl: set<char>,
    strengths: bool, weaknesses: bool, present: bool, missing: bool, content: bool, priorities: bool)
    requires o == {ChartSign} && cl == {FactorySign, TrendSign}
    requires sb == (if strengths then {MuscleSign} else {}) && wb == (if weaknesses then {WrenchSign} else {})
    requires sl == (if present then {CheckSign} else {}) + (if missing then {CrossSign} else {})
    requires cb == (if content then {MemoSign} + (if priorities then {TargetSign} else {}) else {})
    requires priorities ==> content
    ensures o + sb + wb + {ClipboardSign} + sl + cb + cl == ExpectedSigns(strengths, weaknesses, present, missing, content, priorities)
  {
    var lhs := o + sb + wb + {ClipboardSign} + sl + cb + cl;
    var rhs := ExpectedSigns(strengths, weaknesses, present, missing, content, priorities);
    forall x ensures x in lhs <==> x in rhs {
    }
  }

  /** Which blocks the feedback holds, told by the symbols of its block headers: the strengths
      block exactly when there are strengths, the improvement block exactly when there are
      weaknesses, a present (missing) section header exactly when some section is present
      (missing), the content analysis exactly for a non-empty text and its priorities exactly
      when that analysis finds something short; the breakdown, the section analysis, the best
      practices and the action plan always. */
  lemma BlockPresence(sections: Dict<bool>, report: ScoreReport, text: string, analysis: ContentAnalysis,
    tips: Dict<seq<string>>, messages: Dict<string>)
    ensures HeaderSigns(Lines(sections, report, text, analysis, tips, messages)) ==
      ExpectedSigns(report.strengths != [], report.weaknesses != [], SomeSection(sections, true),
        SomeSection(sections, false), text != "", text != "" && analysis.improvementAreas != [])
  {
    var o := Opening(report);
    var sb := ListBlock(StrengthsHeader, report.strengths);
    var wb := ListBlock(WeaknessesHeader, report.weaknesses);
    var sl := SectionsLines(sections, tips, messages);
    var cb := ContentBlock(text, analysis);
    var cl := Closing(report.overallScore);
    BlocksSigns(o, sb, wb, sl, cb, cl);
    OpeningSigns(report);
    ListBlockSigns(StrengthsHeader, report.strengths);
    ListBlockSigns(WeaknessesHeader, report.weaknesses);
    SectionsSigns(sections, tips, messages);
    if text != "" {
      AnalysisSigns(analysis);
    }
    ClosingSigns(report.overallScore);
    SignsAssemble(HeaderSigns(o), HeaderSigns(sb), HeaderSigns(wb), HeaderSigns(sl), HeaderSigns(cb), HeaderSigns(cl),
      report.strengths != [], report.weaknesses != [], SomeSection(sections, true),
      SomeSection(sections, false), text != "", text != "" && analysis.improvementAreas != []);
  }

  // ----- the shape of the list -----

  /** The overall line names the grade and the score. */
  lemma OverallLineShows(report: ScoreReport)
    ensures Contains(OverallLine(report), report.grade)
    ensures Contains(OverallLine(report), report.overallScore.Show())
  {
    var parts := [[TargetSign], " **Overall Assessment: ", report.grade, " (", report.overallScore.Show(), "/100)**"];
    ConcatSplit(parts, 2);
    ConcatSplit(parts, 4);
  }

  /** The opening: the overall assessment, the verdict of the score's band and the breakdown
      header, then one rated line per breakdown entry, in the order of the breakdown. */
  lemma OpeningLayout(report: ScoreReport)
    ensures var o := Opening(report);
      |o| == |report.breakdown| + 3 &&
      o[0] == OverallLine(report) &&
      o[1] == AssessmentLadder[Level(report.overallScore.Tenths(), AssessmentThresholds)] &&
      o[2] == BreakdownHeader &&
      forall i :: 0 <= i < |report.breakdown| ==> o[3 + i] == BreakdownLine(report.breakdown[i].0, report.breakdown[i].1)
  {
    AssessmentByLevel(report.overallScore, report.overallScore);
  }

  /** The list starts with the opening and ends with the best practices and the action plan. */
  lemma LinesFrame(sections: Dict<bool>, report: ScoreReport, text: string, analysis: ContentAnalysis,
    tips: Dict<seq<string>>, messages: Dict<string>)
    ensures var lines := Lines(sections, report, text, analysis, tips, messages);
      |lines| >= |Opening(report)| + 11 &&
      lines[..|Opening(report)|] == Opening(report) &&
      lines[|lines| - 10..] == Closing(report.overallScore)
  {
    var c := Closing(report.overallScore);
    FrameOf(Opening(report), ListBlock(StrengthsHeader, report.strengths), ListBlock(WeaknessesHeader, report.weaknesses),
      [SectionsHeader], SectionsLines(sections, tips, messages), ContentBlock(text, analysis), c);
    ClosingLength(report.overallScore);
  }

  lemma FrameOf(o: seq<string>, sb: seq<string>, wb: seq<string>, h: seq<string>, sl: seq<string>, cb: seq<string>, cl: seq<string>)
    ensures var all := o + sb + wb + h + sl + cb + cl;
      |all| == |o| + |sb| + |wb| + |h| + |sl| + |cb| + |cl| && all[..|o|] == o && all[|all| - |cl|..] == cl
  {
    var all := o + sb + wb + h + sl + cb + cl;
    assert all == o + (sb + wb + h + sl + cb + cl);
  }

  lemma ClosingLength(score: Num)
    ensures |Closing(score)| == 10
  {
  }

  /** The plan is the urgent one exactly below 70. */
  lemma ActionPlanChoice(score: Num)
    ensures ActionPlan(score)[0] == PlanHeader
    ensures ActionPlan(score)[1..] == UrgentPlan <==> score.Tenths() < 700
    ensures ActionPlan(score)[1..] == FineTunePlan <==> score.Tenths() >= 700
  {
    assert UrgentPlan != FineTunePlan by {
      assert UrgentPlan[0] != FineTunePlan[0];
    }
    assert ActionPlan(score)[1..] == if score.Tenths() < 700 then UrgentPlan else FineTunePlan;
  }

  /** A bulleted block is empty exactly for no items; otherwise it is its header followed by one
      bullet per item, in order. */
  lemma ListBlockShape(header: string, items: seq<string>)
    ensures var block := ListBlock(header, items);
      (block == [] <==> items == []) &&
      (items != [] ==> (|block| == |items| + 1 && block[0] == header &&
        forall i :: 0 <= i < |items| ==> block[i + 1] == Dot + items[i]))
  {
    if items != [] {
      BulletsAt(Dot, items);
    }
  }

  /** The content block is there exactly for a non-empty text: its header, the three count
      lines, the technical-keyword line when there are any, and the priorities block. */
  lemma ContentBlockShape(text: string, analysis: ContentAnalysis)
    ensures var block := ContentBlock(text, analysis);
      (block == [] <==> text == "") &&
      (text != "" ==> (block[0] == ContentHeader &&
        |block| == 4 + (if analysis.technicalKeywords == [] then 0 else 1) + |ListBlock(PrioritiesHeader, analysis.improvementAreas)| &&
        block[|block| - |ListBlock(PrioritiesHeader, analysis.improvementAreas)|..] == ListBlock(PrioritiesHeader, analysis.improvementAreas)))
  {
  }

  // ----- the legacy entry point -----

  /** The legacy letter grade: A from 90, B from 80, C from 70, D below. */
  function LegacyGrade(score: Num): string {
    var t := score.Tenths();
    if t >= 900 then "A" else if t >= 800 then "B" else if t >= 700 then "C" else "D"
  }

  const LegacyGrades: seq<string> := ["D", "C", "B", "A"]
  const LegacyThresholds: seq<int> := [700, 800, 900]

  /** The grade is the rung of the ladder the score reaches, so a higher score never gets a
      lower grade. */
  lemma LegacyGradeByLevel(score: Num, better: Num)
    ensures LegacyGrade(score) == LegacyGrades[Level(score.Tenths(), LegacyThresholds)]
    ensures score.Tenths() <= better.Tenths() ==>
      Level(score.Tenths(), LegacyThresholds) <= Level(better.Tenths(), LegacyThresholds)
  {
    LevelOfThree(score.Tenths(), 700, 800, 900);
    if score.Tenths() <= better.Tenths() {
      LevelMonotone(score.Tenths(), better.Tenths(), LegacyThresholds);
    }
  }

  /** The report the legacy entry point builds from a bare score: the score itself as the only
      breakdown entry, no strengths and no weaknesses. */
  function LegacyReport(score: Num): ScoreReport {
    ScoreReport(score, [("section_score", score)], LegacyGrade(score), [], [])
  }

  /** The opening of the legacy report: one breakdown line, for the score itself. */
  lemma LegacyOpening(score: Num)
    ensures Opening(LegacyReport(score)) ==
      [OverallLine(LegacyReport(score)), AssessmentLine(score), BreakdownHeader, BreakdownLine("section_score", score)]
  {
    assert BreakdownLines([("section_score", score)]) == [BreakdownLine("section_score", score)];
  }

  /** For an empty text and the legacy report there is no strengths block, no improvement block
      and no content analysis: only the opening, the section analysis and the closing blocks. */
  lemma LegacyLines(sections: Dict<bool>, score: Num, analysis: ContentAnalysis,
    tips: Dict<seq<string>>, messages: Dict<string>)
    ensures Lines(sections, LegacyReport(score), "", analysis, tips, messages) ==
      Opening(LegacyReport(score)) + [SectionsHeader] + SectionsLines(sections, tips, messages) + Closing(score)
  {
    var report := LegacyReport(score);
    DropEmptyBlocks(Opening(report), ListBlock(StrengthsHeader, report.strengths), ListBlock(WeaknessesHeader, report.weaknesses),
      [SectionsHeader], SectionsLines(sections, tips, messages), ContentBlock("", analysis), Closing(score));
  }

  lemma DropEmptyBlocks(o: seq<string>, sb: seq<string>, wb: seq<string>, h: seq<string>, sl: seq<string>, cb: seq<string>, cl: seq<string>)
    requires sb == [] && wb == [] && cb == []
    ensures o + sb + wb + h + sl + cb + cl == o + h + sl + cl
  {
    assert o + sb + wb == o;
    assert o + h + sl + cb == o + h + sl;
  }

  /** An engine that never matches; the legacy entry point never analyses any text. */
  const NoMatches: Engine := (pattern: string, subject: string) => []

  /** `generate_feedback`: the enhanced feedback for the legacy report and an empty text. The
      weights are not used. */
  method GenerateFeedback(sections: Dict<bool>, score: Num, weights: Dict<Num>) returns (feedback: seq<string>)
    ensures feedback ==
      Opening(LegacyReport(score)) + [SectionsHeader] + SectionsLines(sections, EnhancedImprovementTips, SectionFeedbackMessages) +
      Closing(score)
  {
    feedback := GenerateEnhancedFeedback(NoMatches, sections, LegacyReport(score), "");
    LegacyLines(sections, score, Analysis(NoMatches, ""), EnhancedImprovementTips, SectionFeedbackMessages);
  }
}
