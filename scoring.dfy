/** The scoring engine: four integer rubrics (structure, content, impact and a weight sum over
    the present sections), their weighted combination, the letter grade, and the strengths and
    weaknesses lists. */
module Scoring {
  import opened Text
  import opened PyValues
  import opened Regex

  // ----- fixed word and pattern lists -----

  /** Verbs whose presence marks results-oriented bullet points (25 entries). */
  const ActionVerbs: seq<string> := [
    "developed", "implemented", "managed", "led", "created", "designed", "built",
    "improved", "increased", "decreased", "optimized", "streamlined", "coordinated",
    "delivered", "achieved", "established", "launched", "maintained", "performed",
    "produced", "reduced", "resolved", "supervised", "trained", "upgraded"
  ]

  /** Patterns of quantified achievements, every occurrence counted. */
  const QuantifiablePatterns: seq<string> := [
    "\\d+%", "\\d+\\s*percent", "\\$\\d+", "\\d+\\s*dollars", "\\d+\\s*users",
    "\\d+\\s*customers", "\\d+\\s*team\\s*members", "\\d+\\s*projects",
    "increased\\s+by\\s+\\d+", "decreased\\s+by\\s+\\d+", "reduced\\s+by\\s+\\d+",
    "improved\\s+by\\s+\\d+", "grew\\s+by\\s+\\d+", "expanded\\s+by\\s+\\d+"
  ]

  const ProfessionalKeywords: seq<string> := [
    "experience", "skills", "project", "team", "leadership", "management",
    "development", "analysis", "design", "implementation", "strategy",
    "collaboration", "communication", "problem-solving", "innovation"
  ]

  const ResultsKeywords: seq<string> := [
    "resulted in", "led to", "achieved", "accomplished", "delivered",
    "generated", "produced", "created", "established", "launched",
    "successfully", "effectively", "efficiently", "significantly"
  ]

  const MetricPatterns: seq<string> := [
    "\\d+%", "\\$\\d+", "\\d+\\s*people", "\\d+\\s*users", "\\d+\\s*customers",
    "\\d+\\s*projects", "\\d+\\s*team\\s*members", "\\d+\\s*months", "\\d+\\s*years"
  ]

  const LeadershipKeywords: seq<string> := [
    "led", "managed", "supervised", "directed", "coordinated", "oversaw",
    "mentored", "trained", "guided", "facilitated", "orchestrated"
  ]

  const EssentialSections: seq<string> := ["summary", "experience", "education"]

  const ValuableSections: seq<string> := ["projects", "certifications", "skills", "achievements"]

  /** `WEIGHTS`: the points a present section adds to the section score. */
  const Weights: Dict<int> := [
    ("summary", 15), ("education", 20), ("experience", 30), ("projects", 20),
    ("certifications", 15), ("skills", 10), ("achievements", 10)
  ]

  // ----- counting -----

  /** `[w for w in words if w in text]`: the entries of `words` that occur in `text`, in list
      order.  Its length is `sum(1 for w in words if w in text)`. */
  function Present(words: seq<string>, text: string): (r: seq<string>)
    ensures |r| <= |words|
    decreases |words|
  {
    if words == [] then []
    else
      var init := words[..|words| - 1];
      var last := words[|words| - 1];
      assert words == init + [last];
      if Contains(text, last) then Present(init, text) + [last] else Present(init, text)
  }

  /** A word is found exactly when it is on the list and occurs in the text. */
  lemma {:induction false} PresentMembers(words: seq<string>, text: string)
    ensures forall w :: w in Present(words, text) <==> w in words && Contains(text, w)
    decreases |words|
  {
    if words != [] {
      var init := words[..|words| - 1];
      PresentMembers(init, text);
      assert words == init + [words[|words| - 1]];
    }
  }

  /** `a` is `b` with some entries left out, the rest kept in order. */
  predicate IsSubsequence<T(==)>(a: seq<T>, b: seq<T>)
    decreases |b|
  {
    a == [] || (b != [] &&
      ((a[|a| - 1] == b[|b| - 1] && IsSubsequence(a[..|a| - 1], b[..|b| - 1])) ||
       IsSubsequence(a, b[..|b| - 1])))
  }

  /** The words found keep the order of the list they come from. */
  lemma {:induction false} PresentIsSubsequence(words: seq<string>, text: string)
    ensures IsSubsequence(Present(words, text), words)
    decreases |words|
  {
    if words != [] {
      var init := words[..|words| - 1];
      PresentIsSubsequence(init, text);
      var r := Present(words, text);
      if Contains(text, words[|words| - 1]) {
        assert r[..|r| - 1] == Present(init, text);
      } else {
        assert r == Present(init, text);
      }
    }
  }

  /** `sum(len(re.findall(p, s)) for p in patterns)`. */
  function MatchTotal(rx: Engine, patterns: seq<string>, s: string): (r: nat)
    ensures forall p :: p in patterns ==> CountAll(rx, p, s) <= r
    decreases |patterns|
  {
    if patterns == [] then 0
    else
      var init := patterns[..|patterns| - 1];
      assert patterns == init + [patterns[|patterns| - 1]];
      MatchTotal(rx, init, s) + CountAll(rx, patterns[|patterns| - 1], s)
  }

  /** The loop `for pattern in patterns: count += len(re.findall(pattern, s))`. */
  method SumMatches(rx: Engine, patterns: seq<string>, s: string) returns (count: nat)
    ensures count == MatchTotal(rx, patterns, s)
    ensures forall p :: p in patterns ==> CountAll(rx, p, s) <= count
  {
    count := 0;
    for i := 0 to |patterns|
      invariant count == MatchTotal(rx, patterns[..i], s)
    {
      assert patterns[..i + 1][..i] == patterns[..i];
      count := count + |rx(patterns[i], s)|;
    }
    assert patterns[..|patterns|] == patterns;
  }

  // ----- threshold ladders -----

  function WordBand(n: nat): int {
    if 200 <= n <= 800 then 15 else if 100 <= n < 200 || 800 < n <= 1200 then 10 else 5
  }

  function VerbTier(n: nat): int {
    if n >= 8 then 20 else if n >= 5 then 15 else if n >= 3 then 10 else 5
  }

  function QuantifiableTier(n: nat): int {
    if n >= 5 then 20 else if n >= 3 then 15 else if n >= 1 then 10 else 5
  }

  function KeywordTier(n: nat): int {
    if n >= 10 then 15 else if n >= 7 then 12 else if n >= 5 then 10 else 5
  }

  function ResultsTier(n: nat): int {
    if n >= 8 then 25 else if n >= 5 then 20 else if n >= 3 then 15 else 5
  }

  function MetricsTier(n: nat): int {
    if n >= 10 then 30 else if n >= 7 then 25 else if n >= 5 then 20 else if n >= 3 then 15 else 5
  }

  function LeadershipTier(n: nat): int {
    if n >= 5 then 25 else if n >= 3 then 20 else if n >= 1 then 15 else 5
  }

  function EssentialTier(n: nat): int {
    if n == 3 then 30 else if n == 2 then 20 else if n == 1 then 10 else 0
  }

  function ValuableTier(n: nat): int {
    if n >= 3 then 20 else if n >= 2 then 15 else if n >= 1 then 10 else 0
  }

  function Min(a: int, b: int): int {
    if a <= b then a else b
  }

  // ----- content -----

  /** `calculate_content_score`: word-count band, distinct action verbs, every quantified
      achievement, distinct professional keywords.  Each rubric adds at least 5, so the score
      lies between 20 and 70 and the cap at 100 never applies. */
  function ContentScore(rx: Engine, text: string): (r: int)
    ensures 20 <= r <= 70
  {
    var lower := Lower(text);
    ContentTotal(|Words(text)|, |Present(ActionVerbs, lower)|, MatchTotal(rx, QuantifiablePatterns, lower),
      |Present(ProfessionalKeywords, lower)|)
  }

  /** The four content rubrics for the given counts, capped at 100. */
  function ContentTotal(words: nat, verbs: nat, quantified: nat, keywords: nat): (r: int)
    ensures 20 <= r <= 70
  {
    Min(WordBand(words) + VerbTier(verbs) + QuantifiableTier(quantified) + KeywordTier(keywords), 100)
  }

  method CalculateContentScore(rx: Engine, text: string) returns (score: int)
    ensures score == ContentScore(rx, text)
  {
    var wordCount := |Words(text)|;
    var textLower := Lower(text);
    var verbCount := |Present(ActionVerbs, textLower)|;
    var quantifiableCount := SumMatches(rx, QuantifiablePatterns, textLower);
    var keywordCount := |Present(ProfessionalKeywords, textLower)|;
    score := ContentRubrics(wordCount, verbCount, quantifiableCount, keywordCount);
  }

  /** The four rubric blocks of `calculate_content_score`, each adding its tier to the score. */
  method ContentRubrics(wordCount: nat, verbCount: nat, quantifiableCount: nat, keywordCount: nat)
    returns (score: int)
    ensures score == ContentTotal(wordCount, verbCount, quantifiableCount, keywordCount)
  {
    score := 0;
    if 200 <= wordCount <= 800 {
      score := score + 15;
    } else if 100 <= wordCount < 200 || 800 < wordCount <= 1200 {
      score := score + 10;
    } else {
      score := score + 5;
    }
    if verbCount >= 8 {
      score := score + 20;
    } else if verbCount >= 5 {
      score := score + 15;
    } else if verbCount >= 3 {
      score := score + 10;
    } else {
      score := score + 5;
    }
    if quantifiableCount >= 5 {
      score := score + 20;
    } else if quantifiableCount >= 3 {
      score := score + 15;
    } else if quantifiableCount >= 1 {
      score := score + 10;
    } else {
      score := score + 5;
    }
    if keywordCount >= 10 {
      score := score + 15;
    } else if keywordCount >= 7 {
      score := score + 12;
    } else if keywordCount >= 5 {
      score := score + 10;
    } else {
      score := score + 5;
    }
    score := Min(score, 100);
  }

  /** More distinct verbs, more quantified achievements or more distinct keywords never lower
      the content score; the word count is the one rubric that is not monotone, peaking at 15
      exactly for 200 to 800 words. */
  lemma ContentTotalMonotone(words: nat, v1: nat, v2: nat, q1: nat, q2: nat, k1: nat, k2: nat)
    requires v1 <= v2 && q1 <= q2 && k1 <= k2
    ensures ContentTotal(words, v1, q1, k1) <= ContentTotal(words, v2, q2, k2)
    ensures WordBand(words) == 15 <==> 200 <= words <= 800
    ensures WordBand(1201) < WordBand(800) && WordBand(99) < WordBand(200)
  {
  }

  // ----- impact -----

  /** `calculate_impact_score`: distinct results words, every metric, distinct leadership
      words; between 15 and 80, so the cap at 100 never applies. */
  function ImpactScore(rx: Engine, text: string): (r: int)
    ensures 15 <= r <= 80
  {
    var lower := Lower(text);
    Min(ResultsTier(|Present(ResultsKeywords, lower)|) +
      MetricsTier(MatchTotal(rx, MetricPatterns, lower)) +
      LeadershipTier(|Present(LeadershipKeywords, lower)|), 100)
  }

  /** More distinct results words, more metrics or more distinct leadership words never lower
      the impact score. */
  lemma ImpactTiersMonotone(r1: nat, r2: nat, m1: nat, m2: nat, l1: nat, l2: nat)
    requires r1 <= r2 && m1 <= m2 && l1 <= l2
    ensures Min(ResultsTier(r1) + MetricsTier(m1) + LeadershipTier(l1), 100) <=
      Min(ResultsTier(r2) + MetricsTier(m2) + LeadershipTier(l2), 100)
  {
  }

  method CalculateImpactScore(rx: Engine, text: string) returns (score: int)
    ensures score == ImpactScore(rx, text)
  {
    score := 0;
    var textLower := Lower(text);
    var resultsCount := |Present(ResultsKeywords, textLower)|;
    if resultsCount >= 8 {
      score := score + 25;
    } else if resultsCount >= 5 {
      score := score + 20;
    } else if resultsCount >= 3 {
      score := score + 15;
    } else {
      score := score + 5;
    }
    assert score == ResultsTier(resultsCount);
    var metricsCount := SumMatches(rx, MetricPatterns, textLower);
    if metricsCount >= 10 {
      score := score + 30;
    } else if metricsCount >= 7 {
      score := score + 25;
    } else if metricsCount >= 5 {
      score := score + 20;
    } else if metricsCount >= 3 {
      score := score + 15;
    } else {
      score := score + 5;
    }
    assert score == ResultsTier(resultsCount) + MetricsTier(metricsCount);
    var leadershipCount := |Present(LeadershipKeywords, textLower)|;
    if leadershipCount >= 5 {
      score := score + 25;
    } else if leadershipCount >= 3 {
      score := score + 20;
    } else if leadershipCount >= 1 {
      score := score + 15;
    } else {
      score := score + 5;
    }
    score := Min(score, 100);
  }

  // ----- structure -----

  /** `sections.get(name, False)`. */
  predicate On(sections: Dict<bool>, name: string) {
    Get(sections, name, false)
  }

  /** `sum(1 for name in names if sections.get(name, False))`. */
  function CountOn(sections: Dict<bool>, names: seq<string>): (n: nat)
    ensures n <= |names|
  {
    if names == [] then 0 else (if On(sections, names[0]) then 1 else 0) + CountOn(sections, names[1..])
  }

  lemma {:induction false} CountOnMonotone(s1: Dict<bool>, s2: Dict<bool>, names: seq<string>)
    requires forall n :: On(s1, n) ==> On(s2, n)
    ensures CountOn(s1, names) <= CountOn(s2, names)
  {
    if names != [] {
      CountOnMonotone(s1, s2, names[1..]);
    }
  }

  lemma {:induction false} CountOnNone(sections: Dict<bool>, names: seq<string>)
    requires forall i :: 0 <= i < |names| ==> !On(sections, names[i])
    ensures CountOn(sections, names) == 0
  {
    if names != [] {
      CountOnNone(sections, names[1..]);
    }
  }

  /** `calculate_structure_score`: a tier for the essential sections, a tier for the valuable
      ones and a bonus per essential section.  It never exceeds 85, so the cap at 100 never
      applies, and it is 0 when none of the seven sections is present. */
  function StructureScore(sections: Dict<bool>): (r: int)
    ensures 0 <= r <= 85
  {
    Min(EssentialTier(CountOn(sections, EssentialSections)) +
      ValuableTier(CountOn(sections, ValuableSections)) +
      (if On(sections, "summary") then 10 else 0) + (if On(sections, "experience") then 15 else 0) +
      (if On(sections, "education") then 10 else 0), 100)
  }

  method CalculateStructureScore(sections: Dict<bool>) returns (score: int)
    ensures score == StructureScore(sections)
  {
    score := 0;
    var presentEssential := CountOn(sections, EssentialSections);
    if presentEssential == 3 {
      score := score + 30;
    } else if presentEssential == 2 {
      score := score + 20;
    } else if presentEssential == 1 {
      score := score + 10;
    }
    var presentValuable := CountOn(sections, ValuableSections);
    if presentValuable >= 3 {
      score := score + 20;
    } else if presentValuable >= 2 {
      score := score + 15;
    } else if presentValuable >= 1 {
      score := score + 10;
    }
    if On(sections, "summary") {
      score := score + 10;
    }
    if On(sections, "experience") {
      score := score + 15;
    }
    if On(sections, "education") {
      score := score + 10;
    }
    score := Min(score, 100);
  }

  /** With none of the seven sections present the structure score is 0. */
  lemma StructureScoreNone(sections: Dict<bool>)
    requires forall i :: 0 <= i < |EssentialSections| ==> !On(sections, EssentialSections[i])
    requires forall i :: 0 <= i < |ValuableSections| ==> !On(sections, ValuableSections[i])
    ensures StructureScore(sections) == 0
  {
    CountOnNone(sections, EssentialSections);
    CountOnNone(sections, ValuableSections);
    assert !On(sections, EssentialSections[0]) && !On(sections, EssentialSections[1]) &&
      !On(sections, EssentialSections[2]);
  }

  /** With all three essential sections and at least three valuable ones, the maximum 85. */
  lemma StructureScoreTop(sections: Dict<bool>)
    requires forall i :: 0 <= i < |EssentialSections| ==> On(sections, EssentialSections[i])
    requires CountOn(sections, ValuableSections) >= 3
    ensures StructureScore(sections) == 85
  {
    assert On(sections, EssentialSections[0]) && On(sections, EssentialSections[1]) &&
      On(sections, EssentialSections[2]);
    var es := EssentialSections;
    assert es[1..] == ["experience", "education"] && es[1..][1..] == ["education"] && es[1..][1..][1..] == [];
    assert CountOn(sections, es[1..][1..]) == 1;
    assert CountOn(sections, es[1..]) == 2;
  }

  /** Adding sections never lowers the structure score. */
  lemma StructureScoreMonotone(s1: Dict<bool>, s2: Dict<bool>)
    requires forall n :: On(s1, n) ==> On(s2, n)
    ensures StructureScore(s1) <= StructureScore(s2)
  {
    CountOnMonotone(s1, s2, EssentialSections);
    CountOnMonotone(s1, s2, ValuableSections);
    var e1, e2 := CountOn(s1, EssentialSections), CountOn(s2, EssentialSections);
    assert EssentialTier(e1) <= EssentialTier(e2);
  }

  // ----- section score -----

  /** The weight sum over the present sections, in map order; a present section without a
      weight adds 0. */
  function SectionScore(sections: Dict<bool>, weights: Dict<int>): int
    decreases |sections|
  {
    if sections == [] then 0
    else
      var last := sections[|sections| - 1];
      SectionScore(sections[..|sections| - 1], weights) + (if last.1 then Get(weights, last.0, 0) else 0)
  }

  /** Only present sections with a weight contribute: with none, the section score is 0. */
  lemma {:induction false} SectionScoreNone(sections: Dict<bool>, weights: Dict<int>)
    requires forall i :: 0 <= i < |sections| ==> sections[i].1 ==> !HasKey(weights, sections[i].0)
    ensures SectionScore(sections, weights) == 0
    decreases |sections|
  {
    if sections != [] {
      var init := sections[..|sections| - 1];
      assert forall i :: 0 <= i < |init| ==> init[i] == sections[i];
      SectionScoreNone(init, weights);
    }
  }

  /** Non-negative weights give a section score between 0 and the sum of all weights met. */
  lemma {:induction false} SectionScoreNonNegative(sections: Dict<bool>, weights: Dict<int>)
    requires forall i :: 0 <= i < |weights| ==> weights[i].1 >= 0
    ensures SectionScore(sections, weights) >= 0
    decreases |sections|
  {
    if sections != [] {
      var last := sections[|sections| - 1];
      SectionScoreNonNegative(sections[..|sections| - 1], weights);
      if HasKey(weights, last.0) {
        GetAt(weights, last.0, 0);
      }
    }
  }

  // ----- overall score and grade -----

  /** The weighted combination `0.3·section + 0.25·structure + 0.25·content + 0.2·impact`,
      in exact hundredths of a point. */
  function Hundredths(section: int, structure: int, content: int, impact: int): int {
    30 * section + 25 * structure + 25 * content + 20 * impact
  }

  /** `min(overall, 100)` before rounding, as the grade sees it. */
  function Capped(h: int): (r: real)
    ensures r <= 100.0
    ensures h <= 10000 ==> r == h as real / 100.0
  {
    if h > 10000 then 100.0 else h as real / 100.0
  }

  /** `round(min(overall, 100), 1)`: the int 100 when the cap applies (`min` keeps its first
      argument on a tie), otherwise the float rounded to tenths, halves upwards. */
  function Reported(h: int): (n: Num)
    ensures h > 10000 ==> n == Int(100)
    ensures h <= 10000 ==> n.Float? && 10 * n.tenths - 5 <= h < 10 * n.tenths + 5
  {
    if h > 10000 then Int(100) else Float((h + 5) / 10)
  }

  const GradeLadder: seq<string> := ["D", "C-", "C", "C+", "B-", "B", "B+", "A-", "A", "A+"]

  /** The inclusive lower bounds of the grades above "D". */
  const GradeThresholds: seq<real> := [50.0, 55.0, 60.0, 65.0, 70.0, 75.0, 80.0, 85.0, 90.0]

  /** `get_grade`. */
  function GetGrade(score: real): (g: string)
    ensures g in GradeLadder
  {
    if score >= 90.0 then "A+"
    else if score >= 85.0 then "A"
    else if score >= 80.0 then "A-"
    else if score >= 75.0 then "B+"
    else if score >= 70.0 then "B"
    else if score >= 65.0 then "B-"
    else if score >= 60.0 then "C+"
    else if score >= 55.0 then "C"
    else if score >= 50.0 then "C-"
    else "D"
  }

  /** How many of the thresholds `score` reaches. */
  function Passed(score: real, thresholds: seq<real>): (n: nat)
    ensures n <= |thresholds|
  {
    if thresholds == [] then 0
    else (if score >= thresholds[0] then 1 else 0) + Passed(score, thresholds[1..])
  }

  lemma {:induction false} PassedMonotone(s1: real, s2: real, thresholds: seq<real>)
    requires s1 <= s2
    ensures Passed(s1, thresholds) <= Passed(s2, thresholds)
  {
    if thresholds != [] {
      PassedMonotone(s1, s2, thresholds[1..]);
    }
  }

  /** The grade is the rung of the ladder given by the number of thresholds reached. */
  lemma GradeIsLadderRung(score: real)
    ensures GetGrade(score) == GradeLadder[Passed(score, GradeThresholds)]
  {
    var t := GradeThresholds;
    assert Passed(score, t[8..]) == if score >= 90.0 then 1 else 0;
    assert Passed(score, t[7..]) == (if score >= 85.0 then 1 else 0) + Passed(score, t[8..]);
    assert Passed(score, t[6..]) == (if score >= 80.0 then 1 else 0) + Passed(score, t[7..]);
    assert Passed(score, t[5..]) == (if score >= 75.0 then 1 else 0) + Passed(score, t[6..]);
    assert Passed(score, t[4..]) == (if score >= 70.0 then 1 else 0) + Passed(score, t[5..]);
    assert Passed(score, t[3..]) == (if score >= 65.0 then 1 else 0) + Passed(score, t[4..]);
    assert Passed(score, t[2..]) == (if score >= 60.0 then 1 else 0) + Passed(score, t[3..]);
    assert Passed(score, t[1..]) == (if score >= 55.0 then 1 else 0) + Passed(score, t[2..]);
  }

  /** The position of a grade on the ladder. */
  function GradeRank(g: string): (k: nat)
    requires g in GradeLadder
    ensures k < |GradeLadder| && GradeLadder[k] == g
  {
    if g == "D" then 0 else if g == "C-" then 1 else if g == "C" then 2 else if g == "C+" then 3
    else if g == "B-" then 4 else if g == "B" then 5 else if g == "B+" then 6
    else if g == "A-" then 7 else if g == "A" then 8 else 9
  }

  /** A higher score never yields a lower grade. */
  lemma GradeMonotone(s1: real, s2: real)
    requires s1 <= s2
    ensures GradeRank(GetGrade(s1)) <= GradeRank(GetGrade(s2))
  {
    GradeIsLadderRung(s1);
    GradeIsLadderRung(s2);
    PassedMonotone(s1, s2, GradeThresholds);
    var k1, k2 := Passed(s1, GradeThresholds), Passed(s2, GradeThresholds);
    assert GradeRank(GradeLadder[k1]) == k1 && GradeRank(GradeLadder[k2]) == k2;
  }

  /** The grade is taken before rounding: 89.95 shows as 90.0 but earns "A", not "A+". */
  lemma GradeBeforeRounding()
    ensures Reported(8995) == Float(900)
    ensures GetGrade(Capped(8995)) == "A"
  {
  }

  // ----- strengths and weaknesses -----

  const ExperienceStrength := "Strong work experience section"
  const ProjectsStrength := "Includes project portfolio"
  const CertificationsStrength := "Professional certifications listed"
  const QuantifiableStrength := "Quantifiable achievements present"
  const LeadershipStrength := "Leadership experience demonstrated"

  const StrengthMessages: seq<string> :=
    [ExperienceStrength, ProjectsStrength, CertificationsStrength, QuantifiableStrength, LeadershipStrength]

  const SummaryWeakness := "Missing professional summary"
  const ExperienceWeakness := "Missing work experience section"
  const EducationWeakness := "Missing education section"
  const QuantifiableWeakness := "Limited quantifiable achievements"
  const ActionVerbWeakness := "Few action verbs used"

  const WeaknessMessages: seq<string> :=
    [SummaryWeakness, ExperienceWeakness, EducationWeakness, QuantifiableWeakness, ActionVerbWeakness]

  const PercentPattern := "\\d+%"
  const LeadVerbsPattern := "\\b(led|managed|supervised)\\b"
  const BuildVerbsPattern := "\\b(developed|implemented|created)\\b"

  /** `[x]` when `flag` holds, `[]` otherwise: one conditional `append`. */
  function Opt(flag: bool, x: string): seq<string> {
    if flag then [x] else []
  }

  lemma {:induction false} SubsequenceConcat<T>(a: seq<T>, b: seq<T>, c: seq<T>, d: seq<T>)
    requires IsSubsequence(a, b) && IsSubsequence(c, d)
    ensures IsSubsequence(a + c, b + d)
    decreases |d|
  {
    if d == [] {
      assert c == [];
      assert a + c == a && b + d == b;
    } else {
      var bd, ac := b + d, a + c;
      assert bd[..|bd| - 1] == b + d[..|d| - 1];
      if c != [] && c[|c| - 1] == d[|d| - 1] && IsSubsequence(c[..|c| - 1], d[..|d| - 1]) {
        SubsequenceConcat(a, b, c[..|c| - 1], d[..|d| - 1]);
        assert ac[..|ac| - 1] == a + c[..|c| - 1];
      } else {
        SubsequenceConcat(a, b, c, d[..|d| - 1]);
      }
    }
  }

  lemma OptIsSubsequence(flag: bool, x: string)
    ensures IsSubsequence(Opt(flag, x), [x])
  {
    if flag {
      assert Opt(flag, x)[..0] == [];
    }
  }

  /** Five conditional `append`s in a row keep the order of their messages. */
  lemma AppendsInOrder(m: seq<string>, f: seq<bool>)
    requires |m| == 5 && |f| == 5
    ensures IsSubsequence(Opt(f[0], m[0]) + Opt(f[1], m[1]) + Opt(f[2], m[2]) + Opt(f[3], m[3]) + Opt(f[4], m[4]), m)
  {
    assert [m[0], m[1]] == [m[0]] + [m[1]];
    assert [m[0], m[1], m[2]] == [m[0], m[1]] + [m[2]];
    assert [m[0], m[1], m[2], m[3]] == [m[0], m[1], m[2]] + [m[3]];
    assert m == [m[0], m[1], m[2], m[3]] + [m[4]];
    OptIsSubsequence(f[0], m[0]);
    OptIsSubsequence(f[1], m[1]);
    OptIsSubsequence(f[2], m[2]);
    OptIsSubsequence(f[3], m[3]);
    OptIsSubsequence(f[4], m[4]);
    var p1 := Opt(f[0], m[0]) + Opt(f[1], m[1]);
    var p2 := p1 + Opt(f[2], m[2]);
    var p3 := p2 + Opt(f[3], m[3]);
    SubsequenceConcat(Opt(f[0], m[0]), [m[0]], Opt(f[1], m[1]), [m[1]]);
    SubsequenceConcat(p1, [m[0], m[1]], Opt(f[2], m[2]), [m[2]]);
    SubsequenceConcat(p2, [m[0], m[1], m[2]], Opt(f[3], m[3]), [m[3]]);
    SubsequenceConcat(p3, [m[0], m[1], m[2], m[3]], Opt(f[4], m[4]), [m[4]]);
  }

  /** With distinct messages, a message is in the result of five conditional `append`s exactly
      when its flag is set. */
  lemma AppendsMembers(m: seq<string>, f: seq<bool>)
    requires |m| == 5 && |f| == 5
    requires forall i, j :: 0 <= i < j < 5 ==> m[i] != m[j]
    ensures var r := Opt(f[0], m[0]) + Opt(f[1], m[1]) + Opt(f[2], m[2]) + Opt(f[3], m[3]) + Opt(f[4], m[4]);
      forall i :: 0 <= i < 5 ==> (m[i] in r <==> f[i])
  {
    var r := Opt(f[0], m[0]) + Opt(f[1], m[1]) + Opt(f[2], m[2]) + Opt(f[3], m[3]) + Opt(f[4], m[4]);
    forall i | 0 <= i < 5 ensures m[i] in r <==> f[i] {
      assert forall j :: 0 <= j < 5 ==> (m[i] in Opt(f[j], m[j]) <==> f[j] && i == j);
    }
  }

  lemma StrengthMessagesDistinct()
    ensures forall i, j :: 0 <= i < j < 5 ==> StrengthMessages[i] != StrengthMessages[j]
  {
    assert |ExperienceStrength| == 30 && |ProjectsStrength| == 26 && |QuantifiableStrength| == 33;
    assert CertificationsStrength[0] != LeadershipStrength[0];
  }

  lemma WeaknessMessagesDistinct()
    ensures forall i, j :: 0 <= i < j < 5 ==> WeaknessMessages[i] != WeaknessMessages[j]
  {
    assert |SummaryWeakness| == 28 && |ExperienceWeakness| == 31 && |EducationWeakness| == 25;
    assert |QuantifiableWeakness| == 33 && |ActionVerbWeakness| == 21;
  }

  /** The text-based checks, made only when there is text. */
  predicate QuantifiableStrong(rx: Engine, text: string) {
    text != "" && CountAll(rx, PercentPattern, Lower(text)) >= 3
  }

  predicate LeadershipShown(rx: Engine, text: string) {
    text != "" && CountAll(rx, LeadVerbsPattern, Lower(text)) >= 2
  }

  predicate QuantifiableWeak(rx: Engine, text: string) {
    text != "" && CountAll(rx, PercentPattern, Lower(text)) < 2
  }

  predicate ActionVerbsWeak(rx: Engine, text: string) {
    text != "" && CountAll(rx, BuildVerbsPattern, Lower(text)) < 3
  }

  /** `identify_strengths`: a message for each present key section, and two text-based checks
      only when there is text. */
  function Strengths(rx: Engine, sections: Dict<bool>, text: string): (r: seq<string>)
    ensures ExperienceStrength in r <==> On(sections, "experience")
    ensures ProjectsStrength in r <==> On(sections, "projects")
    ensures CertificationsStrength in r <==> On(sections, "certifications")
    ensures QuantifiableStrength in r <==> text != "" && CountAll(rx, PercentPattern, Lower(text)) >= 3
    ensures LeadershipStrength in r <==> text != "" && CountAll(rx, LeadVerbsPattern, Lower(text)) >= 2
    ensures IsSubsequence(r, StrengthMessages)
  {
    var flags := [On(sections, "experience"), On(sections, "projects"),
      On(sections, "certifications"), QuantifiableStrong(rx, text), LeadershipShown(rx, text)];
    AppendsInOrder(StrengthMessages, flags);
    StrengthMessagesDistinct();
    AppendsMembers(StrengthMessages, flags);
    Opt(On(sections, "experience"), ExperienceStrength) + Opt(On(sections, "projects"), ProjectsStrength) +
    Opt(On(sections, "certifications"), CertificationsStrength) +
    Opt(QuantifiableStrong(rx, text), QuantifiableStrength) + Opt(LeadershipShown(rx, text), LeadershipStrength)
  }

  method IdentifyStrengths(rx: Engine, sections: Dict<bool>, text: string) returns (strengths: seq<string>)
    ensures strengths == Strengths(rx, sections, text)
  {
    strengths := [];
    if On(sections, "experience") {
      strengths := strengths + [ExperienceStrength];
    }
    if On(sections, "projects") {
      strengths := strengths + [ProjectsStrength];
    }
    if On(sections, "certifications") {
      strengths := strengths + [CertificationsStrength];
    }
    ghost var sectionPart := strengths;
    assert sectionPart == Opt(On(sections, "experience"), ExperienceStrength) +
      Opt(On(sections, "projects"), ProjectsStrength) + Opt(On(sections, "certifications"), CertificationsStrength);
    if text != "" {
      var textLower := Lower(text);
      if |rx(PercentPattern, textLower)| >= 3 {
        strengths := strengths + [QuantifiableStrength];
      }
      if |rx(LeadVerbsPattern, textLower)| >= 2 {
        strengths := strengths + [LeadershipStrength];
      }
    }
    assert strengths == sectionPart + Opt(QuantifiableStrong(rx, text), QuantifiableStrength) +
      Opt(LeadershipShown(rx, text), LeadershipStrength);
  }

  /** `identify_weaknesses`: a message for each missing essential section, and two text-based
      checks only when there is text. */
  function Weaknesses(rx: Engine, sections: Dict<bool>, text: string): (r: seq<string>)
    ensures SummaryWeakness in r <==> !On(sections, "summary")
    ensures ExperienceWeakness in r <==> !On(sections, "experience")
    ensures EducationWeakness in r <==> !On(sections, "education")
    ensures QuantifiableWeakness in r <==> text != "" && CountAll(rx, PercentPattern, Lower(text)) < 2
    ensures ActionVerbWeakness in r <==> text != "" && CountAll(rx, BuildVerbsPattern, Lower(text)) < 3
    ensures IsSubsequence(r, WeaknessMessages)
  {
    var flags := [!On(sections, "summary"), !On(sections, "experience"),
      !On(sections, "education"), QuantifiableWeak(rx, text), ActionVerbsWeak(rx, text)];
    AppendsInOrder(WeaknessMessages, flags);
    WeaknessMessagesDistinct();
    AppendsMembers(WeaknessMessages, flags);
    Opt(!On(sections, "summary"), SummaryWeakness) + Opt(!On(sections, "experience"), ExperienceWeakness) +
    Opt(!On(sections, "education"), EducationWeakness) +
    Opt(QuantifiableWeak(rx, text), QuantifiableWeakness) + Opt(ActionVerbsWeak(rx, text), ActionVerbWeakness)
  }

  method IdentifyWeaknesses(rx: Engine, sections: Dict<bool>, text: string) returns (weaknesses: seq<string>)
    ensures weaknesses == Weaknesses(rx, sections, text)
  {
    weaknesses := [];
    if !On(sections, "summary") {
      weaknesses := weaknesses + [SummaryWeakness];
    }
    if !On(sections, "experience") {
      weaknesses := weaknesses + [ExperienceWeakness];
    }
    if !On(sections, "education") {
      weaknesses := weaknesses + [EducationWeakness];
    }
    ghost var sectionPart := weaknesses;
    assert sectionPart == Opt(!On(sections, "summary"), SummaryWeakness) +
      Opt(!On(sections, "experience"), ExperienceWeakness) + Opt(!On(sections, "education"), EducationWeakness);
    if text != "" {
      var textLower := Lower(text);
      if |rx(PercentPattern, textLower)| < 2 {
        weaknesses := weaknesses + [QuantifiableWeakness];
      }
      if |rx(BuildVerbsPattern, textLower)| < 3 {
        weaknesses := weaknesses + [ActionVerbWeakness];
      }
    }
    assert weaknesses == sectionPart + Opt(QuantifiableWeak(rx, text), QuantifiableWeakness) +
      Opt(ActionVerbsWeak(rx, text), ActionVerbWeakness);
  }

  // ----- the combined report -----

  /** The dictionary `score_resume` returns. */
  datatype ScoreReport = ScoreReport(
    overallScore: Num, breakdown: Dict<Num>, grade: string, strengths: seq<string>, weaknesses: seq<string>)

  const BreakdownKeys: seq<string> := ["section_score", "structure_score", "content_score", "impact_score"]

  /** `calculate_content_score(text) if text else 0`, and likewise for impact. */
  function ContentOrZero(rx: Engine, text: string): int {
    if text != "" then ContentScore(rx, text) else 0
  }

  function ImpactOrZero(rx: Engine, text: string): int {
    if text != "" then ImpactScore(rx, text) else 0
  }

  /** The hundredths of the weighted combination, before the cap. */
  function OverallHundredths(rx: Engine, sections: Dict<bool>, weights: Dict<int>, text: string): int {
    Hundredths(SectionScore(sections, weights), StructureScore(sections), ContentOrZero(rx, text), ImpactOrZero(rx, text))
  }

  /** `score_resume`: the overall score and the breakdown rounded for display, the grade taken
      from the unrounded overall score, and the strengths and weaknesses. */
  function Report(rx: Engine, sections: Dict<bool>, weights: Dict<int>, text: string): (r: ScoreReport)
    ensures Keys(r.breakdown) == BreakdownKeys
    ensures r.overallScore == Reported(OverallHundredths(rx, sections, weights, text))
    ensures r.grade == GetGrade(Capped(OverallHundredths(rx, sections, weights, text)))
    ensures r.breakdown[0].1 == Int(SectionScore(sections, weights))
    ensures r.breakdown[1].1 == Int(StructureScore(sections))
    ensures r.breakdown[2].1 == Int(ContentOrZero(rx, text)) && r.breakdown[3].1 == Int(ImpactOrZero(rx, text))
    ensures r.strengths == Strengths(rx, sections, text)
    ensures r.weaknesses == Weaknesses(rx, sections, text)
  {
    var h := OverallHundredths(rx, sections, weights, text);
    var r := ScoreReport(
      Reported(h),
      [("section_score", Int(SectionScore(sections, weights))), ("structure_score", Int(StructureScore(sections))),
       ("content_score", Int(ContentOrZero(rx, text))), ("impact_score", Int(ImpactOrZero(rx, text)))],
      GetGrade(Capped(h)),
      Strengths(rx, sections, text),
      Weaknesses(rx, sections, text));
    assert Keys(r.breakdown) == BreakdownKeys;
    r
  }

  method ScoreResume(rx: Engine, sections: Dict<bool>, weights: Dict<int>, text: string) returns (r: ScoreReport)
    ensures r == Report(rx, sections, weights, text)
  {
    var structureScore := CalculateStructureScore(sections);
    var contentScore := 0;
    var impactScore := 0;
    if text != "" {
      contentScore := CalculateContentScore(rx, text);
      impactScore := CalculateImpactScore(rx, text);
    }
    var sectionScore := SumPresentWeights(sections, weights);
    var h := 30 * sectionScore + 25 * structureScore + 25 * contentScore + 20 * impactScore;
    assert h == Hundredths(SectionScore(sections, weights), StructureScore(sections),
      ContentOrZero(rx, text), ImpactOrZero(rx, text));
    var overall := if h > 10000 then Int(100) else Float((h + 5) / 10);
    var strengths := IdentifyStrengths(rx, sections, text);
    var weaknesses := IdentifyWeaknesses(rx, sections, text);
    r := ScoreReport(overall,
      [("section_score", Int(sectionScore)), ("structure_score", Int(structureScore)),
       ("content_score", Int(contentScore)), ("impact_score", Int(impactScore))],
      GetGrade(Capped(h)), strengths, weaknesses);
  }

  /** The loop of `score_resume` that adds the weight of every present section. */
  method SumPresentWeights(sections: Dict<bool>, weights: Dict<int>) returns (sectionScore: int)
    ensures sectionScore == SectionScore(sections, weights)
  {
    sectionScore := 0;
    for i := 0 to |sections|
      invariant sectionScore == SectionScore(sections[..i], weights)
    {
      assert sections[..i + 1][..i] == sections[..i];
      if sections[i].1 {
        sectionScore := sectionScore + Get(weights, sections[i].0, 0);
      }
    }
    assert sections[..|sections|] == sections;
  }

  /** Without text, content and impact are 0 and no text-based strength or weakness is listed. */
  lemma EmptyTextReport(rx: Engine, sections: Dict<bool>, weights: Dict<int>)
    ensures Report(rx, sections, weights, "").breakdown[2].1 == Int(0)
    ensures Report(rx, sections, weights, "").breakdown[3].1 == Int(0)
    ensures QuantifiableStrength !in Report(rx, sections, weights, "").strengths
    ensures LeadershipStrength !in Report(rx, sections, weights, "").strengths
    ensures QuantifiableWeakness !in Report(rx, sections, weights, "").weaknesses
    ensures ActionVerbWeakness !in Report(rx, sections, weights, "").weaknesses
  {
  }

  /** A dictionary whose values are all `False` has no present section. */
  lemma {:induction false} AllOffNone(sections: Dict<bool>, name: string)
    requires forall i :: 0 <= i < |sections| ==> !sections[i].1
    ensures !On(sections, name)
    decreases |sections|
  {
    if sections != [] && sections[0].0 != name {
      assert forall i :: 0 <= i < |sections[1..]| ==> sections[1..][i] == sections[i + 1];
      AllOffNone(sections[1..], name);
    }
  }

  /** With every section `False` no rubric scores: the weighted combination is 0. */
  lemma NothingScores(rx: Engine, sections: Dict<bool>, weights: Dict<int>)
    requires forall i :: 0 <= i < |sections| ==> !sections[i].1
    ensures OverallHundredths(rx, sections, weights, "") == 0
  {
    SectionScoreNone(sections, weights);
    forall i | 0 <= i < |EssentialSections| ensures !On(sections, EssentialSections[i]) {
      AllOffNone(sections, EssentialSections[i]);
    }
    forall i | 0 <= i < |ValuableSections| ensures !On(sections, ValuableSections[i]) {
      AllOffNone(sections, ValuableSections[i]);
    }
    StructureScoreNone(sections);
  }

  /** No section and no text: the overall score is 0.0, the grade "D" and there is no strength. */
  lemma EmptyResume(rx: Engine, sections: Dict<bool>, weights: Dict<int>)
    requires forall i :: 0 <= i < |sections| ==> !sections[i].1
    ensures Report(rx, sections, weights, "").overallScore == Float(0)
    ensures Report(rx, sections, weights, "").grade == "D"
    ensures Report(rx, sections, weights, "").strengths == []
  {
    NothingScores(rx, sections, weights);
    AllOffNone(sections, "experience");
    AllOffNone(sections, "projects");
    AllOffNone(sections, "certifications");
    var r := Report(rx, sections, weights, "");
    assert r.strengths == Strengths(rx, sections, "");
    assert ExperienceStrength !in r.strengths && ProjectsStrength !in r.strengths;
    assert CertificationsStrength !in r.strengths;
    assert QuantifiableStrength !in r.strengths && LeadershipStrength !in r.strengths;
    FirstIsMessage(r.strengths);
  }

  /** A non-empty list of strength messages starts with one of them. */
  lemma FirstIsMessage(r: seq<string>)
    requires IsSubsequence(r, StrengthMessages)
    ensures r == [] || r[0] in StrengthMessages
  {
    SubsequenceMembers(r, StrengthMessages);
    if r != [] {
      assert r[0] in r;
    }
  }

  lemma {:induction false} SubsequenceMembers<T>(a: seq<T>, b: seq<T>)
    requires IsSubsequence(a, b)
    ensures forall x :: x in a ==> x in b
    decreases |b|
  {
    if a != [] {
      var n := |b| - 1;
      if a[|a| - 1] == b[n] && IsSubsequence(a[..|a| - 1], b[..n]) {
        SubsequenceMembers(a[..|a| - 1], b[..n]);
        assert a == a[..|a| - 1] + [b[n]];
        assert b == b[..n] + [b[n]];
      } else {
        SubsequenceMembers(a, b[..n]);
        assert b == b[..n] + [b[n]];
      }
    }
  }

  /** With non-negative weights, the displayed overall score lies between 0.0 and 100. */
  lemma OverallInRange(rx: Engine, sections: Dict<bool>, weights: Dict<int>, text: string)
    requires forall i :: 0 <= i < |weights| ==> weights[i].1 >= 0
    ensures 0 <= Report(rx, sections, weights, text).overallScore.Tenths() <= 1000
  {
    SectionScoreNonNegative(sections, weights);
  }

  /** The table `WEIGHTS` has no negative weight, so with it the displayed overall score lies
      between 0.0 and 100. */
  lemma WeightsKeepScoreInRange(rx: Engine, sections: Dict<bool>, text: string)
    ensures 0 <= Report(rx, sections, Weights, text).overallScore.Tenths() <= 1000
  {
    assert forall i :: 0 <= i < |Weights| ==> Weights[i].1 >= 0;
    OverallInRange(rx, sections, Weights, text);
  }
}
