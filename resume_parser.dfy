/** The text-level helpers of the résumé parser: the education-line scanner, the text statistics,
    the rule-based name strategies and the fallbacks of the basic contact extraction.

    The patterns of the education scanner and of the name strategies are simple enough to be
    stated exactly over ASCII text; the e-mail and phone patterns are left to the regular
    expression engine, a parameter. */
module ResumeParser {
  import opened Text
  import opened PyValues
  import opened Regex

  // ----- the education scanner -----

  /** The keywords that announce the education section, searched ignoring case. */
  const EducationKeywords: seq<string> :=
    ["education", "degree", "bachelor", "master", "phd", "doctorate", "university", "college", "school",
     "institute", "academy"]

  /** The line names one of the words, in any letter case. */
  predicate MentionsAny(line: string, words: seq<string>) {
    exists k :: 0 <= k < |words| && Contains(Lower(line), words[k])
  }

  /** `any(re.search(keyword, line, re.IGNORECASE) for keyword in education_keywords)`. */
  predicate MentionsEducation(line: string) {
    MentionsAny(line, EducationKeywords)
  }

  /** The degree words of the first degree pattern, in lower case: "bachelor", "master", "phd",
      "doctorate" (the third to sixth keywords) and "associate". */
  const DegreeWords: seq<string> := EducationKeywords[2..6] + ["associate"]

  /** The institution words of the second degree pattern, in lower case: "university",
      "college", "institute" and "school", all of them keywords. */
  const InstitutionWords: seq<string> :=
    [EducationKeywords[6], EducationKeywords[7], EducationKeywords[9], EducationKeywords[8]]

  /** `\s+[A-Za-z\s]+` at the start of `s`: a space, then a space or a letter. */
  predicate FieldOfStudy(s: string) {
    |s| >= 2 && IsSpace(s[0]) && (IsSpace(s[1]) || IsLetter(s[1]))
  }

  /** `\s+(?:of|in)\s+[A-Za-z\s]+` at the start of `s`, ignoring case. */
  predicate DegreeTail(s: string) {
    s != [] && IsSpace(s[0]) &&
    var a := LStrip(s);
    |a| >= 2 && (Lower(a[..2]) == "of" || Lower(a[..2]) == "in") && FieldOfStudy(a[2..])
  }

  /** Word `k` starts at position `i` of the line and the rest of the degree pattern follows
      it. */
  predicate DegreeWordAt(line: string, i: nat, words: seq<string>, k: nat)
    requires i < |line| && k < |words|
  {
    StartsWith(Lower(line)[i..], words[k]) && DegreeTail(line[i + |words[k]|..])
  }

  /** `(?:w1|w2|...)\s+(?:of|in)\s+[A-Za-z\s]+`, ignoring case, found with word `k`. */
  predicate DegreeWith(line: string, words: seq<string>, k: nat)
    requires k < |words|
  {
    exists i :: 0 <= i < |line| && DegreeWordAt(line, i, words, k)
  }

  /** `(?:Bachelor|Master|PhD|Doctorate|Associate)\s+(?:of|in)\s+[A-Za-z\s]+`, ignoring case. */
  predicate DegreeMention(line: string) {
    exists k :: 0 <= k < |DegreeWords| && DegreeWith(line, DegreeWords, k)
  }

  /** The text starts with one of the words, in any letter case. */
  predicate StartsWithAny(s: string, words: seq<string>) {
    exists k :: 0 <= k < |words| && StartsWith(Lower(s), words[k])
  }

  /** A letter ends right before position `j`, where a run of spaces leads to one of the
      words. */
  predicate WordAfterLetterAt(line: string, j: nat, words: seq<string>)
    requires 0 < j < |line|
  {
    IsLetter(line[j - 1]) && IsSpace(line[j]) && StartsWithAny(LStrip(line[j..]), words)
  }

  /** `[A-Za-z]+\s+(?:w1|w2|...)`, ignoring case. */
  predicate WordAfterLetter(line: string, words: seq<string>) {
    exists j :: 0 < j < |line| && WordAfterLetterAt(line, j, words)
  }

  /** `[A-Za-z]+\s+(?:University|College|Institute|School)`, ignoring case. */
  predicate InstitutionMention(line: string) {
    WordAfterLetter(line, InstitutionWords)
  }

  predicate FourDigits(s: string) {
    |s| >= 4 && IsDigit(s[0]) && IsDigit(s[1]) && IsDigit(s[2]) && IsDigit(s[3])
  }

  /** `\d{4}`: a year. */
  predicate YearMention(line: string) {
    exists i :: 0 <= i < |line| && FourDigits(line[i..])
  }

  /** How many of the three degree patterns the line matches. */
  function Indicators(line: string): (n: nat)
    ensures n <= 3
  {
    (if DegreeMention(line) then 1 else 0) + (if InstitutionMention(line) then 1 else 0) +
    (if YearMention(line) then 1 else 0)
  }

  /** The scanner's result for the lines still to come, in the given state, for a keyword test
      and an indicator count: blank lines are skipped, a keyword line switches the scanner into
      the education section and is dropped, and inside the section a line with at least two
      indicators is kept. */
  function Scan(lines: seq<string>, inSection: bool, keyword: string -> bool, indicators: string -> nat): seq<string>
    decreases |lines|
  {
    if lines == [] then []
    else
      var line := Strip(lines[0]);
      if line == "" then Scan(lines[1..], inSection, keyword, indicators)
      else if keyword(line) then Scan(lines[1..], true, keyword, indicators)
      else if inSection && indicators(line) >= 2 then [line] + Scan(lines[1..], inSection, keyword, indicators)
      else Scan(lines[1..], inSection, keyword, indicators)
  }

  function EducationLines(text: string): seq<string> {
    Scan(Split(text, '\n'), false, MentionsEducation, Indicators)
  }

  /** One line of the scanner's loop, for a keyword test and an indicator count. */
  method ScanLine(info0: seq<string>, inSection0: bool, lines: seq<string>, i: nat,
    keyword: string -> bool, indicators: string -> nat, ghost target: seq<string>)
    returns (info: seq<string>, inSection: bool)
    requires i < |lines| && info0 + Scan(lines[i..], inSection0, keyword, indicators) == target
    ensures info + Scan(lines[i + 1..], inSection, keyword, indicators) == target
  {
    assert lines[i..][1..] == lines[i + 1..];
    info, inSection := info0, inSection0;
    var line := Strip(lines[i]);
    if line == "" {
      return;
    }
    if keyword(line) {
      inSection := true;
      return;
    }
    if inSection {
      var count := indicators(line);
      if count >= 2 {
        info := info + [line];
      }
    }
  }

  /** `extract_education_info`: one pass over the lines with the in-section flag. */
  method ExtractEducationInfo(text: string) returns (info: seq<string>)
    ensures info == EducationLines(text)
  {
    var lines := Split(text, '\n');
    var inSection := false;
    info := [];
    for i := 0 to |lines|
      invariant info + Scan(lines[i..], inSection, MentionsEducation, Indicators) == EducationLines(text)
    {
      info, inSection := ScanLine(info, inSection, lines, i, MentionsEducation, Indicators, EducationLines(text));
    }
  }

  /** A line the scanner keeps once inside the section. */
  predicate IsEntry(line: string, keyword: string -> bool, indicators: string -> nat) {
    line != "" && !keyword(line) && indicators(line) >= 2
  }

  /** The stripped lines that are entries, in order. */
  function Entries(lines: seq<string>, keyword: string -> bool, indicators: string -> nat): (r: seq<string>)
    ensures forall m :: 0 <= m < |r| ==> IsEntry(r[m], keyword, indicators)
    decreases |lines|
  {
    if lines == [] then []
    else if IsEntry(Strip(lines[0]), keyword, indicators) then [Strip(lines[0])] + Entries(lines[1..], keyword, indicators)
    else Entries(lines[1..], keyword, indicators)
  }

  /** Every line stripped. */
  function StripAll(lines: seq<string>): (r: seq<string>)
    ensures |r| == |lines|
  {
    if lines == [] then [] else [Strip(lines[0])] + StripAll(lines[1..])
  }

  /** Line `k` of the stripped lines is line `k` stripped. */
  lemma {:induction false} StripAllAt(lines: seq<string>, k: nat)
    requires k < |lines|
    ensures StripAll(lines)[k] == Strip(lines[k])
    decreases k
  {
    if k > 0 {
      StripAllAt(lines[1..], k - 1);
    }
  }

  /** The position of the first line that passes the test, or the number of lines when none
      does. */
  function FirstPassing(lines: seq<string>, test: string -> bool): (k: nat)
    ensures k <= |lines|
    ensures k < |lines| ==> test(lines[k])
    ensures forall j :: 0 <= j < k ==> !test(lines[j])
    decreases |lines|
  {
    if lines == [] then 0
    else if test(lines[0]) then 0
    else 1 + FirstPassing(lines[1..], test)
  }

  /** The first passing stripped line is the first line when that passes, and one further than
      the first passing one among the rest otherwise. */
  lemma FirstPassingStep(lines: seq<string>, test: string -> bool)
    requires lines != []
    ensures test(Strip(lines[0])) ==> FirstPassing(StripAll(lines), test) == 0
    ensures !test(Strip(lines[0])) ==> FirstPassing(StripAll(lines), test) == 1 + FirstPassing(StripAll(lines[1..]), test)
  {
    var ls := StripAll(lines);
    assert ls == [Strip(lines[0])] + StripAll(lines[1..]);
    assert ls[1..] == StripAll(lines[1..]);
  }

  /** The lines after position `k` of the tail are the lines after position `k + 1`. */
  lemma TailFrom(lines: seq<string>, k: nat)
    requires lines != [] && k < |lines|
    ensures lines[1..][k..] == lines[k + 1..]
  {
  }

  /** Once inside the section the flag never resets: the scanner keeps exactly the entries. */
  lemma {:induction false} ScanInSection(lines: seq<string>, keyword: string -> bool, indicators: string -> nat)
    ensures Scan(lines, true, keyword, indicators) == Entries(lines, keyword, indicators)
    decreases |lines|
  {
    if lines != [] {
      ScanInSection(lines[1..], keyword, indicators);
    }
  }

  /** The scanner keeps exactly the entries after the first keyword line, and nothing when there
      is no keyword line. */
  lemma {:induction false} ScanFromStart(lines: seq<string>, keyword: string -> bool, indicators: string -> nat)
    ensures var k := FirstPassing(StripAll(lines), keyword);
      Scan(lines, false, keyword, indicators) ==
        if k == |lines| then [] else Entries(lines[k + 1..], keyword, indicators)
    requires !keyword("")
    decreases |lines|
  {
    if lines != [] {
      FirstPassingStep(lines, keyword);
      if keyword(Strip(lines[0])) {
        ScanInSection(lines[1..], keyword, indicators);
      } else {
        ScanFromStart(lines[1..], keyword, indicators);
        assert Scan(lines, false, keyword, indicators) == Scan(lines[1..], false, keyword, indicators);
        var k := FirstPassing(StripAll(lines[1..]), keyword);
        if k + 1 < |lines| {
          TailFrom(lines, k + 1);
        }
      }
    }
  }

  /** A blank line is no keyword line, so the education scanner meets the condition of
      `ScanFromStart`: its result is the entries after the first line naming a keyword. */
  lemma NoKeywordInBlank()
    ensures !MentionsEducation("")
  {
    assert forall k :: 0 <= k < |EducationKeywords| ==> EducationKeywords[k] != "";
  }

  // The keyword test swallows most of what the degree patterns look for.

  lemma StartsWithMeansContains(s: string, i: nat, w: string)
    requires i <= |s| && StartsWith(s[i..], w)
    ensures Contains(s, w)
  {
  }

  /** The spaces after position `j` end at position `m`. */
  lemma SpacesEnd(line: string, j: nat) returns (m: nat)
    requires j <= |line|
    ensures m <= |line| && LStrip(line[j..]) == line[m..]
  {
    var a := LStrip(line[j..]);
    m := |line| - |a|;
    assert a == line[j..][|line[j..]| - |a|..];
  }

  /** A word the rest of the line starts with, seen in the lower-case line. */
  lemma StartsWithAnyAt(line: string, m: nat, words: seq<string>) returns (k: nat)
    requires m <= |line| && StartsWithAny(line[m..], words)
    ensures k < |words| && StartsWith(Lower(line)[m..], words[k])
  {
    LowerSlice(line, m, |line|);
    assert line[m..|line|] == line[m..];
    k :| 0 <= k < |words| && StartsWith(Lower(line[m..]), words[k]);
  }

  /** A word found after a letter is found in the line. */
  lemma WordAfterLetterFound(line: string, words: seq<string>) returns (m: nat, k: nat)
    requires WordAfterLetter(line, words)
    ensures m <= |line| && k < |words| && StartsWith(Lower(line)[m..], words[k])
  {
    var j :| 0 < j < |line| && WordAfterLetterAt(line, j, words);
    m := SpacesEnd(line, j);
    k := StartsWithAnyAt(line, m, words);
  }

  /** A word found in a line whose lower-case form it starts at position `m` is mentioned. */
  lemma MentionedAt(line: string, m: nat, words: seq<string>, e: nat)
    requires m <= |line| && e < |words| && StartsWith(Lower(line)[m..], words[e])
    ensures MentionsAny(line, words)
  {
    StartsWithMeansContains(Lower(line), m, words[e]);
  }

  /** A line matching the institution pattern names an education keyword. */
  lemma InstitutionIsKeyword(line: string)
    requires InstitutionMention(line)
    ensures MentionsEducation(line)
  {
    var m, k := WordAfterLetterFound(line, InstitutionWords);
    var e := if k == 0 then 6 else if k == 1 then 7 else if k == 2 then 9 else 8;
    assert InstitutionWords[k] == EducationKeywords[e];
    MentionedAt(line, m, EducationKeywords, e);
  }

  lemma DegreeWordsAreKeywords(k: nat)
    requires k < 4
    ensures k < |DegreeWords| && k + 2 < |EducationKeywords| && DegreeWords[k] == EducationKeywords[k + 2]
  {
  }

  /** A line matching the degree pattern with any degree word but "associate" names an
      education keyword. */
  lemma DegreeIsKeyword(line: string, k: nat)
    requires k < 4 && DegreeWith(line, DegreeWords, k)
    ensures MentionsEducation(line)
  {
    DegreeWordsAreKeywords(k);
    DegreeWordMentioned(line, DegreeWords, k, EducationKeywords, k + 2);
  }

  lemma DegreeWordMentioned(line: string, words: seq<string>, k: nat, keywords: seq<string>, e: nat)
    requires k < |words| && DegreeWith(line, words, k) && e < |keywords| && words[k] == keywords[e]
    ensures MentionsAny(line, keywords)
  {
    var i :| 0 <= i < |line| && DegreeWordAt(line, i, words, k);
    MentionedAt(line, i, keywords, e);
  }

  /** What the scanner can return at all: since every keyword line is dropped, a returned line
      never matches the institution pattern, matches the degree pattern only through
      "Associate", and shows a year. */
  lemma EducationEntryShape(line: string)
    requires IsEntry(line, MentionsEducation, Indicators)
    ensures !InstitutionMention(line)
    ensures DegreeWith(line, DegreeWords, 4) && forall k :: 0 <= k < 4 ==> !DegreeWith(line, DegreeWords, k)
    ensures YearMention(line)
  {
    if InstitutionMention(line) {
      InstitutionIsKeyword(line);
    }
    forall k | 0 <= k < 4 ensures !DegreeWith(line, DegreeWords, k) {
      if DegreeWith(line, DegreeWords, k) {
        DegreeIsKeyword(line, k);
      }
    }
  }

  // ----- the scanner as evidently intended -----

  /** The scanner with the keyword test confined to entering the section: once inside, every
      non-blank line with at least two indicators is kept, keyword or not. */
  function IntendedScan(lines: seq<string>, inSection: bool, keyword: string -> bool, indicators: string -> nat): seq<string>
    decreases |lines|
  {
    if lines == [] then []
    else
      var line := Strip(lines[0]);
      if line == "" then IntendedScan(lines[1..], inSection, keyword, indicators)
      else if !inSection && keyword(line) then IntendedScan(lines[1..], true, keyword, indicators)
      else if inSection && indicators(line) >= 2 then [line] + IntendedScan(lines[1..], inSection, keyword, indicators)
      else IntendedScan(lines[1..], inSection, keyword, indicators)
  }

  function IntendedEducationLines(text: string): seq<string> {
    IntendedScan(Split(text, '\n'), false, MentionsEducation, Indicators)
  }

  /** A line the intended scanner keeps once inside the section. */
  predicate IsCandidate(line: string, indicators: string -> nat) {
    line != "" && indicators(line) >= 2
  }

  /** The stripped lines that are candidates, in order. */
  function Candidates(lines: seq<string>, indicators: string -> nat): (r: seq<string>)
    ensures forall m :: 0 <= m < |r| ==> IsCandidate(r[m], indicators)
    decreases |lines|
  {
    if lines == [] then []
    else if IsCandidate(Strip(lines[0]), indicators) then [Strip(lines[0])] + Candidates(lines[1..], indicators)
    else Candidates(lines[1..], indicators)
  }

  lemma {:induction false} IntendedInSection(lines: seq<string>, keyword: string -> bool, indicators: string -> nat)
    ensures IntendedScan(lines, true, keyword, indicators) == Candidates(lines, indicators)
    decreases |lines|
  {
    if lines != [] {
      IntendedInSection(lines[1..], keyword, indicators);
    }
  }

  /** The intended scanner keeps every candidate line after the first keyword line. */
  lemma {:induction false} IntendedFromStart(lines: seq<string>, keyword: string -> bool, indicators: string -> nat)
    ensures var k := FirstPassing(StripAll(lines), keyword);
      IntendedScan(lines, false, keyword, indicators) ==
        if k == |lines| then [] else Candidates(lines[k + 1..], indicators)
    requires !keyword("")
    decreases |lines|
  {
    if lines != [] {
      FirstPassingStep(lines, keyword);
      if keyword(Strip(lines[0])) {
        IntendedInSection(lines[1..], keyword, indicators);
      } else {
        IntendedFromStart(lines[1..], keyword, indicators);
        assert IntendedScan(lines, false, keyword, indicators) == IntendedScan(lines[1..], false, keyword, indicators);
        var k := FirstPassing(StripAll(lines[1..]), keyword);
        if k + 1 < |lines| {
          TailFrom(lines, k + 1);
        }
      }
    }
  }

  /** "Yale University 2018", built from its parts. */
  const YaleLine: string := "Yale" + " " + "University" + " 2018"

  /** "Education" is a header line the finding applies to. */
  lemma HeaderLineFacts()
    ensures '\n' !in "Education" && Strip("Education") == "Education" && MentionsEducation("Education")
  {
    assert Lower("Education")[0..][..9] == EducationKeywords[0];
    MentionedAt("Education", 0, EducationKeywords, 0);
  }

  /** A word of the list, after a letter and one space, is found by the institution pattern. */
  lemma WordAfterLetterExample(a: string, w: string, b: string, words: seq<string>, k: nat)
    requires a != [] && IsLetter(a[|a| - 1]) && w != [] && !IsSpace(w[0]) && k < |words| && Lower(w) == words[k]
    ensures WordAfterLetter(a + " " + w + b, words)
  {
    var line := a + " " + w + b;
    var j := |a|;
    assert line[j - 1] == a[|a| - 1] && line[j] == ' ';
    assert line[j..] == " " + (w + b);
    LStripOneSpace(w + b);
    StartsWithLower(w, b, words, k);
    assert WordAfterLetterAt(line, j, words);
  }

  /** One space before a word is stripped away. */
  lemma LStripOneSpace(t: string)
    requires t != [] && !IsSpace(t[0])
    ensures LStrip(" " + t) == t
  {
    assert (" " + t)[1..] == t;
  }

  /** A word whose lower case is in the list starts, in lower case, any text it begins. */
  lemma StartsWithLower(w: string, b: string, words: seq<string>, k: nat)
    requires k < |words| && Lower(w) == words[k]
    ensures StartsWithAny(w + b, words)
  {
    LowerAppend(w, b);
    assert Lower(w + b)[..|w|] == words[k];
  }

  /** "Yale University 2018" matches the institution pattern. */
  lemma YaleInstitution()
    ensures InstitutionMention(YaleLine)
  {
    assert Lower("University") == EducationKeywords[6];
    WordAfterLetterExample("Yale", "University", " 2018", InstitutionWords, 0);
  }

  /** "Yale University 2018" matches the year pattern. */
  lemma YaleYear()
    ensures YearMention(YaleLine)
  {
    assert FourDigits(YaleLine[16..]);
  }

  /** "Yale University 2018" is a single line. */
  lemma YaleSingleLine()
    ensures '\n' !in YaleLine
  {
    assert forall i :: 0 <= i < |YaleLine| ==> YaleLine[i] != '\n';
  }

  /** "Yale University 2018" has no surrounding whitespace. */
  lemma YaleStripped()
    ensures Strip(YaleLine) == YaleLine
  {
    assert LStrip(YaleLine) == YaleLine;
  }

  /** A line naming an institution and a year is a keyword line with two indicators. */
  lemma InstitutionAndYear(line: string)
    requires InstitutionMention(line) && YearMention(line)
    ensures line != "" && MentionsEducation(line) && Indicators(line) >= 2
  {
    InstitutionIsKeyword(line);
  }

  /** A degree line right under its header is lost as written and kept as intended: under any
      header line, a line naming an institution and a year, such as "Yale University 2018",
      matches two of the three degree patterns, yet the scanner drops it because it names a
      keyword. */
  lemma EducationFinding(header: string, line: string)
    requires '\n' !in header && Strip(header) == header && header != "" && MentionsEducation(header)
    requires '\n' !in line && Strip(line) == line && InstitutionMention(line) && YearMention(line)
    ensures EducationLines(header + "\n" + line) == []
    ensures IntendedEducationLines(header + "\n" + line) == [line]
  {
    InstitutionAndYear(line);
    KeywordLineUnderHeader(header, line);
  }

  /** The instance itself: "Education\nYale University 2018" yields no education line as
      written, and the Yale line as intended. */
  lemma YaleInstance(header: string, line: string)
    requires SameText(header, "Education") && SameText(line, YaleLine)
    ensures EducationLines(header + "\n" + line) == []
    ensures IntendedEducationLines(header + "\n" + line) == [line]
  {
    YaleFacts(header, line);
    EducationFinding(header, line);
  }

  lemma YaleFacts(header: string, line: string)
    requires SameText(header, "Education") && SameText(line, YaleLine)
    ensures '\n' !in header && Strip(header) == header && header != "" && MentionsEducation(header)
    ensures '\n' !in line && Strip(line) == line && InstitutionMention(line) && YearMention(line)
  {
    assert header == "Education" && line == YaleLine;
    HeaderLineFacts();
    YaleInstitution();
    YaleYear();
    YaleSingleLine();
    YaleStripped();
  }

  /** Under a header line, any line that names a keyword and matches two degree patterns is
      dropped as written and kept as intended. */
  lemma KeywordLineUnderHeader(header: string, line: string)
    requires '\n' !in header && Strip(header) == header && header != "" && MentionsEducation(header)
    requires '\n' !in line && Strip(line) == line && line != "" && MentionsEducation(line) && Indicators(line) >= 2
    ensures EducationLines(header + "\n" + line) == []
    ensures IntendedEducationLines(header + "\n" + line) == [line]
  {
    TwoLinesScanned(header, line, MentionsEducation, Indicators);
  }

  /** Both scanners on a two-line text: a keyword line, then a keyword line with two indicators. */
  lemma TwoLinesScanned(header: string, line: string, keyword: string -> bool, indicators: string -> nat)
    requires '\n' !in header && Strip(header) == header && header != "" && keyword(header)
    requires '\n' !in line && Strip(line) == line && line != "" && keyword(line) && indicators(line) >= 2
    ensures Scan(Split(header + "\n" + line, '\n'), false, keyword, indicators) == []
    ensures IntendedScan(Split(header + "\n" + line, '\n'), false, keyword, indicators) == [line]
  {
    TwoLines(header, line);
    ScanPair(header, line, keyword, indicators);
  }

  /** A text with one line break splits into the two lines around it. */
  lemma TwoLines(header: string, line: string)
    requires '\n' !in header && '\n' !in line
    ensures Split(header + "\n" + line, '\n') == [header, line]
  {
    SplitAppend(header, line, '\n');
    assert header + "\n" + line == header + ['\n'] + line;
    SplitWithoutSeparator(header, '\n');
    SplitWithoutSeparator(line, '\n');
  }

  /** Both scanners on a keyword line followed by a non-keyword line. */
  lemma ScanPair(header: string, line: string, keyword: string -> bool, indicators: string -> nat)
    requires Strip(header) == header && header != "" && keyword(header)
    requires Strip(line) == line && line != "" && keyword(line) && indicators(line) >= 2
    ensures Scan([header, line], false, keyword, indicators) == []
    ensures IntendedScan([header, line], false, keyword, indicators) == [line]
  {
    var lines := [header, line];
    assert lines[1..] == [line] && [line][1..] == [];
    assert Scan([line], true, keyword, indicators) == Scan([], true, keyword, indicators) == [];
    assert IntendedScan([line], true, keyword, indicators) == [line] + IntendedScan([], true, keyword, indicators);
  }

  // ----- text statistics -----

  /** A character of the class `[.!?]`. */
  predicate IsTerminator(c: char) {
    c == '.' || c == '!' || c == '?'
  }

  /** The text without its terminators. */
  function WithoutTerminators(s: string): (r: string)
    ensures |r| <= |s|
  {
    if s == [] then []
    else if IsTerminator(s[0]) then WithoutTerminators(s[1..])
    else [s[0]] + WithoutTerminators(s[1..])
  }

  /** `re.split(r'[.!?]+', s)`: the pieces between maximal runs of terminators, an empty piece
      before a leading run and after a trailing one. */
  function SentencePieces(s: string): (r: seq<string>)
    ensures |r| >= 1
    ensures forall k :: 0 <= k < |r| ==> forall i :: 0 <= i < |r[k]| ==> !IsTerminator(r[k][i])
    decreases |s|
  {
    if s == [] then [""]
    else
      var rest := SentencePieces(s[1..]);
      if !IsTerminator(s[0]) then [[s[0]] + rest[0]] + rest[1..]
      else if |s| > 1 && IsTerminator(s[1]) then rest
      else [""] + rest
  }

  /** The pieces put back together are the text without its terminators: the split loses
      nothing else. */
  lemma {:induction false} PiecesConcat(s: string)
    ensures Concat(SentencePieces(s)) == WithoutTerminators(s)
    decreases |s|
  {
    if s != [] {
      var rest := SentencePieces(s[1..]);
      PiecesConcat(s[1..]);
      if !IsTerminator(s[0]) {
        var r := [[s[0]] + rest[0]] + rest[1..];
        assert r[1..] == rest[1..];
        assert rest == [rest[0]] + rest[1..];
        assert Concat(rest) == rest[0] + Concat(rest[1..]);
      } else if !(|s| > 1 && IsTerminator(s[1])) {
        assert ([""] + rest)[1..] == rest;
      }
    }
  }

  /** Every character is whitespace. */
  predicate AllSpace(s: string) {
    forall i :: 0 <= i < |s| ==> IsSpace(s[i])
  }

  /** The number of pieces that are not blank once stripped: `len([s for s in sentences if s.strip()])`. */
  function NonBlankCount(pieces: seq<string>): (n: nat)
    ensures n <= |pieces|
    ensures n == 0 <==> AllBlank(pieces)
  {
    if pieces == [] then 0
    else
      StripEmpty(pieces[0]);
      (if Strip(pieces[0]) != "" then 1 else 0) + NonBlankCount(pieces[1..])
  }

  /** The sentence count of the statistics. */
  function SentenceCount(s: string): nat {
    NonBlankCount(SentencePieces(s))
  }

  /** A text made of nothing but whitespace and terminators, such as "..." or "   ". */
  predicate NoSentenceText(s: string) {
    forall i :: 0 <= i < |s| ==> IsSpace(s[i]) || IsTerminator(s[i])
  }

  /** Every piece of the split is blank exactly when the text holds only whitespace and
      terminators. */
  lemma {:induction false} BlankPieces(s: string)
    ensures AllBlank(SentencePieces(s)) <==> NoSentenceText(s)
    decreases |s|
  {
    if s != [] {
      BlankPieces(s[1..]);
      var rest := SentencePieces(s[1..]);
      if !IsTerminator(s[0]) {
        BlankExtendFirst(s[0], rest);
      } else if !(|s| > 1 && IsTerminator(s[1])) {
        BlankPrependEmpty(rest);
      }
      NoSentenceTail(s);
    }
  }

  /** Every piece is whitespace only. */
  predicate AllBlank(pieces: seq<string>) {
    forall k :: 0 <= k < |pieces| ==> AllSpace(pieces[k])
  }

  lemma BlankExtendFirst(c: char, rest: seq<string>)
    requires rest != []
    ensures AllBlank([[c] + rest[0]] + rest[1..]) <==> IsSpace(c) && AllBlank(rest)
  {
    var r := [[c] + rest[0]] + rest[1..];
    assert forall k :: 1 <= k < |r| ==> r[k] == rest[k];
    SpaceFirst(c, rest[0]);
  }

  lemma SpaceFirst(c: char, t: string)
    ensures AllSpace([c] + t) <==> IsSpace(c) && AllSpace(t)
  {
    var u := [c] + t;
    if AllSpace(u) {
      assert IsSpace(u[0]);
      forall i | 0 <= i < |t| ensures IsSpace(t[i]) {
        assert t[i] == u[i + 1];
      }
    }
  }

  lemma BlankPrependEmpty(rest: seq<string>)
    ensures AllBlank([""] + rest) <==> AllBlank(rest)
  {
    var r := [""] + rest;
    if AllBlank(rest) {
      forall k | 0 <= k < |r| ensures AllSpace(r[k]) {
        if k > 0 {
          assert r[k] == rest[k - 1];
        }
      }
    }
    if AllBlank(r) {
      forall k | 0 <= k < |rest| ensures AllSpace(rest[k]) {
        assert rest[k] == r[k + 1];
      }
    }
  }

  lemma NoSentenceTail(s: string)
    requires s != []
    ensures NoSentenceText(s) <==> (IsSpace(s[0]) || IsTerminator(s[0])) && NoSentenceText(s[1..])
  {
    assert forall i :: 1 <= i < |s| ==> s[i] == s[1..][i - 1];
  }

  /** The sentence count is zero exactly when the text holds only whitespace and terminators. */
  lemma NoSentenceExactly(s: string)
    ensures SentenceCount(s) == 0 <==> NoSentenceText(s)
  {
    BlankPieces(s);
  }

  /** The statistics reported for a non-empty text. */
  datatype TextStatistics = TextStatistics(
    wordCount: nat,
    sentenceCount: nat,
    characterCount: nat,
    averageWordsPerSentence: real,
    hasEmail: bool,
    hasPhone: bool,
    hasLinks: bool)

  /** What `get_text_statistics` does: the empty dictionary, the statistics, or a
      `ZeroDivisionError` raised while the average is computed. */
  datatype StatisticsOutcome = NoStatistics | Statistics(stats: TextStatistics) | DivisionByZero

  /** The e-mail pattern of the parser. */
  const EmailPattern: string := @"\b[A-Za-z0-9._%+-]+@[A-Za-z0-9.-]+\.[A-Z|a-z]{2,}\b"

  /** The US phone pattern, the first of the parser's phone patterns and the one the statistics
      use. */
  const UsPhonePattern: string := @"\+?1?[-.\s]?\(?[0-9]{3}\)?[-.\s]?[0-9]{3}[-.\s]?[0-9]{4}"

  /** `re.search(r'https?://', text)`. */
  predicate HasLink(text: string) {
    Contains(text, "http://") || Contains(text, "https://")
  }

  /** The statistics once the divisor is known to be positive. */
  function StatisticsWith(rx: Engine, text: string, sentences: nat, average: real): TextStatistics {
    TextStatistics(|Words(text)|, sentences, |text|, average,
      Search(rx, EmailPattern, text), Search(rx, UsPhonePattern, text), HasLink(text))
  }

  /** `get_text_statistics`.  Its guard `if sentences` tests the split list, which is never
      empty, so the average is always a division by the number of non-blank pieces. */
  function GetTextStatistics(rx: Engine, text: string): StatisticsOutcome {
    if text == "" then NoStatistics
    else if |SentencePieces(text)| == 0 then Statistics(StatisticsWith(rx, text, SentenceCount(text), 0.0))
    else if SentenceCount(text) == 0 then DivisionByZero
    else
      var n := SentenceCount(text);
      Statistics(StatisticsWith(rx, text, n, |Words(text)| as real / n as real))
  }

  /** The outcomes of the statistics: nothing for an empty text, and a division by zero exactly
      for a non-empty text of whitespace and terminators. */
  lemma StatisticsOutcomes(rx: Engine, text: string)
    ensures GetTextStatistics(rx, text) == NoStatistics <==> text == ""
    ensures GetTextStatistics(rx, text) == DivisionByZero <==> text != "" && NoSentenceText(text)
  {
    NoSentenceExactly(text);
  }

  /** Otherwise the statistics hold the whitespace-separated word count, the character count,
      the positive sentence count and the quotient of the first by the third. */
  lemma StatisticsFields(rx: Engine, text: string)
    requires GetTextStatistics(rx, text).Statistics?
    ensures var st := GetTextStatistics(rx, text).stats;
      st.wordCount == |Words(text)| && st.characterCount == |text| && st.sentenceCount == SentenceCount(text) &&
      st.sentenceCount > 0 && st.averageWordsPerSentence == st.wordCount as real / st.sentenceCount as real
  {
    assert SentenceCount(text) > 0;
  }

  /** The statistics as evidently intended: the average is 0 when no sentence is left after
      filtering. */
  function IntendedTextStatistics(rx: Engine, text: string): StatisticsOutcome {
    if text == "" then NoStatistics
    else
      var n := SentenceCount(text);
      Statistics(StatisticsWith(rx, text, n, if n > 0 then |Words(text)| as real / n as real else 0.0))
  }

  /** The intended statistics never divide by zero and agree with the statistics as written
      wherever those do not raise. */
  lemma IntendedStatisticsAgree(rx: Engine, text: string)
    ensures IntendedTextStatistics(rx, text) != DivisionByZero
    ensures GetTextStatistics(rx, text) != DivisionByZero ==> IntendedTextStatistics(rx, text) == GetTextStatistics(rx, text)
    ensures GetTextStatistics(rx, text) == DivisionByZero ==>
      IntendedTextStatistics(rx, text).stats.averageWordsPerSentence == 0.0
  {
  }

  /** "..." is a text that makes the statistics divide by zero. */
  lemma EllipsisDividesByZero(rx: Engine)
    ensures GetTextStatistics(rx, "...") == DivisionByZero
  {
    NoSentenceExactly("...");
  }

  // ----- the rule-based name strategies -----

  /** `[A-Z][a-z]+`: a capital letter followed by lower-case letters. */
  predicate CapitalisedWord(w: string) {
    |w| >= 2 && IsUpperChar(w[0]) && forall i :: 1 <= i < |w| ==> IsLowerChar(w[i])
  }

  /** `[A-Z]\.?` standing alone. */
  predicate Initial(w: string) {
    w != [] && IsUpperChar(w[0]) && (|w| == 1 || (|w| == 2 && w[1] == '.'))
  }

  /** `[A-Z]\.?[A-Z][a-z]+` run together into one word. */
  predicate InitialThenWord(w: string) {
    w != [] && IsUpperChar(w[0]) && (CapitalisedWord(w[1..]) || (|w| > 1 && w[1] == '.' && CapitalisedWord(w[2..])))
  }

  predicate AllCapitalised(ws: seq<string>) {
    forall k :: 0 <= k < |ws| ==> CapitalisedWord(ws[k])
  }

  // On a stripped line, `\s+` between the parts of a whole-line pattern marks exactly the
  // boundaries of `str.split()`, so each pattern is a condition on the words of the line.

  /** `^[A-Z][a-z]+(?:\s+[A-Z][a-z]+){1,3}$`: two to four capitalised words. */
  predicate FullNamePattern(line: string) {
    var ws := Words(line);
    2 <= |ws| <= 4 && AllCapitalised(ws)
  }

  /** `^[A-Z][a-z]+\s+[A-Z]\.?\s*[A-Z][a-z]+$`: a capitalised word, then an initial and a
      capitalised word, apart or run together. */
  predicate InitialNamePattern(line: string) {
    var ws := Words(line);
    (|ws| == 3 && CapitalisedWord(ws[0]) && Initial(ws[1]) && CapitalisedWord(ws[2])) ||
    (|ws| == 2 && CapitalisedWord(ws[0]) && InitialThenWord(ws[1]))
  }

  /** `^[A-Z][a-z]+\s+[A-Z][a-z]+$`: two capitalised words. */
  predicate TwoWordPattern(line: string) {
    var ws := Words(line);
    |ws| == 2 && AllCapitalised(ws)
  }

  /** The third pattern adds nothing to the first: every line it matches, the first matches. */
  lemma TwoWordIsFullName(line: string)
    requires TwoWordPattern(line)
    ensures FullNamePattern(line)
  {
  }

  /** The skip words of the second strategy, searched in the lower-cased line. */
  const PatternSkipWords: seq<string> := ["resume", "cv", "phone", "email", "@", "www", "http"]

  /** The skip words of the third strategy: those of the second, "objective" and "summary". */
  const CapitalsSkipWords: seq<string> := PatternSkipWords + ["objective", "summary"]

  /** The test of the second strategy on a stripped line: at least three characters, no skip
      word, one of the three patterns, and the match, which is the whole line, has at least two
      words and fewer than 50 characters. */
  predicate PatternCandidate(line: string) {
    |line| >= 3 && !MentionsAny(line, PatternSkipWords) &&
    (FullNamePattern(line) || InitialNamePattern(line) || TwoWordPattern(line)) &&
    |Words(line)| >= 2 && |line| < 50
  }

  /** `sum(1 for word in words if word and word[0].isupper())`. */
  function CapitalisedCount(ws: seq<string>): (n: nat)
    ensures n <= |ws|
    ensures n == |ws| <==> forall k :: 0 <= k < |ws| ==> ws[k] != [] && IsUpperChar(ws[k][0])
  {
    if ws == [] then 0
    else
      var n := (if ws[0] != [] && IsUpperChar(ws[0][0]) then 1 else 0) + CapitalisedCount(ws[1..]);
      assert forall k :: 1 <= k < |ws| ==> ws[k] == ws[1..][k - 1];
      n
  }

  /** The test of the third strategy on a stripped line: at least three characters, no skip
      word, two to four words, and `capitalized_words >= len(words) * 0.8`. */
  predicate CapitalsCandidate(line: string) {
    var ws := Words(line);
    |line| >= 3 && !MentionsAny(line, CapitalsSkipWords) && 2 <= |ws| <= 4 &&
    5 * CapitalisedCount(ws) >= 4 * |ws|
  }

  /** With two to four words, 80 per cent of them capitalised means all of them. */
  lemma EightyPercentIsAll(ws: seq<string>)
    requires 2 <= |ws| <= 4
    ensures 5 * CapitalisedCount(ws) >= 4 * |ws| <==> forall k :: 0 <= k < |ws| ==> ws[k] != [] && IsUpperChar(ws[k][0])
  {
  }

  /** `lines[:n]`. */
  function Take(lines: seq<string>, n: nat): (r: seq<string>)
    ensures |r| <= n && |r| <= |lines| && r == lines[..|r|]
    ensures |lines| >= n ==> |r| == n
  {
    if |lines| <= n then lines else lines[..n]
  }

  /** A strategy: the first of the first `limit` lines that, stripped, passes the test. */
  function Strategy(lines: seq<string>, limit: nat, accept: string -> bool): Option<string> {
    var ls := StripAll(Take(lines, limit));
    var k := FirstPassing(ls, accept);
    if k < |ls| then Some(ls[k]) else None
  }

  /** `extract_name_advanced` when the language model finds no person: the second strategy on
      the first 10 lines, then the third on the first 15. */
  function NameAdvanced(text: string): Option<string> {
    var lines := Split(text, '\n');
    var byPattern := Strategy(lines, 10, PatternCandidate);
    if byPattern.Some? then byPattern else Strategy(lines, 15, CapitalsCandidate)
  }

  /** The loop of a strategy: it returns the first stripped line that passes. */
  method FirstCandidate(lines: seq<string>, limit: nat, accept: string -> bool) returns (name: Option<string>)
    ensures name == Strategy(lines, limit, accept)
  {
    var ls := Take(lines, limit);
    for i := 0 to |ls|
      invariant forall j :: 0 <= j < i ==> !accept(Strip(ls[j]))
    {
      var line := Strip(ls[i]);
      if accept(line) {
        FirstStripped(ls, accept, i);
        StripAllAt(ls, i);
        return Some(line);
      }
    }
    FirstStripped(ls, accept, |ls|);
    return None;
  }

  /** The first passing stripped line is the one before which every line fails, stripped, and
      at which a line passes, if any. */
  lemma FirstStripped(lines: seq<string>, test: string -> bool, i: nat)
    requires i <= |lines| && (i < |lines| ==> test(Strip(lines[i])))
    requires forall j :: 0 <= j < i ==> !test(Strip(lines[j]))
    ensures FirstPassing(StripAll(lines), test) == i
  {
    FirstPassingStripped(lines, test);
  }

  /** What the first passing position says about the lines themselves. */
  lemma FirstPassingStripped(lines: seq<string>, test: string -> bool)
    ensures var k := FirstPassing(StripAll(lines), test);
      k <= |lines| && (k < |lines| ==> StripAll(lines)[k] == Strip(lines[k]) && test(Strip(lines[k]))) &&
      forall j :: 0 <= j < k ==> !test(Strip(lines[j]))
  {
    var k := FirstPassing(StripAll(lines), test);
    forall j | 0 <= j < k ensures !test(Strip(lines[j])) {
      StripAllAt(lines, j);
    }
    if k < |lines| {
      StripAllAt(lines, k);
    }
  }

  /** The two strategies in order. */
  method ExtractNameAdvanced(text: string) returns (name: Option<string>)
    ensures name == NameAdvanced(text)
  {
    var lines := Split(text, '\n');
    name := FirstCandidate(lines, 10, PatternCandidate);
    if name.None? {
      name := FirstCandidate(lines, 15, CapitalsCandidate);
    }
  }

  /** What a strategy returns is the stripped form of one of its first `limit` lines that passes
      the test, and every line before it fails; it returns nothing only when all of them fail. */
  lemma StrategyFinds(lines: seq<string>, limit: nat, accept: string -> bool)
    ensures var r := Strategy(lines, limit, accept);
      (r.None? <==> forall k :: 0 <= k < |lines| && k < limit ==> !accept(Strip(lines[k]))) &&
      (r.Some? ==> exists k :: (0 <= k < |lines| && k < limit && r.value == Strip(lines[k]) && accept(r.value) &&
         forall j :: 0 <= j < k ==> !accept(Strip(lines[j]))))
  {
    var k := StrategyIndex(lines, limit, accept);
    var r := Strategy(lines, limit, accept);
    if r.Some? {
      assert 0 <= k < |lines| && k < limit && r.value == Strip(lines[k]) && accept(r.value);
    }
  }

  /** The index of the line a strategy stops at: every line before it fails, and it is the
      line returned, or the end of the first `limit` lines when nothing is. */
  lemma StrategyIndex(lines: seq<string>, limit: nat, accept: string -> bool) returns (k: nat)
    ensures k <= |lines| && k <= limit
    ensures forall j :: 0 <= j < k ==> !accept(Strip(lines[j]))
    ensures Strategy(lines, limit, accept).None? <==> k == |lines| || k == limit
    ensures Strategy(lines, limit, accept).Some? ==>
      Strategy(lines, limit, accept).value == Strip(lines[k]) && accept(Strip(lines[k]))
  {
    var ls := Take(lines, limit);
    FirstPassingStripped(ls, accept);
    k := FirstPassing(StripAll(ls), accept);
    assert forall j :: 0 <= j < k ==> ls[j] == lines[j];
    if k < |ls| {
      assert ls[k] == lines[k];
    }
  }

  /** A name found by either strategy is a line of at least three characters with two to four
      words, no skip word of the second strategy and every word starting with a capital. */
  lemma NameShape(text: string)
    ensures var r := NameAdvanced(text);
      r.Some? ==>
        |r.value| >= 3 && 2 <= |Words(r.value)| <= 4 && !MentionsAny(r.value, PatternSkipWords) &&
        forall k :: 0 <= k < |Words(r.value)| ==> Words(r.value)[k] != [] && IsUpperChar(Words(r.value)[k][0])
  {
    var lines := Split(text, '\n');
    var byPattern := Strategy(lines, 10, PatternCandidate);
    StrategyFinds(lines, 10, PatternCandidate);
    StrategyFinds(lines, 15, CapitalsCandidate);
    if byPattern.Some? {
      PatternNameShape(byPattern.value);
    } else if NameAdvanced(text).Some? {
      CapitalsNameShape(NameAdvanced(text).value);
    }
  }

  lemma PatternNameShape(line: string)
    requires PatternCandidate(line)
    ensures |line| >= 3 && 2 <= |Words(line)| <= 4 && !MentionsAny(line, PatternSkipWords)
    ensures forall k :: 0 <= k < |Words(line)| ==> Words(line)[k] != [] && IsUpperChar(Words(line)[k][0])
  {
  }

  lemma CapitalsNameShape(line: string)
    requires CapitalsCandidate(line)
    ensures |line| >= 3 && 2 <= |Words(line)| <= 4 && !MentionsAny(line, PatternSkipWords)
    ensures forall k :: 0 <= k < |Words(line)| ==> Words(line)[k] != [] && IsUpperChar(Words(line)[k][0])
  {
    EightyPercentIsAll(Words(line));
    NoneOfLonger(line, PatternSkipWords, ["objective", "summary"]);
  }

  /** A line naming none of a list names none of its first part. */
  lemma NoneOfLonger(line: string, a: seq<string>, b: seq<string>)
    requires !MentionsAny(line, a + b)
    ensures !MentionsAny(line, a)
  {
    forall k | 0 <= k < |a| ensures !Contains(Lower(line), a[k]) {
      assert (a + b)[k] == a[k];
    }
  }

  // ----- the basic contact fields -----

  /** The fields `extract_basic_info` returns; `None` for an empty text. */
  datatype BasicInfo = BasicInfo(name: Option<string>, email: Option<string>, phone: Option<string>)

  const NotFound: string := "Not Found"

  /** The international phone pattern. */
  const InternationalPhonePattern: string := @"\+?[0-9]{1,3}[-.\s]?[0-9]{1,4}[-.\s]?[0-9]{1,4}[-.\s]?[0-9]{1,4}"

  /** The simple US phone pattern. */
  const SimpleUsPhonePattern: string := @"\(?[0-9]{3}\)?[-.\s]?[0-9]{3}[-.\s]?[0-9]{4}"

  const PhonePatterns: seq<string> := [UsPhonePattern, InternationalPhonePattern, SimpleUsPhonePattern]

  /** The first match of the first pattern that matches anywhere in the text. */
  function FirstPhone(rx: Engine, patterns: seq<string>, text: string): (r: Option<string>)
    ensures r.None? <==> forall k :: 0 <= k < |patterns| ==> !Search(rx, patterns[k], text)
    ensures r.Some? ==> exists k :: (0 <= k < |patterns| && r == FirstMatch(rx, patterns[k], text) &&
      forall j :: 0 <= j < k ==> !Search(rx, patterns[j], text))
    decreases |patterns|
  {
    if patterns == [] then None
    else if Search(rx, patterns[0], text) then FirstMatch(rx, patterns[0], text)
    else
      var r := FirstPhone(rx, patterns[1..], text);
      assert forall k :: 1 <= k < |patterns| ==> patterns[k] == patterns[1..][k - 1];
      r
  }

  /** The phone loop: the patterns in order, stopping at the first that matches. */
  method FindPhone(rx: Engine, patterns: seq<string>, text: string) returns (phone: Option<string>)
    ensures phone == FirstPhone(rx, patterns, text)
  {
    phone := None;
    var i := 0;
    while i < |patterns|
      invariant 0 <= i <= |patterns|
      invariant FirstPhone(rx, patterns, text) == FirstPhone(rx, patterns[i..], text)
    {
      assert patterns[i..][1..] == patterns[i + 1..];
      var found := FirstMatch(rx, patterns[i], text);
      if found.Some? {
        phone := found;
        return;
      }
      i := i + 1;
    }
  }

  /** A field found with an empty text is reported as not found, as `x if x else "Not Found"`
      does. */
  function OrNotFound(v: Option<string>): (r: string)
    ensures r != ""
    ensures v.Some? && v.value != "" ==> r == v.value
  {
    if v.Some? && v.value != "" then v.value else NotFound
  }

  /** `extract_basic_info` when the language model finds no person. */
  function BasicInfoOf(rx: Engine, text: string): BasicInfo {
    if text == "" then BasicInfo(None, None, None)
    else
      var name := NameAdvanced(text);
      BasicInfo(Some(if name.Some? then Strip(name.value) else NotFound),
        Some(OrNotFound(FirstMatch(rx, EmailPattern, text))),
        Some(OrNotFound(FirstPhone(rx, PhonePatterns, text))))
  }

  /** The extraction: the e-mail match, the phone loop and the name strategies. */
  method ExtractBasicInfo(rx: Engine, text: string) returns (info: BasicInfo)
    ensures info == BasicInfoOf(rx, text)
  {
    if text == "" {
      return BasicInfo(None, None, None);
    }
    var email := FirstMatch(rx, EmailPattern, text);
    var phone := FindPhone(rx, PhonePatterns, text);
    var name := ExtractNameAdvanced(text);
    info := BasicInfo(Some(if name.Some? then Strip(name.value) else NotFound),
      Some(OrNotFound(email)), Some(OrNotFound(phone)));
  }

  /** An empty text gives no field at all; any other text gives all three, each the value found
      or "Not Found". */
  lemma BasicInfoFields(rx: Engine, text: string)
    ensures var info := BasicInfoOf(rx, text);
      (text == "" <==> info.name.None?) && (text == "" <==> info.email.None?) && (text == "" <==> info.phone.None?)
    ensures var info := BasicInfoOf(rx, text); var email := FirstMatch(rx, EmailPattern, text);
      text != "" ==>
        (email.Some? && email.value != "" ==> info.email == email) &&
        (email.None? || email.value == "" ==> info.email == Some(NotFound))
    ensures var info := BasicInfoOf(rx, text); var phone := FirstPhone(rx, PhonePatterns, text);
      text != "" ==>
        (phone.Some? && phone.value != "" ==> info.phone == phone) &&
        (phone.None? || phone.value == "" ==> info.phone == Some(NotFound))
  {
  }
}
