/** Section-header detection: which of the five standard résumé sections have a header line.

    Each section has a line-anchored, case-insensitive header pattern, searched in multi-line
    mode.  The patterns are simple enough to be modelled exactly, line by line:
    `^\s*(professional\s+)?summary\b` holds of a text exactly when some line, after its leading
    whitespace, starts with "summary" or with "professional", whitespace, "summary", followed by
    a word boundary.  (A match whose `\s` runs across a line break always has a twin match that
    starts on the last of those lines, and `licenses\s*(?:&\s*certifications)?\b` matches
    exactly where `licenses\b` does.) */
module SectionExtractor {
  import opened Text
  import opened PyValues

  /** The header phrasings of each section, every phrasing a list of words that the text must
      show separated by whitespace; the table order is the order of the result. */
  const SectionKeywords: Dict<seq<seq<string>>> := [
    ("summary", [["summary"], ["professional", "summary"]]),
    ("experience", [["experience"], ["work", "experience"], ["professional", "experience"]]),
    ("education", [["education"]]),
    ("projects", [["projects"]]),
    ("certifications", [["certifications"], ["licenses"]])
  ]

  const SectionNames: seq<string> := ["summary", "experience", "education", "projects", "certifications"]

  lemma SectionNamesAreTableKeys()
    ensures SectionNames == Keys(SectionKeywords)
  {
  }

  /** `\b` right after a word character: the next character is not a word character. */
  predicate BoundaryAhead(s: string) {
    s == [] || !IsWordChar(s[0])
  }

  /** `s` starts with the words of `phrase`, consecutive words separated by at least one
      whitespace character, and a word boundary follows the last word. */
  predicate PhraseAt(s: string, phrase: seq<string>)
    requires phrase != []
    decreases |phrase|
  {
    StartsWith(s, phrase[0]) &&
    var rest := s[|phrase[0]|..];
    if |phrase| == 1 then BoundaryAhead(rest)
    else rest != [] && IsSpace(rest[0]) && PhraseAt(LStrip(rest), phrase[1..])
  }

  /** A header line (already lower-cased) for one of the phrasings. */
  predicate IsHeaderLine(line: string, phrases: seq<seq<string>>) {
    exists n :: 0 <= n < |phrases| && phrases[n] != [] && PhraseAt(LStrip(line), phrases[n])
  }

  /** Some line of `text`, compared in lower case, is a header line for one of the phrasings. */
  predicate HasHeaderLine(text: string, phrases: seq<seq<string>>) {
    var lines := Split(text, '\n');
    exists k :: 0 <= k < |lines| && IsHeaderLine(Lower(lines[k]), phrases)
  }

  /** The pattern of `section` finds a match in `text`.  Unknown sections are never present. */
  predicate SectionPresent(text: string, section: string) {
    HasHeaderLine(text, Get(SectionKeywords, section, []))
  }

  /** The two loops of the extractor over any table: every entry starts out absent, and each
      whose pattern matches is switched on, in place. */
  method DetectHeaders(text: string, table: Dict<seq<seq<string>>>) returns (found: Dict<bool>)
    ensures |found| == |table|
    ensures forall i :: 0 <= i < |found| ==> found[i] == (table[i].0, HasHeaderLine(text, table[i].1))
  {
    found := AllAbsent(table);
    found := SwitchOn(table, found, phrases => HasHeaderLine(text, phrases));
  }

  /** The first loop: one entry per section, all of them off. */
  method AllAbsent(table: Dict<seq<seq<string>>>) returns (found: Dict<bool>)
    ensures |found| == |table|
    ensures forall i :: 0 <= i < |found| ==> found[i] == (table[i].0, false)
  {
    found := [];
    for i := 0 to |table|
      invariant |found| == i
      invariant forall j :: 0 <= j < i ==> found[j] == (table[j].0, false)
    {
      found := found + [(table[i].0, false)];
    }
  }

  /** The second loop: the entry of each section whose header occurs is switched on. */
  method SwitchOn(table: Dict<seq<seq<string>>>, absent: Dict<bool>, present: seq<seq<string>> -> bool)
    returns (found: Dict<bool>)
    requires |absent| == |table|
    requires forall i :: 0 <= i < |absent| ==> absent[i] == (table[i].0, false)
    ensures |found| == |table|
    ensures forall i :: 0 <= i < |found| ==> found[i] == (table[i].0, present(table[i].1))
  {
    found := absent;
    for i := 0 to |table|
      invariant |found| == |table|
      invariant forall j :: 0 <= j < i ==> found[j] == (table[j].0, present(table[j].1))
      invariant forall j :: i <= j < |found| ==> found[j] == (table[j].0, false)
    {
      if present(table[i].1) {
        found := found[i := (table[i].0, true)];
      }
    }
  }

  /** `extract_sections`: one flag per section of the table, in table order, set exactly when the
      section's header occurs. */
  method ExtractSections(text: string) returns (found: Dict<bool>)
    ensures Keys(found) == SectionNames
    ensures forall i :: 0 <= i < |found| ==> found[i].1 == SectionPresent(text, found[i].0)
  {
    found := DetectHeaders(text, SectionKeywords);
    SectionNamesAreTableKeys();
    assert UniqueKeys(SectionKeywords);
    forall i | 0 <= i < |found| ensures found[i].1 == SectionPresent(text, found[i].0) {
      GetUnique(SectionKeywords, i, []);
    }
  }

  /** Every phrasing of every section starts with a non-empty word. */
  lemma PhrasesStartWithWords(section: string)
    ensures forall p :: p in Get(SectionKeywords, section, []) ==> p != [] && p[0] != []
  {
    if HasKey(SectionKeywords, section) {
      GetAt(SectionKeywords, section, []);
      var i := IndexOf(SectionKeywords, section);
      assert i < 5;
      assert forall j :: 0 <= j < 5 ==> forall p :: p in SectionKeywords[j].1 ==> p != [] && p[0] != [];
    }
  }

  /** An empty text has no header line at all. */
  lemma EmptyTextHasNoSections(section: string)
    ensures !SectionPresent("", section)
  {
    PhrasesStartWithWords(section);
    assert Split("", '\n') == [""];
    assert Lower("") == "" && LStrip("") == "";
  }

  /** The detector ignores letter case: texts equal up to case have the same sections. */
  lemma CaseInsensitive(t1: string, t2: string, section: string)
    requires Lower(t1) == Lower(t2)
    ensures SectionPresent(t1, section) == SectionPresent(t2, section)
  {
    LowerCaseInvariant(t1, section);
    LowerCaseInvariant(t2, section);
  }

  lemma LowerCaseInvariant(t: string, section: string)
    ensures SectionPresent(t, section) == SectionPresent(Lower(t), section)
  {
    var lines, llines := Split(t, '\n'), Split(Lower(t), '\n');
    var phrases := Get(SectionKeywords, section, []);
    SplitLower(t, '\n');
    forall k | 0 <= k < |lines|
      ensures IsHeaderLine(Lower(lines[k]), phrases) == IsHeaderLine(Lower(llines[k]), phrases)
    {
      LowerIsLowerCase(lines[k]);
      assert Lower(llines[k]) == Lower(Lower(lines[k])) == Lower(lines[k]);
    }
    if SectionPresent(t, section) {
      var k :| 0 <= k < |lines| && IsHeaderLine(Lower(lines[k]), phrases);
      assert IsHeaderLine(Lower(llines[k]), phrases);
    }
    if SectionPresent(Lower(t), section) {
      var k :| 0 <= k < |llines| && IsHeaderLine(Lower(llines[k]), phrases);
      assert IsHeaderLine(Lower(lines[k]), phrases);
    }
  }

  /** Appending further lines never makes a detected section disappear. */
  lemma AppendKeepsSections(t: string, more: string, section: string)
    requires SectionPresent(t, section)
    ensures SectionPresent(t + "\n" + more, section)
  {
    var lines := Split(t, '\n');
    var phrases := Get(SectionKeywords, section, []);
    var k :| 0 <= k < |lines| && IsHeaderLine(Lower(lines[k]), phrases);
    SplitAppend(t, more, '\n');
    assert Split(t + "\n" + more, '\n')[k] == lines[k];
  }
}
