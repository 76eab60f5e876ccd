/** The two text helpers of the PDF report: the classification of a feedback line, which picks its
    colour, and the reduction of a text to what a latin-1 font can print. */
module Report {
  import opened Text

  // ----- classifying a feedback line -----

  datatype FeedbackType = Strength | Critical | Suggestion | Info

  const StrengthKeywords: seq<string> := ["Excellent", "strong", "Strength", "Good"]
  const CriticalKeywords: seq<string> := ["Missing", "weakness", "Critical", "Consider"]

  /** Some keyword of the list occurs in the text, letter case counting. */
  predicate MentionsAny(text: string, keywords: seq<string>) {
    exists k :: 0 <= k < |keywords| && Contains(text, keywords[k])
  }

  /** `get_feedback_type`: a strength keyword wins over a critical one, which wins over
      "Suggestion"; a line with none of them is informational. */
  function GetFeedbackType(text: string): (t: FeedbackType)
    ensures t == Strength <==> MentionsAny(text, StrengthKeywords)
    ensures t == Critical <==> !MentionsAny(text, StrengthKeywords) && MentionsAny(text, CriticalKeywords)
    ensures t == Suggestion <==>
      !MentionsAny(text, StrengthKeywords) && !MentionsAny(text, CriticalKeywords) && Contains(text, "Suggestion")
    ensures t == Info <==>
      !MentionsAny(text, StrengthKeywords) && !MentionsAny(text, CriticalKeywords) && !Contains(text, "Suggestion")
  {
    if MentionsAny(text, StrengthKeywords) then Strength
    else if MentionsAny(text, CriticalKeywords) then Critical
    else if Contains(text, "Suggestion") then Suggestion
    else Info
  }

  /** A keyword found at a known place. */
  lemma ContainsAt(a: string, p: string, b: string)
    ensures Contains(a + p + b, p)
  {
    ContainsWitness(a, p, b);
  }

  /** Strength keywords are tested first: a line praising one thing and reporting another missing
      is a strength. */
  lemma StrengthFirst(a: string, b: string, c: string)
    ensures GetFeedbackType(a + "Good" + b + "Missing" + c) == Strength
  {
    var text := a + "Good" + b + "Missing" + c;
    assert text == a + "Good" + (b + "Missing" + c);
    ContainsAt(a, "Good", b + "Missing" + c);
    assert StrengthKeywords[3] == "Good";
  }

  /** The match is case-sensitive: "good" alone is not a strength keyword, so the line "good"
      is informational. */
  lemma CaseSensitive()
    ensures GetFeedbackType("good") == Info
  {
    forall k | 0 <= k < |StrengthKeywords| ensures !Contains("good", StrengthKeywords[k]) {
      assert |StrengthKeywords[k]| > 4 || StrengthKeywords[k][0] != "good"[0];
    }
    forall k | 0 <= k < |CriticalKeywords| ensures !Contains("good", CriticalKeywords[k]) {
      assert |CriticalKeywords[k]| > 4;
    }
    assert !Contains("good", "Suggestion");
  }

  // ----- latin-1 sanitising -----

  /** A character that latin-1 can encode. */
  predicate IsLatin1(c: char) {
    c as int < 256
  }

  predicate AllLatin1(s: string) {
    forall i :: 0 <= i < |s| ==> IsLatin1(s[i])
  }

  /** `sanitize_text`: encoding to latin-1 with replacement and decoding again turns every
      character latin-1 cannot encode into one question mark and keeps every other one. */
  function SanitizeText(s: string): (r: string)
    ensures |r| == |s|
    ensures AllLatin1(r)
    ensures forall i :: 0 <= i < |s| ==> r[i] == (if IsLatin1(s[i]) then s[i] else '?')
  {
    seq(|s|, i requires 0 <= i < |s| => if IsLatin1(s[i]) then s[i] else '?')
  }

  /** A latin-1 text goes through unchanged, and sanitising twice is sanitising once. */
  lemma SanitizeFixedPoints(s: string)
    ensures AllLatin1(s) ==> SanitizeText(s) == s
    ensures SanitizeText(SanitizeText(s)) == SanitizeText(s)
  {
  }

  /** Sanitising distributes over concatenation, so a prefix of printable text stays as it is. */
  lemma SanitizeAppend(a: string, b: string)
    ensures SanitizeText(a + b) == SanitizeText(a) + SanitizeText(b)
  {
  }

  // ----- the text of a feedback item -----

  /** No two consecutive asterisks. */
  predicate NoDoubleStar(s: string) {
    forall i :: 0 <= i < |s| - 1 ==> !(s[i] == '*' && s[i + 1] == '*')
  }

  /** Removing "**" keeps the first character when that is not an asterisk. */
  lemma RemovalKeepsHead(s: string)
    requires s != [] && s[0] != '*'
    ensures Replace(s, "**", "") != [] && Replace(s, "**", "")[0] == s[0]
  {
  }

  /** Removing every "**" from left to right leaves no "**" behind, not even one made of the
      characters around a removed pair. */
  lemma {:induction false} RemovalLeavesNoDoubleStar(s: string)
    ensures NoDoubleStar(Replace(s, "**", ""))
    decreases |s|
  {
    if |s| < 2 {
    } else if s[..2] == "**" {
      RemovalLeavesNoDoubleStar(s[2..]);
    } else {
      var rest := Replace(s[1..], "**", "");
      RemovalLeavesNoDoubleStar(s[1..]);
      if s[0] == '*' {
        assert s[1] != '*';
        RemovalKeepsHead(s[1..]);
      }
      assert Replace(s, "**", "") == [s[0]] + rest;
    }
  }

  /** The text `feedback_item` prints: "- " and the item with every "**" removed, sanitised. */
  function FeedbackItemText(item: string): (r: string)
    ensures |r| >= 2 && r[..2] == "- "
    ensures NoDoubleStar(r[2..])
    ensures AllLatin1(r)
  {
    RemovalLeavesNoDoubleStar(item);
    var shown := "- " + Replace(item, "**", "");
    SanitizeAppend("- ", Replace(item, "**", ""));
    SanitizeText(shown)
  }
}
