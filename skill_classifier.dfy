/** Skill classification: a confidence score for every mention of a skill, read off the text
    around it, and a two-pass matcher that fills one list of skills per taxonomy category.

    Confidences are kept in tenths: 5 stands for 0.5 and 10 for 1.0, so the score's steps
    (+0.3, +0.1, -0.2, +0.2) and thresholds (0.5, 0.6, 0.8) are exact. */
module SkillClassifier {
  import opened Text
  import opened PyValues
  import opened Regex
  import Scoring

  // ----- context confidence -----

  /** Indicators that the skill is used in earnest (+0.3 each). */
  const HighConfidence: seq<string> := [
    "\\b(proficient|expert|advanced|skilled|experienced)\\s+(in|with)\\b",
    "\\b(developed|built|created|implemented)\\s+(using|with)\\b",
    "\\b(worked\\s+with|used|applied)\\b",
    "\\b(years?\\s+of\\s+experience)\\s+(in|with)\\b"
  ]

  /** Indicators of working knowledge (+0.1 each). */
  const MediumConfidence: seq<string> := [
    "\\b(familiar|basic|intermediate|knowledge)\\s+(of|with)\\b",
    "\\b(learned|studied|trained)\\s+(in|on)\\b",
    "\\b(used|utilized)\\b"
  ]

  /** Indicators of hearsay (-0.2 each). */
  const LowConfidence: seq<string> := [
    "\\b(heard\\s+of|aware\\s+of|know\\s+about)\\b",
    "\\b(maybe|possibly|might)\\b"
  ]

  /** Phrases that show a particular skill in use (+0.2 each), by lower-cased skill name. */
  const SkillContextPatterns: Dict<seq<string>> := [
    ("python", ["python\\s+script", "python\\s+application", "python\\s+framework"]),
    ("react", ["react\\s+component", "react\\s+application", "react\\s+hooks"]),
    ("aws", ["aws\\s+service", "aws\\s+cloud", "aws\\s+deployment"]),
    ("docker", ["docker\\s+container", "docker\\s+image", "docker\\s+compose"]),
    ("sql", ["sql\\s+query", "sql\\s+database", "sql\\s+optimization"])
  ]

  const Baseline := 5

  /** Python's `s[lo:hi]` for bounds that may fall outside the string. */
  function Clip(s: string, lo: int, hi: int): (r: string)
    ensures |r| <= |s|
    ensures lo >= 0 && lo <= hi <= |s| ==> r == s[lo..hi]
  {
    var a := if lo < 0 then 0 else if lo > |s| then |s| else lo;
    var b := if hi < 0 then 0 else if hi > |s| then |s| else hi;
    if a >= b then "" else s[a..b]
  }

  function WindowStart(position: nat): nat {
    if position < 100 then 0 else position - 100
  }

  /** `text[max(0, position - 100) : min(len(text), position + 100)]`: at most 200 characters,
      a slice of the text that contains the mention's position whenever the position lies inside
      the text. */
  function ContextWindow(text: string, position: nat): (r: string)
    ensures |r| <= 200
    ensures position <= |text| ==>
      var lo := WindowStart(position);
      lo <= position <= lo + |r| <= |text| && r == text[lo..lo + |r|]
  {
    var lo := WindowStart(position);
    var hi := if |text| < position + 100 then |text| else position + 100;
    var r := Clip(text, lo, hi);
    assert position <= |text| ==> r == text[lo..hi];
    r
  }

  /** One upward step per indicator found, each step clamped at 1.0; `patterns` are taken in
      order (the last one is applied last). */
  function Raise(rx: Engine, context: string, patterns: seq<string>, c: int, delta: nat): (r: int)
    requires 0 <= c <= 10
    ensures c <= r <= 10
    ensures (forall p :: p in patterns ==> !Search(rx, p, context)) ==> r == c
    decreases |patterns|
  {
    if patterns == [] then c
    else
      var init := patterns[..|patterns| - 1];
      assert patterns == init + [patterns[|patterns| - 1]];
      var before := Raise(rx, context, init, c, delta);
      if Search(rx, patterns[|patterns| - 1], context) then Scoring.Min(before + delta, 10) else before
  }

  /** One downward step of 0.2 per indicator found, each step clamped at 0.0. */
  function Drop(rx: Engine, context: string, patterns: seq<string>, c: int): (r: int)
    requires 0 <= c <= 10
    ensures 0 <= r <= c
    ensures (forall p :: p in patterns ==> !Search(rx, p, context)) ==> r == c
    decreases |patterns|
  {
    if patterns == [] then c
    else
      var init := patterns[..|patterns| - 1];
      assert patterns == init + [patterns[|patterns| - 1]];
      var before := Drop(rx, context, init, c);
      if Search(rx, patterns[|patterns| - 1], context) then (if before - 2 < 0 then 0 else before - 2) else before
  }

  /** The skill-specific patterns of a skill; none for a skill outside the table. */
  function SpecificPatterns(skill: string): seq<string> {
    Get(SkillContextPatterns, Lower(skill), [])
  }

  /** `analyze_skill_context`: start at 0.5, then the high, medium, low and skill-specific
      indicators in that order, clamping into [0.0, 1.0] after every step. */
  function ContextConfidence(rx: Engine, text: string, skill: string, position: nat): (c: int)
    ensures 0 <= c <= 10
  {
    var context := Lower(ContextWindow(text, position));
    var high := Raise(rx, context, HighConfidence, Baseline, 3);
    var medium := Raise(rx, context, MediumConfidence, high, 1);
    var low := Drop(rx, context, LowConfidence, medium);
    Raise(rx, context, SpecificPatterns(skill), low, 2)
  }

  /** Without any indicator around the mention, the confidence stays at exactly 0.5, below the
      0.6 that the literal pass asks for. */
  lemma NoIndicatorBaseline(rx: Engine, text: string, skill: string, position: nat)
    requires forall p :: p in HighConfidence + MediumConfidence + LowConfidence + SpecificPatterns(skill) ==>
      !Search(rx, p, Lower(ContextWindow(text, position)))
    ensures ContextConfidence(rx, text, skill, position) == Baseline
    ensures ContextConfidence(rx, text, skill, position) < 6
  {
  }

  /** A confidence of 0.6 or more needs a raising indicator in the window. */
  lemma ConfidentNeedsIndicator(rx: Engine, text: string, skill: string, position: nat)
    requires ContextConfidence(rx, text, skill, position) >= 6
    ensures exists p :: (p in HighConfidence + MediumConfidence + SpecificPatterns(skill) &&
      Search(rx, p, Lower(ContextWindow(text, position))))
  {
    var context := Lower(ContextWindow(text, position));
    if forall p :: p in HighConfidence + MediumConfidence + SpecificPatterns(skill) ==> !Search(rx, p, context) {
      assert forall p :: p in HighConfidence ==> !Search(rx, p, context);
      assert forall p :: p in MediumConfidence ==> !Search(rx, p, context);
      assert forall p :: p in SpecificPatterns(skill) ==> !Search(rx, p, context);
    }
  }

  /** One loop of the scorer: a rise of `delta` tenths, clamped at 1.0, per pattern found. */
  method RaiseAll(rx: Engine, context: string, patterns: seq<string>, c: int, delta: nat) returns (confidence: int)
    requires 0 <= c <= 10
    ensures confidence == Raise(rx, context, patterns, c, delta)
  {
    confidence := c;
    for i := 0 to |patterns|
      invariant confidence == Raise(rx, context, patterns[..i], c, delta)
    {
      assert patterns[..i + 1][..i] == patterns[..i];
      if |rx(patterns[i], context)| > 0 {
        confidence := Scoring.Min(confidence + delta, 10);
      }
    }
    assert patterns[..|patterns|] == patterns;
  }

  /** The loop over the low-confidence indicators: 0.2 off per pattern found, clamped at 0.0. */
  method DropAll(rx: Engine, context: string, patterns: seq<string>, c: int) returns (confidence: int)
    requires 0 <= c <= 10
    ensures confidence == Drop(rx, context, patterns, c)
  {
    confidence := c;
    for i := 0 to |patterns|
      invariant confidence == Drop(rx, context, patterns[..i], c)
    {
      assert patterns[..i + 1][..i] == patterns[..i];
      if |rx(patterns[i], context)| > 0 {
        confidence := if confidence - 2 < 0 then 0 else confidence - 2;
      }
    }
    assert patterns[..|patterns|] == patterns;
  }

  /** The step-by-step computation of `analyze_skill_context`. */
  method AnalyzeSkillContext(rx: Engine, text: string, skill: string, position: nat) returns (confidence: int)
    ensures confidence == ContextConfidence(rx, text, skill, position)
    ensures 0 <= confidence <= 10
  {
    var context := Lower(ContextWindow(text, position));
    confidence := RaiseAll(rx, context, HighConfidence, Baseline, 3);
    confidence := RaiseAll(rx, context, MediumConfidence, confidence, 1);
    confidence := DropAll(rx, context, LowConfidence, confidence);
    confidence := RaiseAll(rx, context, SpecificPatterns(skill), confidence, 2);
  }

  // ----- whole-word occurrences -----

  /** The regular-expression anchor `\b` at position `i` of `s`: a word character on exactly
      one side. */
  predicate BoundaryAt(s: string, i: nat)
    requires i <= |s|
  {
    (i > 0 && IsWordChar(s[i - 1])) != (i < |s| && IsWordChar(s[i]))
  }

  /** The pattern `\b` + `re.escape(k)` + `\b` matches at `i`. */
  predicate WordAt(k: string, s: string, i: nat) {
    i + |k| <= |s| && s[i..i + |k|] == k && BoundaryAt(s, i) && BoundaryAt(s, i + |k|)
  }

  /** The starts of `re.finditer` for that pattern, searching from `i`: leftmost first, the
      search resuming after each match (one further on after an empty match). */
  function WordMatchesFrom(k: string, s: string, i: nat): (ps: seq<nat>)
    ensures forall j :: 0 <= j < |ps| ==> i <= ps[j] && WordAt(k, s, ps[j])
    ensures ps != [] <==> exists p :: i <= p && WordAt(k, s, p)
    decreases |s| + 1 - i
  {
    if i > |s| then []
    else if WordAt(k, s, i) then [i] + WordMatchesFrom(k, s, i + (if |k| == 0 then 1 else |k|))
    else WordMatchesFrom(k, s, i + 1)
  }

  /** The mentions of `skill` that the literal pass looks at. */
  function Mentions(skill: string, text: string): (ps: seq<nat>)
    ensures forall j :: 0 <= j < |ps| ==> WordAt(Lower(skill), Lower(text), ps[j])
    ensures ps != [] <==> exists p :: WordAt(Lower(skill), Lower(text), p)
  {
    WordMatchesFrom(Lower(skill), Lower(text), 0)
  }

  // ----- the tables the matcher fills -----

  /** `found_skills`, `skill_confidence` and `skill_contexts`. */
  datatype Tables = Tables(found: Dict<seq<string>>, confidence: Dict<int>, contexts: Dict<string>)

  /** `{category: [] for category in skill_dict}` and two empty dictionaries. */
  function InitialTables(taxonomy: Dict<seq<string>>): (st: Tables)
    ensures Keys(st.found) == Keys(taxonomy)
    ensures forall i :: 0 <= i < |st.found| ==> st.found[i].1 == []
  {
    Tables(seq(|taxonomy|, i requires 0 <= i < |taxonomy| => (taxonomy[i].0, [])), [], [])
  }

  /** Appends `skill` to its category's list and records its confidence and context. */
  function Record(st: Tables, category: string, skill: string, c: int, context: string): Tables {
    Tables(Put(st.found, category, Get(st.found, category, []) + [skill]),
      Put(st.confidence, skill, c), Put(st.contexts, skill, context))
  }

  predicate NoDup(xs: seq<string>) {
    forall i, j :: 0 <= i < j < |xs| ==> xs[i] != xs[j]
  }

  /** `s` is in one of the category lists. */
  predicate Listed(found: Dict<seq<string>>, s: string) {
    exists i :: 0 <= i < |found| && s in found[i].1
  }

  /** What the matcher keeps true of its tables: the categories are those of the taxonomy, no
      list repeats a skill, exactly the listed skills have a confidence and a context, and
      every confidence lies between 0.5 and 1.0. */
  ghost predicate Valid(categories: seq<string>, st: Tables) {
    Keys(st.found) == categories &&
    (forall i :: 0 <= i < |st.found| ==> NoDup(st.found[i].1)) &&
    UniqueKeys(st.confidence) &&
    (forall s :: HasKey(st.confidence, s) <==> Listed(st.found, s)) &&
    (forall s :: HasKey(st.contexts, s) <==> Listed(st.found, s)) &&
    (forall i :: 0 <= i < |st.confidence| ==> 5 <= st.confidence[i].1 <= 10)
  }

  lemma InitialValid(taxonomy: Dict<seq<string>>)
    ensures Valid(Keys(taxonomy), InitialTables(taxonomy))
  {
    var st := InitialTables(taxonomy);
    forall s ensures !Listed(st.found, s) {
    }
  }

  lemma PutHasKey<V>(d: Dict<V>, k: string, v: V, s: string)
    ensures HasKey(Put(d, k, v), s) <==> HasKey(d, s) || s == k
  {
    PutKeySet(d, k, v);
    var r := Put(d, k, v);
    if HasKey(r, s) {
      var i :| 0 <= i < |r| && r[i].0 == s;
      assert s in KeySet(r);
      if s != k {
        assert s in KeySet(d);
        var j :| 0 <= j < |d| && d[j].0 == s;
      }
    }
    if HasKey(d, s) {
      var j :| 0 <= j < |d| && d[j].0 == s;
      assert s in KeySet(d);
      assert s in KeySet(r);
      var i :| 0 <= i < |r| && r[i].0 == s;
    }
    if s == k {
      PutFacts(d, k, v);
    }
  }

  /** Recording a new skill in an existing category keeps the tables valid. */
  lemma RecordValid(categories: seq<string>, st: Tables, category: string, skill: string, c: int, context: string)
    requires Valid(categories, st)
    requires HasKey(st.found, category) && skill !in Get(st.found, category, [])
    requires 5 <= c <= 10
    ensures Valid(categories, Record(st, category, skill, c, context))
    ensures HasKey(Record(st, category, skill, c, context).found, category)
  {
    var r := Record(st, category, skill, c, context);
    var idx := IndexOf(st.found, category);
    GetAt(st.found, category, []);
    var list := st.found[idx].1;
    PutAt(st.found, category, list + [skill]);
    assert r.found == st.found[idx := (st.found[idx].0, list + [skill])];
    assert Keys(r.found) == Keys(st.found);
    AppendListed(st.found, idx, skill);
    AppendNoDup(st.found, idx, skill);
    forall s ensures HasKey(r.confidence, s) <==> HasKey(st.confidence, s) || s == skill {
      PutHasKey(st.confidence, skill, c, s);
    }
    forall s ensures HasKey(r.contexts, s) <==> HasKey(st.contexts, s) || s == skill {
      PutHasKey(st.contexts, skill, context, s);
    }
    assert r.confidence == Put(st.confidence, skill, c);
    PutUnique(st.confidence, skill, c);
    PutInRange(st.confidence, skill, c);
    assert forall s :: HasKey(r.confidence, s) <==> Listed(r.found, s);
    assert forall s :: HasKey(r.contexts, s) <==> Listed(r.found, s);
    assert r.found[idx].0 == category;
    assert Keys(r.found) == categories;
    assert forall i :: 0 <= i < |r.found| ==> NoDup(r.found[i].1);
    assert UniqueKeys(r.confidence);
    assert forall i :: 0 <= i < |r.confidence| ==> 5 <= r.confidence[i].1 <= 10;
  }

  /** Appending `skill` to list `idx` lists exactly what was listed and `skill`. */
  lemma AppendListed(found: Dict<seq<string>>, idx: nat, skill: string)
    requires idx < |found|
    ensures var r := found[idx := (found[idx].0, found[idx].1 + [skill])];
      forall s :: Listed(r, s) <==> Listed(found, s) || s == skill
  {
    var r := found[idx := (found[idx].0, found[idx].1 + [skill])];
    forall s ensures Listed(r, s) <==> Listed(found, s) || s == skill {
      if Listed(found, s) {
        var i :| 0 <= i < |found| && s in found[i].1;
        assert s in r[i].1;
      }
      if s == skill {
        assert s in r[idx].1;
      }
      if Listed(r, s) {
        var i :| 0 <= i < |r| && s in r[i].1;
        if i != idx {
          assert s in found[i].1;
        }
      }
    }
  }

  /** Appending a skill a list lacks keeps every list free of repeats. */
  lemma AppendNoDup(found: Dict<seq<string>>, idx: nat, skill: string)
    requires idx < |found| && skill !in found[idx].1
    requires forall i :: 0 <= i < |found| ==> NoDup(found[i].1)
    ensures var r := found[idx := (found[idx].0, found[idx].1 + [skill])];
      forall i :: 0 <= i < |r| ==> NoDup(r[i].1)
  {
    assert NoDup(found[idx].1 + [skill]);
  }

  /** Recording a confidence between 0.5 and 1.0 keeps every confidence in that range. */
  lemma PutInRange(conf: Dict<int>, skill: string, c: int)
    requires 5 <= c <= 10
    requires forall i :: 0 <= i < |conf| ==> 5 <= conf[i].1 <= 10
    ensures forall i :: 0 <= i < |Put(conf, skill, c)| ==> 5 <= Put(conf, skill, c)[i].1 <= 10
  {
    var r := Put(conf, skill, c);
    PutEntries(conf, skill, c);
    forall i | 0 <= i < |r| ensures 5 <= r[i].1 <= 10 {
      if r[i] != (skill, c) {
        var j :| 0 <= j < |conf| && conf[j] == r[i];
      }
    }
  }

  // ----- pass 1: literal whole-word matching -----

  /** The context kept for a match: up to 50 characters either side. */
  function MatchContext(text: string, start: nat, end: nat): string {
    Clip(text, start - 50, end + 50)
  }

  /** `if skill not in found_skills[category]`: append the skill and record its confidence and
      context, for a category the tables have. */
  function Take(st: Tables, category: string, skill: string, c: int, context: string): Tables {
    if skill in Get(st.found, category, []) then st else Record(st, category, skill, c, context)
  }

  /** One mention of `skill` at `p`: taken when its confidence reaches 0.6. */
  function LitStep(rx: Engine, text: string, category: string, skill: string, p: nat, st: Tables): Tables {
    var c := ContextConfidence(rx, text, skill, p);
    if c >= 6 then Take(st, category, skill, c, MatchContext(text, p, p + |skill|)) else st
  }

  lemma TakeValid(categories: seq<string>, st: Tables, category: string, skill: string, c: int, context: string)
    requires Valid(categories, st) && HasKey(st.found, category) && 5 <= c <= 10
    ensures Valid(categories, Take(st, category, skill, c, context))
  {
    if skill !in Get(st.found, category, []) {
      RecordValid(categories, st, category, skill, c, context);
    }
  }

  /** `Take` touches only the list of its category, appending the skill unless it is there. */
  lemma TakeProjection(st: Tables, category: string, skill: string, c: int, context: string)
    requires HasKey(st.found, category)
    ensures var idx := IndexOf(st.found, category); var l := st.found[idx].1;
      Take(st, category, skill, c, context).found == st.found[idx := (category, if skill in l then l else l + [skill])]
  {
    var idx := IndexOf(st.found, category);
    GetAt(st.found, category, []);
    if skill in st.found[idx].1 {
      assert st.found[idx := (category, st.found[idx].1)] == st.found;
    } else {
      PutAt(st.found, category, st.found[idx].1 + [skill]);
    }
  }

  /** The mentions `ps` of one skill, in order. */
  function LitMentions(rx: Engine, text: string, category: string, skill: string, ps: seq<nat>, st: Tables): Tables
    decreases |ps|
  {
    if ps == [] then st
    else LitStep(rx, text, category, skill, ps[|ps| - 1], LitMentions(rx, text, category, skill, ps[..|ps| - 1], st))
  }

  /** The skills of one category, in order, each with all its mentions. */
  function LitSkills(rx: Engine, text: string, category: string, skills: seq<string>, st: Tables): Tables
    decreases |skills|
  {
    if skills == [] then st
    else
      var skill := skills[|skills| - 1];
      LitMentions(rx, text, category, skill, Mentions(skill, text), LitSkills(rx, text, category, skills[..|skills| - 1], st))
  }

  /** The categories of the taxonomy, in order. */
  function LitPass(rx: Engine, text: string, categories: Dict<seq<string>>, st: Tables): Tables
    decreases |categories|
  {
    if categories == [] then st
    else
      var entry := categories[|categories| - 1];
      LitSkills(rx, text, entry.0, entry.1, LitPass(rx, text, categories[..|categories| - 1], st))
  }

  lemma KeysHaveKey<V>(d: Dict<V>, keys: seq<string>, k: string)
    requires Keys(d) == keys && k in keys
    ensures HasKey(d, k)
  {
    var i :| 0 <= i < |keys| && keys[i] == k;
    assert d[i].0 == k;
  }

  lemma {:induction false} LitMentionsValid(rx: Engine, text: string, category: string, skill: string, ps: seq<nat>,
    categories: seq<string>, st: Tables)
    requires Valid(categories, st) && category in categories
    ensures Valid(categories, LitMentions(rx, text, category, skill, ps, st))
    decreases |ps|
  {
    if ps != [] {
      var before := LitMentions(rx, text, category, skill, ps[..|ps| - 1], st);
      LitMentionsValid(rx, text, category, skill, ps[..|ps| - 1], categories, st);
      var p := ps[|ps| - 1];
      var c := ContextConfidence(rx, text, skill, p);
      if c >= 6 {
        KeysHaveKey(before.found, categories, category);
        TakeValid(categories, before, category, skill, c, MatchContext(text, p, p + |skill|));
      }
    }
  }

  lemma {:induction false} LitSkillsValid(rx: Engine, text: string, category: string, skills: seq<string>,
    categories: seq<string>, st: Tables)
    requires Valid(categories, st) && category in categories
    ensures Valid(categories, LitSkills(rx, text, category, skills, st))
    decreases |skills|
  {
    if skills != [] {
      var skill := skills[|skills| - 1];
      LitSkillsValid(rx, text, category, skills[..|skills| - 1], categories, st);
      LitMentionsValid(rx, text, category, skill, Mentions(skill, text), categories,
        LitSkills(rx, text, category, skills[..|skills| - 1], st));
    }
  }

  /** The literal pass keeps the tables valid. */
  lemma {:induction false} LitPassValid(rx: Engine, text: string, cats: Dict<seq<string>>, categories: seq<string>, st: Tables)
    requires Valid(categories, st)
    requires forall i :: 0 <= i < |cats| ==> cats[i].0 in categories
    ensures Valid(categories, LitPass(rx, text, cats, st))
    decreases |cats|
  {
    if cats != [] {
      var init := cats[..|cats| - 1];
      assert forall i :: 0 <= i < |init| ==> init[i] == cats[i];
      LitPassValid(rx, text, init, categories, st);
      var entry := cats[|cats| - 1];
      LitSkillsValid(rx, text, entry.0, entry.1, categories, LitPass(rx, text, init, st));
    }
  }

  // The literal pass seen one category list at a time, for any acceptance test `ok` on a skill
  // and a mention position; the pass itself uses `Confident`.

  /** The literal acceptance test: the mention's confidence reaches 0.6. */
  function Confident(rx: Engine, text: string): (string, nat) -> bool {
    (skill: string, p: nat) => ContextConfidence(rx, text, skill, p) >= 6
  }

  /** The list of one category after the mentions `ps` of `skill`. */
  function ListMentions(ok: (string, nat) -> bool, skill: string, ps: seq<nat>, acc: seq<string>): seq<string>
    decreases |ps|
  {
    if ps == [] then acc
    else
      var l := ListMentions(ok, skill, ps[..|ps| - 1], acc);
      if ok(skill, ps[|ps| - 1]) && skill !in l then l + [skill] else l
  }

  /** The list of one category after all mentions of each of `skills`. */
  function ListSkills(ok: (string, nat) -> bool, text: string, skills: seq<string>, acc: seq<string>): seq<string>
    decreases |skills|
  {
    if skills == [] then acc
    else
      var skill := skills[|skills| - 1];
      ListMentions(ok, skill, Mentions(skill, text), ListSkills(ok, text, skills[..|skills| - 1], acc))
  }

  /** Some mention of `skill` among `ps` is accepted. */
  predicate AnyAccepted(ok: (string, nat) -> bool, skill: string, ps: seq<nat>) {
    exists j :: 0 <= j < |ps| && ok(skill, ps[j])
  }

  lemma {:induction false} ListMentionsMembers(ok: (string, nat) -> bool, skill: string, ps: seq<nat>, acc: seq<string>, s: string)
    ensures s in ListMentions(ok, skill, ps, acc) <==> s in acc || (s == skill && AnyAccepted(ok, skill, ps))
    decreases |ps|
  {
    if ps != [] {
      var init := ps[..|ps| - 1];
      ListMentionsMembers(ok, skill, init, acc, s);
      if AnyAccepted(ok, skill, init) {
        var j :| 0 <= j < |init| && ok(skill, init[j]);
        assert ps[j] == init[j];
      }
    }
  }

  lemma {:induction false} ListSkillsMembers(ok: (string, nat) -> bool, text: string, skills: seq<string>, acc: seq<string>, s: string)
    ensures s in ListSkills(ok, text, skills, acc) <==> s in acc || (s in skills && AnyAccepted(ok, s, Mentions(s, text)))
    decreases |skills|
  {
    if skills != [] {
      var init := skills[..|skills| - 1];
      var skill := skills[|skills| - 1];
      ListSkillsMembers(ok, text, init, acc, s);
      ListMentionsMembers(ok, skill, Mentions(skill, text), ListSkills(ok, text, init, acc), s);
      assert skills == init + [skill];
    }
  }

  /** Updating the entry of a key keeps that key where it was. */
  lemma IndexOfUpdate<V>(d: Dict<V>, k: string, v: V)
    requires HasKey(d, k)
    ensures HasKey(d[IndexOf(d, k) := (k, v)], k)
    ensures IndexOf(d[IndexOf(d, k) := (k, v)], k) == IndexOf(d, k)
  {
    var idx := IndexOf(d, k);
    var u := d[idx := (k, v)];
    assert u[idx].0 == k;
  }

  /** One mention, seen on the list of its category. */
  lemma LitStepProjection(rx: Engine, text: string, category: string, skill: string, p: nat,
    st0: Tables, st: Tables, l: seq<string>)
    requires HasKey(st0.found, category)
    requires st.found == st0.found[IndexOf(st0.found, category) := (category, l)]
    ensures LitStep(rx, text, category, skill, p, st).found ==
      st0.found[IndexOf(st0.found, category) := (category, if Confident(rx, text)(skill, p) && skill !in l then l + [skill] else l)]
  {
    IndexOfUpdate(st0.found, category, l);
    var c := ContextConfidence(rx, text, skill, p);
    if c >= 6 {
      TakeProjection(st, category, skill, c, MatchContext(text, p, p + |skill|));
    }
  }

  lemma {:induction false} LitMentionsProjection(rx: Engine, text: string, category: string, skill: string,
    ps: seq<nat>, st: Tables)
    requires HasKey(st.found, category)
    ensures LitMentions(rx, text, category, skill, ps, st).found ==
      st.found[IndexOf(st.found, category) := (category, ListMentions(Confident(rx, text), skill, ps, st.found[IndexOf(st.found, category)].1))]
    decreases |ps|
  {
    var idx := IndexOf(st.found, category);
    if ps == [] {
      assert st.found[idx := (category, st.found[idx].1)] == st.found;
    } else {
      var init := ps[..|ps| - 1];
      LitMentionsProjection(rx, text, category, skill, init, st);
      var before := LitMentions(rx, text, category, skill, init, st);
      var l := ListMentions(Confident(rx, text), skill, init, st.found[idx].1);
      LitStepProjection(rx, text, category, skill, ps[|ps| - 1], st, before, l);
    }
  }

  lemma {:induction false} LitSkillsProjection(rx: Engine, text: string, category: string, skills: seq<string>, st: Tables)
    requires HasKey(st.found, category)
    ensures LitSkills(rx, text, category, skills, st).found ==
      st.found[IndexOf(st.found, category) := (category, ListSkills(Confident(rx, text), text, skills, st.found[IndexOf(st.found, category)].1))]
    decreases |skills|
  {
    var idx := IndexOf(st.found, category);
    if skills == [] {
      assert st.found[idx := (category, st.found[idx].1)] == st.found;
    } else {
      var init := skills[..|skills| - 1];
      var skill := skills[|skills| - 1];
      LitSkillsProjection(rx, text, category, init, st);
      var before := LitSkills(rx, text, category, init, st);
      var l := ListSkills(Confident(rx, text), text, init, st.found[idx].1);
      IndexOfUpdate(st.found, category, l);
      LitMentionsProjection(rx, text, category, skill, Mentions(skill, text), before);
    }
  }

  /** The category lists after the literal pass has handled the first `n` categories. */
  function LiteralLists(rx: Engine, text: string, taxonomy: Dict<seq<string>>, n: nat): (lists: Dict<seq<string>>)
    ensures |lists| == |taxonomy|
  {
    seq(|taxonomy|, j requires 0 <= j < |taxonomy| =>
      (taxonomy[j].0, if j < n then ListSkills(Confident(rx, text), text, taxonomy[j].1, []) else []))
  }

  /** With unique keys, the key at position `i` is found at position `i`. */
  lemma IndexOfUnique<V>(d: Dict<V>, i: nat)
    requires UniqueKeys(d) && i < |d|
    ensures HasKey(d, d[i].0) && IndexOf(d, d[i].0) == i
  {
  }

  lemma InitialLists(rx: Engine, text: string, taxonomy: Dict<seq<string>>)
    ensures InitialTables(taxonomy).found == LiteralLists(rx, text, taxonomy, 0)
  {
  }

  /** Handling category `n` replaces its empty list by the list of its accepted skills. */
  lemma LitPassStep(rx: Engine, text: string, taxonomy: Dict<seq<string>>, n: nat, st: Tables)
    requires UniqueKeys(taxonomy) && n < |taxonomy|
    requires st.found == LiteralLists(rx, text, taxonomy, n)
    ensures LitSkills(rx, text, taxonomy[n].0, taxonomy[n].1, st).found == LiteralLists(rx, text, taxonomy, n + 1)
  {
    assert Keys(st.found) == Keys(taxonomy);
    assert UniqueKeys(st.found);
    IndexOfUnique(st.found, n);
    LitSkillsProjection(rx, text, taxonomy[n].0, taxonomy[n].1, st);
  }

  lemma {:induction false} LitPassProjection(rx: Engine, text: string, taxonomy: Dict<seq<string>>, n: nat)
    requires UniqueKeys(taxonomy) && n <= |taxonomy|
    ensures LitPass(rx, text, taxonomy[..n], InitialTables(taxonomy)).found == LiteralLists(rx, text, taxonomy, n)
  {
    if n == 0 {
      assert taxonomy[..0] == [];
      InitialLists(rx, text, taxonomy);
    } else {
      assert taxonomy[..n][..n - 1] == taxonomy[..n - 1];
      LitPassProjection(rx, text, taxonomy, n - 1);
      LitPassStep(rx, text, taxonomy, n - 1, LitPass(rx, text, taxonomy[..n - 1], InitialTables(taxonomy)));
    }
  }

  /** After the literal pass, the list of category `j` holds a skill exactly when the skill is
      listed under that category and some whole-word mention of it reaches confidence 0.6;
      no list repeats a skill. */
  lemma LiteralPassFinds(rx: Engine, text: string, taxonomy: Dict<seq<string>>, j: nat, s: string)
    requires UniqueKeys(taxonomy) && j < |taxonomy|
    ensures var st := LitPass(rx, text, taxonomy, InitialTables(taxonomy));
      |st.found| == |taxonomy| && st.found[j].0 == taxonomy[j].0 && NoDup(st.found[j].1) &&
      (s in st.found[j].1 <==> s in taxonomy[j].1 && AnyAccepted(Confident(rx, text), s, Mentions(s, text)))
  {
    assert taxonomy[..|taxonomy|] == taxonomy;
    LitPassProjection(rx, text, taxonomy, |taxonomy|);
    ListSkillsMembers(Confident(rx, text), text, taxonomy[j].1, [], s);
    InitialValid(taxonomy);
    LitPassValid(rx, text, taxonomy, Keys(taxonomy), InitialTables(taxonomy));
  }

  // ----- pass 2: the pattern table -----

  /** The pattern table of the second pass, by category, as the matcher applies it. */
  const SkillPatterns: Dict<seq<string>> := [
    ("Programming Languages", [
      "\\b(python|java|javascript|js|c\\+\\+|c#|golang|go|rust|swift|kotlin|php|ruby|scala|typescript|ts)\\b",
      "\\b(programming|coding|development)\\s+(in\\s+)?(python|java|javascript|js|c\\+\\+|c#|golang|go|rust|swift|kotlin|php|ruby|scala|typescript|ts)\\b",
      "\\b(wrote|developed|built|created)\\s+(in\\s+)?(python|java|javascript|js|c\\+\\+|c#|golang|go|rust|swift|kotlin|php|ruby|scala|typescript|ts)\\b"
    ]),
    ("Web & Frontend", [
      "\\b(html|css|sass|scss|less|react|angular|vue|next\\.js|jquery|bootstrap|tailwind|material-ui|mui)\\b",
      "\\b(frontend|front-end|front\\s+end|web\\s+development|ui/ux|user\\s+interface)\\b",
      "\\b(built|developed|created)\\s+(web|frontend|ui)\\s+(using\\s+)?(html|css|react|angular|vue)\\b"
    ]),
    ("Backend & Frameworks", [
      "\\b(node\\.js|nodejs|express|django|flask|spring|ruby\\s+on\\s+rails|rails|\\.net|fastapi|laravel|asp\\.net)\\b",
      "\\b(backend|back-end|back\\s+end|api\\s+development|server-side|server\\s+side)\\b",
      "\\b(developed|built|created)\\s+(api|backend|server)\\s+(using\\s+)?(node|express|django|flask|spring)\\b"
    ]),
    ("Databases", [
      "\\b(sql|mysql|postgresql|postgres|mongodb|redis|sqlite|oracle|cassandra|dynamodb|nosql|database)\\b",
      "\\b(database\\s+design|data\\s+modeling|db\\s+administration|data\\s+management)\\b",
      "\\b(worked\\s+with|used|implemented)\\s+(sql|mysql|postgresql|mongodb|redis)\\b"
    ]),
    ("Cloud & DevOps", [
      "\\b(aws|amazon\\s+web\\s+services|azure|gcp|google\\s+cloud|docker|kubernetes|k8s|terraform|ansible|jenkins|ci/cd|git|github|gitlab)\\b",
      "\\b(devops|cloud\\s+computing|infrastructure|deployment|automation|containerization)\\b",
      "\\b(deployed|hosted|managed)\\s+(on\\s+)?(aws|azure|gcp|cloud)\\b"
    ]),
    ("Data Science & ML", [
      "\\b(pandas|numpy|scikit-learn|sklearn|tensorflow|pytorch|keras|matplotlib|seaborn|jupyter|apache\\s+spark|spark)\\b",
      "\\b(machine\\s+learning|ml|data\\s+science|artificial\\s+intelligence|ai|deep\\s+learning|data\\s+analysis)\\b",
      "\\b(built|developed|trained)\\s+(ml|machine\\s+learning|ai|data\\s+science)\\s+(models|algorithms)\\b"
    ]),
    ("Software & Tools", [
      "\\b(jira|confluence|figma|postman|linux|bash|powershell|vscode|visual\\s+studio|intellij|eclipse)\\b",
      "\\b(project\\s+management|agile|scrum|version\\s+control|ide|development\\s+tools)\\b",
      "\\b(used|worked\\s+with|managed)\\s+(jira|confluence|figma|postman)\\b"
    ])
  ]

  const PatternCategories: seq<string> := [
    "Programming Languages", "Web & Frontend", "Backend & Frameworks", "Databases",
    "Cloud & DevOps", "Data Science & ML", "Software & Tools"
  ]

  lemma PatternCategoriesAreKeys()
    ensures Keys(SkillPatterns) == PatternCategories
  {
  }

  /** A computation that either yields a value or stops with a `KeyError` on a missing key. */
  datatype Result<T> = Ok(value: T) | KeyError(key: string)

  /** `matched not in found_skills[category]` and the recording that follows: a category the
      tables lack raises `KeyError`. */
  function Admit(st: Tables, category: string, matched: string, c: int, context: string): Result<Tables> {
    if !HasKey(st.found, category) then KeyError(category) else Ok(Take(st, category, matched, c, context))
  }

  /** One pattern match: its stripped text, if longer than two characters, is admitted when its
      confidence reaches 0.5 (the category is looked up only then). */
  function PatStep(rx: Engine, text: string, category: string, m: Match, st: Tables): Result<Tables> {
    var matched := Strip(m.text);
    if |matched| <= 2 then Ok(st)
    else
      var c := ContextConfidence(rx, text, matched, m.start);
      if c < 5 then Ok(st)
      else Admit(st, category, matched, c, MatchContext(text, m.start, m.start + |m.text|))
  }

  /** The matches of one pattern, in order; a `KeyError` ends the pass. */
  function PatMatches(rx: Engine, text: string, category: string, ms: seq<Match>, o: Result<Tables>): Result<Tables>
    decreases |ms|
  {
    if ms == [] || o.KeyError? then o
    else PatMatches(rx, text, category, ms[1..], PatStep(rx, text, category, ms[0], o.value))
  }

  /** The matches of `pattern`: searched case-insensitively in the lower-cased text. */
  function PatternMatches(rx: Engine, text: string, pattern: string): seq<Match> {
    rx(IgnoreCase + pattern, Lower(text))
  }

  function PatPatterns(rx: Engine, text: string, category: string, patterns: seq<string>, o: Result<Tables>): Result<Tables>
    decreases |patterns|
  {
    if patterns == [] || o.KeyError? then o
    else PatPatterns(rx, text, category, patterns[1..], PatMatches(rx, text, category, PatternMatches(rx, text, patterns[0]), o))
  }

  function PatPass(rx: Engine, text: string, table: Dict<seq<string>>, o: Result<Tables>): Result<Tables>
    decreases |table|
  {
    if table == [] || o.KeyError? then o
    else PatPass(rx, text, table[1..], PatPatterns(rx, text, table[0].0, table[0].1, o))
  }

  lemma AdmitValid(categories: seq<string>, st: Tables, category: string, matched: string, c: int, context: string)
    requires Valid(categories, st) && 5 <= c <= 10
    ensures Admit(st, category, matched, c, context).Ok? ==> Valid(categories, Admit(st, category, matched, c, context).value)
  {
    if HasKey(st.found, category) {
      TakeValid(categories, st, category, matched, c, context);
    }
  }

  lemma PatStepValid(rx: Engine, text: string, category: string, m: Match, categories: seq<string>, st: Tables)
    requires Valid(categories, st)
    ensures PatStep(rx, text, category, m, st).Ok? ==> Valid(categories, PatStep(rx, text, category, m, st).value)
  {
    PatStepCases(rx, text, category, m, st);
    if PatStep(rx, text, category, m, st) != Ok(st) {
      var matched := Strip(m.text);
      AdmitValid(categories, st, category, matched, ContextConfidence(rx, text, matched, m.start),
        MatchContext(text, m.start, m.start + |m.text|));
    }
  }

  lemma {:induction false} PatMatchesValid(rx: Engine, text: string, category: string, ms: seq<Match>,
    categories: seq<string>, o: Result<Tables>)
    requires o.Ok? ==> Valid(categories, o.value)
    ensures var r := PatMatches(rx, text, category, ms, o); r.Ok? ==> Valid(categories, r.value)
    decreases |ms|
  {
    if ms != [] && o.Ok? {
      PatStepValid(rx, text, category, ms[0], categories, o.value);
      PatMatchesValid(rx, text, category, ms[1..], categories, PatStep(rx, text, category, ms[0], o.value));
    }
  }

  lemma {:induction false} PatPatternsValid(rx: Engine, text: string, category: string, patterns: seq<string>,
    categories: seq<string>, o: Result<Tables>)
    requires o.Ok? ==> Valid(categories, o.value)
    ensures var r := PatPatterns(rx, text, category, patterns, o); r.Ok? ==> Valid(categories, r.value)
    decreases |patterns|
  {
    if patterns != [] && o.Ok? {
      var ms := PatternMatches(rx, text, patterns[0]);
      PatMatchesValid(rx, text, category, ms, categories, o);
      PatPatternsValid(rx, text, category, patterns[1..], categories, PatMatches(rx, text, category, ms, o));
    }
  }

  /** The pattern pass keeps the tables valid. */
  lemma {:induction false} PatPassValid(rx: Engine, text: string, table: Dict<seq<string>>, categories: seq<string>, o: Result<Tables>)
    requires o.Ok? ==> Valid(categories, o.value)
    ensures var r := PatPass(rx, text, table, o); r.Ok? ==> Valid(categories, r.value)
    decreases |table|
  {
    if table != [] && o.Ok? {
      PatPatternsValid(rx, text, table[0].0, table[0].1, categories, o);
      PatPassValid(rx, text, table[1..], categories, PatPatterns(rx, text, table[0].0, table[0].1, o));
    }
  }

  // When every category of the pattern table has a list, no KeyError is raised and the
  // categories stay as they were.

  lemma AdmitKeys(st: Tables, category: string, matched: string, c: int, context: string)
    requires HasKey(st.found, category)
    ensures Admit(st, category, matched, c, context).Ok?
    ensures Keys(Admit(st, category, matched, c, context).value.found) == Keys(st.found)
  {
    TakeProjection(st, category, matched, c, context);
    assert Keys(Admit(st, category, matched, c, context).value.found) == Keys(st.found);
  }

  lemma PatStepKeys(rx: Engine, text: string, category: string, m: Match, st: Tables)
    requires HasKey(st.found, category)
    ensures PatStep(rx, text, category, m, st).Ok?
    ensures Keys(PatStep(rx, text, category, m, st).value.found) == Keys(st.found)
  {
    PatStepCases(rx, text, category, m, st);
    if PatStep(rx, text, category, m, st) != Ok(st) {
      AdmitKeys(st, category, Strip(m.text), ContextConfidence(rx, text, Strip(m.text), m.start),
        MatchContext(text, m.start, m.start + |m.text|));
    }
  }

  lemma {:induction false} PatMatchesKeys(rx: Engine, text: string, category: string, ms: seq<Match>, st: Tables)
    requires HasKey(st.found, category)
    ensures PatMatches(rx, text, category, ms, Ok(st)).Ok?
    ensures Keys(PatMatches(rx, text, category, ms, Ok(st)).value.found) == Keys(st.found)
    decreases |ms|
  {
    if ms != [] {
      PatStepKeys(rx, text, category, ms[0], st);
      var next := PatStep(rx, text, category, ms[0], st).value;
      assert PatMatches(rx, text, category, ms, Ok(st)) == PatMatches(rx, text, category, ms[1..], Ok(next));
      KeysHaveKeyBoth(st.found, next.found, category);
      PatMatchesKeys(rx, text, category, ms[1..], next);
    }
  }

  lemma {:induction false} PatPatternsKeys(rx: Engine, text: string, category: string, patterns: seq<string>, st: Tables)
    requires HasKey(st.found, category)
    ensures PatPatterns(rx, text, category, patterns, Ok(st)).Ok?
    ensures Keys(PatPatterns(rx, text, category, patterns, Ok(st)).value.found) == Keys(st.found)
    decreases |patterns|
  {
    if patterns != [] {
      var ms := PatternMatches(rx, text, patterns[0]);
      PatMatchesKeys(rx, text, category, ms, st);
      var next := PatMatches(rx, text, category, ms, Ok(st)).value;
      assert HasKey(next.found, category) by {
        var i :| 0 <= i < |st.found| && st.found[i].0 == category;
        assert Keys(next.found)[i] == category;
      }
      PatPatternsKeys(rx, text, category, patterns[1..], next);
    }
  }

  /** The pattern pass raises no `KeyError` when the tables have a list for every category of
      the pattern table, and it adds no category. */
  lemma {:induction false} PatPassKeys(rx: Engine, text: string, table: Dict<seq<string>>, st: Tables)
    requires forall i :: 0 <= i < |table| ==> HasKey(st.found, table[i].0)
    ensures PatPass(rx, text, table, Ok(st)).Ok?
    ensures Keys(PatPass(rx, text, table, Ok(st)).value.found) == Keys(st.found)
    decreases |table|
  {
    if table != [] {
      PatPatternsKeys(rx, text, table[0].0, table[0].1, st);
      var next := PatPatterns(rx, text, table[0].0, table[0].1, Ok(st)).value;
      forall i | 0 <= i < |table[1..]| ensures HasKey(next.found, table[1..][i].0) {
        assert table[1..][i] == table[i + 1];
        var k :| 0 <= k < |st.found| && st.found[k].0 == table[i + 1].0;
        assert Keys(next.found)[k] == table[i + 1].0;
      }
      PatPassKeys(rx, text, table[1..], next);
    }
  }

  /** A `KeyError` names a category of the pattern table that the tables lack; a pass that
      does not raise keeps the categories as they were. */
  lemma PatStepOutcome(rx: Engine, text: string, category: string, m: Match, st: Tables)
    ensures var r := PatStep(rx, text, category, m, st);
      (r.Ok? ==> Keys(r.value.found) == Keys(st.found)) &&
      (r.KeyError? ==> r.key == category && !HasKey(st.found, category))
  {
    if HasKey(st.found, category) {
      PatStepKeys(rx, text, category, m, st);
    }
  }

  lemma {:induction false} PatMatchesOutcome(rx: Engine, text: string, category: string, ms: seq<Match>, st: Tables)
    ensures var r := PatMatches(rx, text, category, ms, Ok(st));
      (r.Ok? ==> Keys(r.value.found) == Keys(st.found)) &&
      (r.KeyError? ==> r.key == category && !HasKey(st.found, category))
    decreases |ms|
  {
    if ms != [] {
      PatStepOutcome(rx, text, category, ms[0], st);
      var next := PatStep(rx, text, category, ms[0], st);
      assert PatMatches(rx, text, category, ms, Ok(st)) == PatMatches(rx, text, category, ms[1..], next);
      if next.Ok? {
        PatMatchesOutcome(rx, text, category, ms[1..], next.value);
        KeysHaveKeyBoth(st.found, next.value.found, category);
      }
    }
  }

  lemma KeysHaveKeyBoth<V, W>(a: Dict<V>, b: Dict<W>, k: string)
    requires Keys(a) == Keys(b)
    ensures HasKey(a, k) <==> HasKey(b, k)
  {
    if HasKey(a, k) {
      var i :| 0 <= i < |a| && a[i].0 == k;
      assert Keys(b)[i] == k;
    }
    if HasKey(b, k) {
      var i :| 0 <= i < |b| && b[i].0 == k;
      assert Keys(a)[i] == k;
    }
  }

  lemma {:induction false} PatPatternsOutcome(rx: Engine, text: string, category: string, patterns: seq<string>, st: Tables)
    ensures var r := PatPatterns(rx, text, category, patterns, Ok(st));
      (r.Ok? ==> Keys(r.value.found) == Keys(st.found)) &&
      (r.KeyError? ==> r.key == category && !HasKey(st.found, category))
    decreases |patterns|
  {
    if patterns != [] {
      var ms := PatternMatches(rx, text, patterns[0]);
      PatMatchesOutcome(rx, text, category, ms, st);
      var next := PatMatches(rx, text, category, ms, Ok(st));
      if next.Ok? {
        PatPatternsOutcome(rx, text, category, patterns[1..], next.value);
        KeysHaveKeyBoth(st.found, next.value.found, category);
      }
    }
  }

  /** The pattern pass raises `KeyError` only for a category of its table that the tables lack. */
  lemma {:induction false} PatPassOutcome(rx: Engine, text: string, table: Dict<seq<string>>, st: Tables)
    ensures var r := PatPass(rx, text, table, Ok(st));
      (r.Ok? ==> Keys(r.value.found) == Keys(st.found)) &&
      (r.KeyError? ==> HasKey(table, r.key) && !HasKey(st.found, r.key))
    decreases |table|
  {
    if table != [] {
      PatPatternsOutcome(rx, text, table[0].0, table[0].1, st);
      var next := PatPatterns(rx, text, table[0].0, table[0].1, Ok(st));
      if next.Ok? {
        PatPassOutcome(rx, text, table[1..], next.value);
        var r := PatPass(rx, text, table, Ok(st));
        if r.KeyError? {
          KeysHaveKeyBoth(st.found, next.value.found, r.key);
          var i :| 0 <= i < |table[1..]| && table[1..][i].0 == r.key;
          assert table[i + 1].0 == r.key;
        }
      }
    }
  }

  // What the pattern pass adds.

  /** Every list of `after` continues the list at the same position of `before`, and whatever
      it appends is lower-case and longer than two characters. */
  predicate Extends(before: Dict<seq<string>>, after: Dict<seq<string>>) {
    |after| == |before| &&
    forall i :: 0 <= i < |before| ==>
      after[i].0 == before[i].0 && before[i].1 <= after[i].1 &&
      forall k :: |before[i].1| <= k < |after[i].1| ==> |after[i].1[k]| > 2 && IsLowerCase(after[i].1[k])
  }

  lemma ExtendsRefl(a: Dict<seq<string>>)
    ensures Extends(a, a)
  {
  }

  lemma ExtendsTrans(a: Dict<seq<string>>, b: Dict<seq<string>>, c: Dict<seq<string>>)
    requires Extends(a, b) && Extends(b, c)
    ensures Extends(a, c)
  {
    forall i | 0 <= i < |a| ensures a[i].1 <= c[i].1 {
      assert c[i].1[..|a[i].1|] == c[i].1[..|b[i].1|][..|a[i].1|];
    }
  }

  lemma AdmitExtends(st: Tables, category: string, matched: string, c: int, context: string)
    requires |matched| > 2 && IsLowerCase(matched)
    ensures var r := Admit(st, category, matched, c, context); r.Ok? ==> Extends(st.found, r.value.found)
  {
    if HasKey(st.found, category) {
      TakeProjection(st, category, matched, c, context);
    }
  }

  lemma StripLower(s: string)
    requires IsLowerCase(s)
    ensures IsLowerCase(Strip(s))
  {
    var lo := StripIsSlice(s);
    SliceOfLowerCase(s, lo, lo + |Strip(s)|);
  }

  /** The two shapes of a pattern step: nothing happens, or the stripped match is admitted. */
  lemma PatStepCases(rx: Engine, text: string, category: string, m: Match, st: Tables)
    ensures PatStep(rx, text, category, m, st) == Ok(st) ||
      (|Strip(m.text)| > 2 && 5 <= ContextConfidence(rx, text, Strip(m.text), m.start) &&
       PatStep(rx, text, category, m, st) == Admit(st, category, Strip(m.text),
         ContextConfidence(rx, text, Strip(m.text), m.start), MatchContext(text, m.start, m.start + |m.text|)))
  {
  }

  lemma PatStepExtends(rx: Engine, text: string, category: string, m: Match, st: Tables)
    requires IsLowerCase(m.text)
    ensures var r := PatStep(rx, text, category, m, st); r.Ok? ==> Extends(st.found, r.value.found)
  {
    PatStepCases(rx, text, category, m, st);
    StripLower(m.text);
    ExtendsRefl(st.found);
    if PatStep(rx, text, category, m, st) != Ok(st) {
      AdmitExtends(st, category, Strip(m.text), ContextConfidence(rx, text, Strip(m.text), m.start),
        MatchContext(text, m.start, m.start + |m.text|));
    }
  }

  lemma {:induction false} PatMatchesExtends(rx: Engine, text: string, category: string, ms: seq<Match>, st: Tables)
    requires forall j :: 0 <= j < |ms| ==> IsLowerCase(ms[j].text)
    ensures var r := PatMatches(rx, text, category, ms, Ok(st)); r.Ok? ==> Extends(st.found, r.value.found)
    decreases |ms|
  {
    ExtendsRefl(st.found);
    if ms != [] {
      var next := PatStep(rx, text, category, ms[0], st);
      var r := PatMatches(rx, text, category, ms, Ok(st));
      assert r == PatMatches(rx, text, category, ms[1..], next);
      PatStepExtends(rx, text, category, ms[0], st);
      if next.Ok? {
        assert forall j :: 0 <= j < |ms[1..]| ==> IsLowerCase(ms[1..][j].text) by {
          forall j | 0 <= j < |ms[1..]| ensures IsLowerCase(ms[1..][j].text) {
            assert ms[1..][j] == ms[j + 1];
          }
        }
        PatMatchesExtends(rx, text, category, ms[1..], next.value);
        if r.Ok? {
          ExtendsTrans(st.found, next.value.found, r.value.found);
        }
      }
    }
  }

  /** A faithful engine run on lower-cased text returns lower-case matches. */
  lemma MatchesOfLowerText(rx: Engine, p: string, text: string)
    requires Faithful(rx)
    ensures forall j :: 0 <= j < |rx(p, Lower(text))| ==> IsLowerCase(rx(p, Lower(text))[j].text)
  {
    forall j | 0 <= j < |rx(p, Lower(text))| ensures IsLowerCase(rx(p, Lower(text))[j].text) {
      var m := rx(p, Lower(text))[j];
      assert m in rx(p, Lower(text));
      LowerIsLowerCase(text);
      SliceOfLowerCase(Lower(text), m.start, m.start + |m.text|);
    }
  }

  lemma {:induction false} PatPatternsExtends(rx: Engine, text: string, category: string, patterns: seq<string>, st: Tables)
    requires Faithful(rx)
    ensures var r := PatPatterns(rx, text, category, patterns, Ok(st)); r.Ok? ==> Extends(st.found, r.value.found)
    decreases |patterns|
  {
    if patterns != [] {
      var ms := PatternMatches(rx, text, patterns[0]);
      MatchesOfLowerText(rx, IgnoreCase + patterns[0], text);
      PatMatchesExtends(rx, text, category, ms, st);
      var next := PatMatches(rx, text, category, ms, Ok(st));
      if next.Ok? {
        PatPatternsExtends(rx, text, category, patterns[1..], next.value);
        var r := PatPatterns(rx, text, category, patterns, Ok(st));
        if r.Ok? {
          ExtendsTrans(st.found, next.value.found, r.value.found);
        }
      }
    }
  }

  /** The pattern pass only appends to the category lists, and only lower-case texts longer
      than two characters. */
  lemma {:induction false} PatPassExtends(rx: Engine, text: string, table: Dict<seq<string>>, st: Tables)
    requires Faithful(rx)
    ensures var r := PatPass(rx, text, table, Ok(st)); r.Ok? ==> Extends(st.found, r.value.found)
    decreases |table|
  {
    if table != [] {
      PatPatternsExtends(rx, text, table[0].0, table[0].1, st);
      var next := PatPatterns(rx, text, table[0].0, table[0].1, Ok(st));
      if next.Ok? {
        PatPassExtends(rx, text, table[1..], next.value);
        var r := PatPass(rx, text, table, Ok(st));
        if r.Ok? {
          ExtendsTrans(st.found, next.value.found, r.value.found);
        }
      }
    }
  }

  // ----- the two passes, step by step -----

  /** The innermost loop of the first pass: the mentions of one skill. */
  method TakeMentions(rx: Engine, text: string, category: string, skill: string, matches: seq<nat>, st0: Tables)
    returns (st: Tables)
    ensures st == LitMentions(rx, text, category, skill, matches, st0)
  {
    st := st0;
    for k := 0 to |matches|
      invariant st == LitMentions(rx, text, category, skill, matches[..k], st0)
    {
      assert matches[..k + 1][..k] == matches[..k];
      st := TakeMention(rx, text, category, skill, matches[k], st);
    }
    assert matches[..|matches|] == matches;
  }

  /** The body of the mention loop: a mention confident enough is recorded once. */
  method TakeMention(rx: Engine, text: string, category: string, skill: string, start: nat, before: Tables)
    returns (st: Tables)
    ensures st == LitStep(rx, text, category, skill, start, before)
  {
    st := before;
    var confidence := AnalyzeSkillContext(rx, text, skill, start);
    if confidence >= 6 {
      var list := Get(st.found, category, []);
      if skill !in list {
        st := st.(found := Put(st.found, category, list + [skill]));
        st := st.(confidence := Put(st.confidence, skill, confidence));
        st := st.(contexts := Put(st.contexts, skill, MatchContext(text, start, start + |skill|)));
        assert st == Record(before, category, skill, confidence, MatchContext(text, start, start + |skill|));
      }
      assert st == Take(before, category, skill, confidence, MatchContext(text, start, start + |skill|));
    }
  }


  /** The first loop nest of `classify_skills_enhanced`: every skill of every category, every
      whole-word mention of it in the lower-cased text. */
  method LiteralPass(rx: Engine, text: string, taxonomy: Dict<seq<string>>) returns (st: Tables)
    ensures st == LitPass(rx, text, taxonomy, InitialTables(taxonomy))
  {
    var textLower := Lower(text);
    st := InitialTables(taxonomy);
    for i := 0 to |taxonomy|
      invariant st == LitPass(rx, text, taxonomy[..i], InitialTables(taxonomy))
    {
      assert taxonomy[..i + 1][..i] == taxonomy[..i];
      var category := taxonomy[i].0;
      var skills := taxonomy[i].1;
      ghost var atCategory := st;
      for j := 0 to |skills|
        invariant st == LitSkills(rx, text, category, skills[..j], atCategory)
      {
        assert skills[..j + 1][..j] == skills[..j];
        var skill := skills[j];
        var matches := WordMatchesFrom(Lower(skill), textLower, 0);
        st := TakeMentions(rx, text, category, skill, matches, st);
      }
      assert skills[..|skills|] == skills;
    }
    assert taxonomy[..|taxonomy|] == taxonomy;
  }

  /** The innermost loop of the second pass: the matches of one pattern. */
  method AdmitMatches(rx: Engine, text: string, category: string, matches: seq<Match>, st0: Tables)
    returns (r: Result<Tables>)
    ensures r == PatMatches(rx, text, category, matches, Ok(st0))
  {
    var st := st0;
    for k := 0 to |matches|
      invariant PatMatches(rx, text, category, matches, Ok(st0)) == PatMatches(rx, text, category, matches[k..], Ok(st))
    {
      var m := matches[k];
      assert PatMatches(rx, text, category, matches[k..], Ok(st)) ==
        PatMatches(rx, text, category, matches[k + 1..], PatStep(rx, text, category, m, st));
      var matched := Strip(m.text);
      if |matched| > 2 {
        var confidence := AnalyzeSkillContext(rx, text, matched, m.start);
        if confidence >= 5 {
          if !HasKey(st.found, category) {
            assert PatStep(rx, text, category, m, st) == KeyError(category);
            r := KeyError(category);
            return;
          }
          var list := Get(st.found, category, []);
          if matched !in list {
            st := st.(found := Put(st.found, category, list + [matched]));
            st := st.(confidence := Put(st.confidence, matched, confidence));
            st := st.(contexts := Put(st.contexts, matched, MatchContext(text, m.start, m.start + |m.text|)));
          }
        }
      }
    }
    r := Ok(st);
  }

  /** The middle loop of the second pass: the patterns of one category, each searched without
      regard to case in the lower-cased text. */
  method AdmitPatterns(rx: Engine, text: string, category: string, patterns: seq<string>, st0: Tables)
    returns (r: Result<Tables>)
    ensures r == PatPatterns(rx, text, category, patterns, Ok(st0))
  {
    var textLower := Lower(text);
    var st := st0;
    for j := 0 to |patterns|
      invariant PatPatterns(rx, text, category, patterns, Ok(st0)) == PatPatterns(rx, text, category, patterns[j..], Ok(st))
    {
      var matches := rx(IgnoreCase + patterns[j], textLower);
      assert PatPatterns(rx, text, category, patterns[j..], Ok(st)) ==
        PatPatterns(rx, text, category, patterns[j + 1..], PatMatches(rx, text, category, matches, Ok(st)));
      var outcome := AdmitMatches(rx, text, category, matches, st);
      if outcome.KeyError? {
        r := outcome;
        return;
      }
      st := outcome.value;
    }
    r := Ok(st);
  }

  /** The second loop nest: the categories of a pattern table in order. */
  method PatternPass(rx: Engine, text: string, table: Dict<seq<string>>, st0: Tables) returns (r: Result<Tables>)
    ensures r == PatPass(rx, text, table, Ok(st0))
  {
    var st := st0;
    for i := 0 to |table|
      invariant PatPass(rx, text, table, Ok(st0)) == PatPass(rx, text, table[i..], Ok(st))
    {
      var category := table[i].0;
      var patterns := table[i].1;
      assert PatPass(rx, text, table[i..], Ok(st)) ==
        PatPass(rx, text, table[i + 1..], PatPatterns(rx, text, category, patterns, Ok(st)));
      var outcome := AdmitPatterns(rx, text, category, patterns, st);
      if outcome.KeyError? {
        r := outcome;
        return;
      }
      st := outcome.value;
    }
    r := Ok(st);
  }

  // ----- statistics -----

  /** `sum(len(skills) for skills in found.values())`. */
  function TotalSkills(found: Dict<seq<string>>): nat
    decreases |found|
  {
    if found == [] then 0 else TotalSkills(found[..|found| - 1]) + |found[|found| - 1].1|
  }

  /** `sum(1 for skills in found.values() if skills)`. */
  function CategoriesWithSkills(found: Dict<seq<string>>): (n: nat)
    ensures n <= |found|
    decreases |found|
  {
    if found == [] then 0
    else CategoriesWithSkills(found[..|found| - 1]) + (if found[|found| - 1].1 != [] then 1 else 0)
  }

  /** The confidence bands of the statistics: 2 from 0.8 up, 1 from 0.6 up, 0 below. */
  function Band(c: int): nat {
    if c >= 8 then 2 else if c >= 6 then 1 else 0
  }

  /** The number of scores in band `b`. */
  function CountBand(conf: Dict<int>, b: nat): nat
    decreases |conf|
  {
    if conf == [] then 0
    else CountBand(conf[..|conf| - 1], b) + (if Band(conf[|conf| - 1].1) == b then 1 else 0)
  }

  function ConfidenceSum(conf: Dict<int>): int
    decreases |conf|
  {
    if conf == [] then 0 else ConfidenceSum(conf[..|conf| - 1]) + conf[|conf| - 1].1
  }

  /** `round(sum / len, 2)` in hundredths (half-way cases rounded up); 0 without scores.  The
      result is the mean, ten times the mean in tenths, to within half a hundredth. */
  function AverageConfidence(conf: Dict<int>): (avg: int)
    ensures conf == [] ==> avg == 0
    ensures conf != [] ==> -|conf| < 2 * |conf| * avg - 20 * ConfidenceSum(conf) <= |conf|
  {
    if conf == [] then 0
    else
      HalfUpQuotient(20 * ConfidenceSum(conf), |conf|);
      (20 * ConfidenceSum(conf) + |conf|) / (2 * |conf|)
  }

  /** Rounding `a / (2 * n)` half-up lands within half a unit of it. */
  lemma HalfUpQuotient(a: int, n: int)
    requires n > 0
    ensures -n < 2 * n * ((a + n) / (2 * n)) - a <= n
  {
    var d := 2 * n;
    var q, r := (a + n) / d, (a + n) % d;
    assert a + n == d * q + r && 0 <= r < d;
  }

  datatype Statistics = Statistics(totalSkills: nat, averageConfidence: int, categoriesWithSkills: nat,
    highConfidenceSkills: nat, mediumConfidenceSkills: nat, lowConfidenceSkills: nat)

  function Stats(st: Tables): Statistics {
    Statistics(TotalSkills(st.found), AverageConfidence(st.confidence), CategoriesWithSkills(st.found),
      CountBand(st.confidence, 2), CountBand(st.confidence, 1), CountBand(st.confidence, 0))
  }

  /** Every score falls in exactly one of the three bands. */
  lemma {:induction false} BandsPartition(conf: Dict<int>)
    ensures CountBand(conf, 2) + CountBand(conf, 1) + CountBand(conf, 0) == |conf|
    decreases |conf|
  {
    if conf != [] {
      BandsPartition(conf[..|conf| - 1]);
    }
  }

  lemma {:induction false} ConfidenceSumBounds(conf: Dict<int>)
    requires forall i :: 0 <= i < |conf| ==> 5 <= conf[i].1 <= 10
    ensures 5 * |conf| <= ConfidenceSum(conf) <= 10 * |conf|
    decreases |conf|
  {
    if conf != [] {
      ConfidenceSumBounds(conf[..|conf| - 1]);
    }
  }

  /** Integer division of a value that lies between `lo` and `hi` multiples of the divisor. */
  lemma DivBetween(a: int, d: int, lo: int, hi: int)
    requires d > 0 && lo * d <= a < (hi + 1) * d
    ensures lo <= a / d <= hi
  {
    var q := a / d;
    assert q * d <= a < q * d + d;
    if q < lo {
      MulMono(q + 1, lo, d);
      assert false;
    }
    if q > hi {
      MulMono(hi + 1, q, d);
      assert false;
    }
  }

  lemma MulMono(x: int, y: int, d: int)
    requires x <= y && d >= 0
    ensures x * d <= y * d
  {
    assert y * d - x * d == (y - x) * d;
  }

  /** With every score between 0.5 and 1.0, so is the average. */
  lemma AverageBounds(conf: Dict<int>)
    requires conf != []
    requires forall i :: 0 <= i < |conf| ==> 5 <= conf[i].1 <= 10
    ensures 50 <= AverageConfidence(conf) <= 100
  {
    ConfidenceSumBounds(conf);
    var n := |conf|;
    var a := 20 * ConfidenceSum(conf) + n;
    assert 50 * (2 * n) <= a < 101 * (2 * n);
    DivBetween(a, 2 * n, 50, 100);
  }

  /** The distinct skills of a list. */
  function Members(xs: seq<string>): set<string> {
    set k | 0 <= k < |xs| :: xs[k]
  }

  lemma {:induction false} MembersSize(xs: seq<string>)
    ensures |Members(xs)| <= |xs|
    decreases |xs|
  {
    if xs != [] {
      var init := xs[..|xs| - 1];
      MembersSize(init);
      assert Members(xs) == Members(init) + {xs[|xs| - 1]} by {
        forall x | x in Members(xs) ensures x in Members(init) + {xs[|xs| - 1]} {
          var k :| 0 <= k < |xs| && xs[k] == x;
          if k < |init| { assert init[k] == x; }
        }
        forall x | x in Members(init) ensures x in Members(xs) {
          var k :| 0 <= k < |init| && init[k] == x;
          assert xs[k] == x;
        }
      }
    }
  }

  /** The distinct skills of all lists. */
  function ListedSet(found: Dict<seq<string>>): set<string>
    decreases |found|
  {
    if found == [] then {} else ListedSet(found[..|found| - 1]) + Members(found[|found| - 1].1)
  }

  lemma {:induction false} ListedSetFacts(found: Dict<seq<string>>, s: string)
    ensures |ListedSet(found)| <= TotalSkills(found)
    ensures s in ListedSet(found) <==> Listed(found, s)
    decreases |found|
  {
    if found != [] {
      var init := found[..|found| - 1];
      var last := found[|found| - 1];
      ListedSetFacts(init, s);
      MembersSize(last.1);
      if Listed(found, s) && !Listed(init, s) {
        var i :| 0 <= i < |found| && s in found[i].1;
        var k :| 0 <= k < |last.1| && last.1[k] == s;
      }
      if Listed(init, s) {
        var i :| 0 <= i < |init| && s in init[i].1;
        assert found[i] == init[i];
      }
      if s in Members(last.1) {
        assert s in found[|found| - 1].1;
      }
    }
  }

  /** There are no more confidence scores than listed skills: each score belongs to a listed
      skill, and a skill listed under two categories has a single score. */
  lemma ScoresAtMostSkills(categories: seq<string>, st: Tables)
    requires Valid(categories, st)
    ensures |st.confidence| <= TotalSkills(st.found)
  {
    forall s ensures s in KeySet(st.confidence) <==> s in ListedSet(st.found) {
      ListedSetFacts(st.found, s);
      if HasKey(st.confidence, s) {
        var i :| 0 <= i < |st.confidence| && st.confidence[i].0 == s;
      }
    }
    assert KeySet(st.confidence) == ListedSet(st.found);
    UniqueKeysCount(st.confidence);
    ListedSetFacts(st.found, "");
  }

  // ----- skill gaps -----

  /** `[skill for skill in skills if skill not in found]`. */
  function Missing(skills: seq<string>, found: seq<string>): (r: seq<string>)
    ensures |r| <= |skills|
    decreases |skills|
  {
    if skills == [] then []
    else
      var r := Missing(skills[..|skills| - 1], found);
      if skills[|skills| - 1] in found then r else r + [skills[|skills| - 1]]
  }

  lemma {:induction false} MissingMembers(skills: seq<string>, found: seq<string>, s: string)
    ensures s in Missing(skills, found) <==> s in skills && s !in found
    decreases |skills|
  {
    if skills != [] {
      var init := skills[..|skills| - 1];
      MissingMembers(init, found, s);
      assert skills == init + [skills[|skills| - 1]];
    }
  }

  /** `xs[:5]`. */
  function FirstFive(xs: seq<string>): (r: seq<string>)
    ensures |r| <= 5 && r <= xs
    ensures |r| == |xs| || |r| == 5
  {
    if |xs| <= 5 then xs else xs[..5]
  }

  /** The gaps of the categories of `taxonomy`: up to five of each category's skills that were
      not found, for the categories where some were not. */
  function SkillGaps(found: Dict<seq<string>>, taxonomy: Dict<seq<string>>): Dict<seq<string>>
    decreases |taxonomy|
  {
    if taxonomy == [] then []
    else
      var gaps := SkillGaps(found, taxonomy[..|taxonomy| - 1]);
      var category := taxonomy[|taxonomy| - 1].0;
      var missing := Missing(taxonomy[|taxonomy| - 1].1, Get(found, category, []));
      if missing != [] then Put(gaps, category, FirstFive(missing)) else gaps
  }

  /** `identify_skill_gaps`. */
  method IdentifySkillGaps(found: Dict<seq<string>>, taxonomy: Dict<seq<string>>) returns (gaps: Dict<seq<string>>)
    ensures gaps == SkillGaps(found, taxonomy)
  {
    gaps := [];
    for i := 0 to |taxonomy|
      invariant gaps == SkillGaps(found, taxonomy[..i])
    {
      assert taxonomy[..i + 1][..i] == taxonomy[..i];
      var category := taxonomy[i].0;
      var foundInCategory := Get(found, category, []);
      var missing := Missing(taxonomy[i].1, foundInCategory);
      if missing != [] {
        gaps := Put(gaps, category, FirstFive(missing));
      }
    }
    assert taxonomy[..|taxonomy|] == taxonomy;
  }

  /** Only categories of the taxonomy have gaps, and each gap lists one to five skills. */
  lemma {:induction false} GapEntries(found: Dict<seq<string>>, taxonomy: Dict<seq<string>>)
    ensures forall k :: 0 <= k < |SkillGaps(found, taxonomy)| ==>
      HasKey(taxonomy, SkillGaps(found, taxonomy)[k].0) && 1 <= |SkillGaps(found, taxonomy)[k].1| <= 5
    decreases |taxonomy|
  {
    if taxonomy != [] {
      var init := taxonomy[..|taxonomy| - 1];
      GapEntries(found, init);
      var gaps := SkillGaps(found, init);
      var category := taxonomy[|taxonomy| - 1].0;
      var missing := Missing(taxonomy[|taxonomy| - 1].1, Get(found, category, []));
      forall k | 0 <= k < |gaps| ensures HasKey(taxonomy, gaps[k].0) {
        assert HasKey(init, gaps[k].0);
        var i :| 0 <= i < |init| && init[i].0 == gaps[k].0;
        assert taxonomy[i] == init[i];
      }
      if missing != [] {
        PutEntries(gaps, category, FirstFive(missing));
        var r := Put(gaps, category, FirstFive(missing));
        forall k | 0 <= k < |r| ensures HasKey(taxonomy, r[k].0) && 1 <= |r[k].1| <= 5 {
          if r[k] != (category, FirstFive(missing)) {
            var j :| 0 <= j < |gaps| && gaps[j] == r[k];
            assert HasKey(taxonomy, gaps[j].0) && 1 <= |gaps[j].1| <= 5;
          } else {
            assert taxonomy[|taxonomy| - 1].0 == r[k].0;
          }
        }
      }
    }
  }

  /** A category of the taxonomy has a gap exactly when some of its skills were not found, and
      the gap is the first five of them, in taxonomy order. */
  lemma {:induction false} GapOf(found: Dict<seq<string>>, taxonomy: Dict<seq<string>>, i: nat)
    requires UniqueKeys(taxonomy) && i < |taxonomy|
    ensures var gaps := SkillGaps(found, taxonomy);
      var missing := Missing(taxonomy[i].1, Get(found, taxonomy[i].0, []));
      (HasKey(gaps, taxonomy[i].0) <==> missing != []) && Get(gaps, taxonomy[i].0, []) == FirstFive(missing)
    decreases |taxonomy|
  {
    var init := taxonomy[..|taxonomy| - 1];
    var gaps := SkillGaps(found, init);
    var category := taxonomy[|taxonomy| - 1].0;
    var missing := Missing(taxonomy[|taxonomy| - 1].1, Get(found, category, []));
    var c := taxonomy[i].0;
    if i == |taxonomy| - 1 {
      GapEntries(found, init);
      assert !HasKey(gaps, category);
      if missing != [] {
        PutFacts(gaps, category, FirstFive(missing));
        GetPut(gaps, category, FirstFive(missing), category, []);
      }
    } else {
      assert init[i] == taxonomy[i];
      assert UniqueKeys(init);
      GapOf(found, init, i);
      assert c != category;
      if missing != [] {
        PutHasKey(gaps, category, FirstFive(missing), c);
        GetPut(gaps, category, FirstFive(missing), c, []);
      }
    }
  }

  // ----- recommendations -----

  /** The skills worth having in four of the categories. */
  const HighValueSkills: Dict<seq<string>> := [
    ("Programming Languages", ["python", "javascript", "java"]),
    ("Cloud & DevOps", ["aws", "docker", "git"]),
    ("Data Science & ML", ["python", "pandas", "scikit-learn"]),
    ("Web & Frontend", ["html", "css", "javascript"])
  ]

  /** The categories with fewer than three skills, in order. */
  function WeakCategories(found: Dict<seq<string>>): (r: seq<string>)
    decreases |found|
  {
    if found == [] then []
    else
      var r := WeakCategories(found[..|found| - 1]);
      if |found[|found| - 1].1| < 3 then r + [found[|found| - 1].0] else r
  }

  lemma {:induction false} WeakCategoriesEmpty(found: Dict<seq<string>>)
    ensures WeakCategories(found) == [] <==> forall i :: 0 <= i < |found| ==> |found[i].1| >= 3
    decreases |found|
  {
    if found != [] {
      var init := found[..|found| - 1];
      WeakCategoriesEmpty(init);
      if WeakCategories(found) == [] {
        forall i | 0 <= i < |found| ensures |found[i].1| >= 3 {
          if i < |init| { assert found[i] == init[i]; }
        }
      }
    }
  }

  function WeakLine(weak: seq<string>): string {
    "Consider adding more skills in: " + Join(weak, ", ")
  }

  function ValuableLine(missing: seq<string>, category: string): string {
    "Consider adding " + Join(missing, ", ") + " to strengthen your " + category + " profile"
  }

  /** One line per category of `table` that misses some of its listed skills. */
  function ValuableLines(found: Dict<seq<string>>, table: Dict<seq<string>>): (r: seq<string>)
    ensures |r| <= |table|
    decreases |table|
  {
    if table == [] then []
    else
      var r := ValuableLines(found, table[..|table| - 1]);
      var category := table[|table| - 1].0;
      var missing := Missing(table[|table| - 1].1, Get(found, category, []));
      if missing != [] then r + [ValuableLine(missing, category)] else r
  }

  function Recommendations(found: Dict<seq<string>>): seq<string> {
    var weak := WeakCategories(found);
    (if weak != [] then [WeakLine(weak)] else []) + ValuableLines(found, HighValueSkills)
  }

  /** The loop over the high-value table: a line for each category that misses some of its
      skills, appended in table order. */
  method AddValuableLines(found: Dict<seq<string>>, table: Dict<seq<string>>, recs0: seq<string>) returns (recs: seq<string>)
    ensures recs == recs0 + ValuableLines(found, table)
  {
    recs := recs0;
    for i := 0 to |table|
      invariant recs == recs0 + ValuableLines(found, table[..i])
    {
      assert table[..i + 1][..i] == table[..i];
      var category := table[i].0;
      var missing := Missing(table[i].1, Get(found, category, []));
      if missing != [] {
        recs := recs + [ValuableLine(missing, category)];
      }
    }
    assert table[..|table|] == table;
  }

  /** `generate_skill_recommendations`; the gaps it is given play no part. */
  method GenerateSkillRecommendations(found: Dict<seq<string>>, gaps: Dict<seq<string>>) returns (recs: seq<string>)
    ensures recs == Recommendations(found)
  {
    recs := [];
    var weak := WeakCategories(found);
    if weak != [] {
      recs := recs + [WeakLine(weak)];
    }
    recs := AddValuableLines(found, HighValueSkills, recs);
  }

  /** At most five recommendations: one for the weak categories, one per high-value category. */
  lemma RecommendationsBound(found: Dict<seq<string>>)
    ensures |Recommendations(found)| <= 5
  {
  }

  lemma {:induction false} ValuableLinesEmpty(found: Dict<seq<string>>, table: Dict<seq<string>>)
    ensures ValuableLines(found, table) == [] <==>
      forall j :: 0 <= j < |table| ==> Missing(table[j].1, Get(found, table[j].0, [])) == []
    decreases |table|
  {
    if table != [] {
      var init := table[..|table| - 1];
      ValuableLinesEmpty(found, init);
      if ValuableLines(found, table) == [] {
        forall j | 0 <= j < |table| ensures Missing(table[j].1, Get(found, table[j].0, [])) == [] {
          if j < |init| { assert table[j] == init[j]; }
        }
      }
    }
  }

  /** Nothing is recommended exactly when every category has at least three skills and every
      high-value skill is found in its category. */
  lemma NoRecommendations(found: Dict<seq<string>>)
    ensures Recommendations(found) == [] <==>
      (forall i :: 0 <= i < |found| ==> |found[i].1| >= 3) &&
      (forall j, s :: 0 <= j < |HighValueSkills| && s in HighValueSkills[j].1 ==> s in Get(found, HighValueSkills[j].0, []))
  {
    WeakCategoriesEmpty(found);
    ValuableLinesEmpty(found, HighValueSkills);
    forall j, s | 0 <= j < |HighValueSkills|
      ensures s in Missing(HighValueSkills[j].1, Get(found, HighValueSkills[j].0, [])) <==>
        s in HighValueSkills[j].1 && s !in Get(found, HighValueSkills[j].0, [])
    {
      MissingMembers(HighValueSkills[j].1, Get(found, HighValueSkills[j].0, []), s);
    }
    if ValuableLines(found, HighValueSkills) != [] {
      var j :| 0 <= j < |HighValueSkills| && Missing(HighValueSkills[j].1, Get(found, HighValueSkills[j].0, [])) != [];
      var m := Missing(HighValueSkills[j].1, Get(found, HighValueSkills[j].0, []));
      assert m[0] in m;
    }
  }

  // ----- the classifier -----

  /** The taxonomy used when no skills file can be read. */
  const FallbackSkills: Dict<seq<string>> := [
    ("Programming Languages", ["python", "java", "javascript", "c++", "c#", "go", "rust", "swift", "kotlin", "php", "ruby", "scala"]),
    ("Web & Frontend", ["html", "css", "sass", "react", "angular", "vue", "next.js", "jquery", "bootstrap", "tailwind"]),
    ("Backend & Frameworks", ["node.js", "express", "django", "flask", "spring", "ruby on rails", ".net", "fastapi"]),
    ("Databases", ["sql", "mysql", "postgresql", "mongodb", "redis", "sqlite", "oracle", "cassandra", "dynamodb"]),
    ("Cloud & DevOps", ["aws", "azure", "gcp", "docker", "kubernetes", "terraform", "ansible", "jenkins", "ci/cd", "git", "github actions"]),
    ("Data Science & ML", ["pandas", "numpy", "scikit-learn", "tensorflow", "pytorch", "keras", "matplotlib", "seaborn", "jupyter", "apache spark"]),
    ("Software & Tools", ["jira", "confluence", "figma", "postman", "linux", "bash", "powershell"])
  ]

  lemma FallbackCategories()
    ensures Keys(FallbackSkills) == PatternCategories && UniqueKeys(FallbackSkills)
  {
  }

  /** The result of `classify_skills_enhanced`. */
  datatype Classification = Classification(skillsByCategory: Dict<seq<string>>, confidenceScores: Dict<int>,
    skillContexts: Dict<string>, statistics: Statistics, skillGaps: Dict<seq<string>>, recommendations: seq<string>)

  /** The tables after the literal pass and then the pattern pass. */
  function Passes(rx: Engine, text: string, taxonomy: Dict<seq<string>>, patterns: Dict<seq<string>>): Result<Tables> {
    PatPass(rx, text, patterns, Ok(LitPass(rx, text, taxonomy, InitialTables(taxonomy))))
  }

  /** Both passes, then the statistics, the gaps and the recommendations. */
  function Classify(rx: Engine, text: string, taxonomy: Dict<seq<string>>): Result<Classification> {
    match Passes(rx, text, taxonomy, SkillPatterns)
    case KeyError(k) => KeyError(k)
    case Ok(st) =>
      Ok(Classification(st.found, st.confidence, st.contexts, Stats(st), SkillGaps(st.found, taxonomy), Recommendations(st.found)))
  }

  /** `classify_skills_enhanced`, for a given taxonomy. */
  method ClassifySkillsEnhanced(rx: Engine, text: string, taxonomy: Dict<seq<string>>) returns (r: Result<Classification>)
    ensures r == Classify(rx, text, taxonomy)
  {
    var literal := LiteralPass(rx, text, taxonomy);
    var outcome := PatternPass(rx, text, SkillPatterns, literal);
    if outcome.KeyError? {
      return KeyError(outcome.key);
    }
    var st := outcome.value;
    var gaps := IdentifySkillGaps(st.found, taxonomy);
    var recommendations := GenerateSkillRecommendations(st.found, gaps);
    r := Ok(Classification(st.found, st.confidence, st.contexts, Stats(st), gaps, recommendations));
  }

  /** `classify_skills`: the category lists alone. */
  method ClassifySkills(rx: Engine, text: string, taxonomy: Dict<seq<string>>) returns (r: Result<Dict<seq<string>>>)
    ensures r.Ok? <==> Classify(rx, text, taxonomy).Ok?
    ensures r.Ok? ==> r.value == Classify(rx, text, taxonomy).value.skillsByCategory
    ensures r.KeyError? ==> r.key == Classify(rx, text, taxonomy).key
  {
    var enhanced := ClassifySkillsEnhanced(rx, text, taxonomy);
    if enhanced.KeyError? {
      return KeyError(enhanced.key);
    }
    r := Ok(enhanced.value.skillsByCategory);
  }

  /** The tables after both passes are valid, and the categories are those of the taxonomy. */
  lemma PassesValid(rx: Engine, text: string, taxonomy: Dict<seq<string>>, patterns: Dict<seq<string>>)
    ensures Valid(Keys(taxonomy), LitPass(rx, text, taxonomy, InitialTables(taxonomy)))
    ensures var r := Passes(rx, text, taxonomy, patterns); r.Ok? ==> Valid(Keys(taxonomy), r.value)
  {
    InitialValid(taxonomy);
    var init := InitialTables(taxonomy);
    forall i | 0 <= i < |taxonomy| ensures taxonomy[i].0 in Keys(taxonomy) {
      assert Keys(taxonomy)[i] == taxonomy[i].0;
    }
    LitPassValid(rx, text, taxonomy, Keys(taxonomy), init);
    var literal := LitPass(rx, text, taxonomy, init);
    PatPassValid(rx, text, patterns, Keys(taxonomy), Ok(literal));
  }

  /** The passes raise `KeyError` exactly for a category of the pattern table that the
      taxonomy lacks; a taxonomy with every category of the pattern table never raises. */
  lemma PassesErrors(rx: Engine, text: string, taxonomy: Dict<seq<string>>, patterns: Dict<seq<string>>)
    ensures var r := Passes(rx, text, taxonomy, patterns);
      r.KeyError? ==> r.key in Keys(patterns) && !HasKey(taxonomy, r.key)
    ensures (forall c :: c in Keys(patterns) ==> HasKey(taxonomy, c)) ==> Passes(rx, text, taxonomy, patterns).Ok?
  {
    PassesValid(rx, text, taxonomy, patterns);
    var literal := LitPass(rx, text, taxonomy, InitialTables(taxonomy));
    PatPassOutcome(rx, text, patterns, literal);
    var r := Passes(rx, text, taxonomy, patterns);
    if r.KeyError? {
      KeysHaveKeyBoth(literal.found, taxonomy, r.key);
      var i :| 0 <= i < |patterns| && patterns[i].0 == r.key;
      assert Keys(patterns)[i] == r.key;
    }
    if forall c :: c in Keys(patterns) ==> HasKey(taxonomy, c) {
      forall i | 0 <= i < |patterns| ensures HasKey(literal.found, patterns[i].0) {
        assert Keys(patterns)[i] == patterns[i].0;
        KeysHaveKeyBoth(literal.found, taxonomy, patterns[i].0);
      }
      PatPassKeys(rx, text, patterns, literal);
    }
  }

  /** The classifier raises `KeyError` exactly for one of the seven pattern categories that the
      taxonomy lacks; a taxonomy with all seven never raises. */
  lemma ClassifyErrors(rx: Engine, text: string, taxonomy: Dict<seq<string>>)
    ensures Classify(rx, text, taxonomy).KeyError? ==>
      Classify(rx, text, taxonomy).key in PatternCategories && !HasKey(taxonomy, Classify(rx, text, taxonomy).key)
    ensures (forall c :: c in PatternCategories ==> HasKey(taxonomy, c)) ==> Classify(rx, text, taxonomy).Ok?
  {
    PatternCategoriesAreKeys();
    PassesErrors(rx, text, taxonomy, SkillPatterns);
  }

  /** With the fallback taxonomy the classifier always succeeds. */
  lemma FallbackNeverRaises(rx: Engine, text: string)
    ensures Classify(rx, text, FallbackSkills).Ok?
  {
    FallbackCategories();
    forall c | c in PatternCategories ensures HasKey(FallbackSkills, c) {
      KeysHaveKey(FallbackSkills, PatternCategories, c);
    }
    ClassifyErrors(rx, text, FallbackSkills);
  }

  /** What the passes leave in the list of category `j`: every taxonomy skill of that category
      with a mention of confidence 0.6 or more, in front, then only lower-case pattern matches
      longer than two characters; no skill twice. */
  lemma PassesFind(rx: Engine, text: string, taxonomy: Dict<seq<string>>, patterns: Dict<seq<string>>, j: nat, s: string)
    requires UniqueKeys(taxonomy) && Faithful(rx) && j < |taxonomy|
    requires Passes(rx, text, taxonomy, patterns).Ok?
    ensures var found := Passes(rx, text, taxonomy, patterns).value.found;
      |found| == |taxonomy| && found[j].0 == taxonomy[j].0 && NoDup(found[j].1) &&
      (s in taxonomy[j].1 && AnyAccepted(Confident(rx, text), s, Mentions(s, text)) ==> s in found[j].1) &&
      (s in found[j].1 ==> (s in taxonomy[j].1 && AnyAccepted(Confident(rx, text), s, Mentions(s, text))) || (|s| > 2 && IsLowerCase(s)))
  {
    var literal := LitPass(rx, text, taxonomy, InitialTables(taxonomy));
    var found := Passes(rx, text, taxonomy, patterns).value.found;
    LiteralPassFinds(rx, text, taxonomy, j, s);
    PassesValid(rx, text, taxonomy, patterns);
    PatPassExtends(rx, text, patterns, literal);
    var lit := literal.found[j].1;
    assert lit <= found[j].1;
    if s in lit {
      var k :| 0 <= k < |lit| && lit[k] == s;
      assert found[j].1[k] == s;
    } else if s in found[j].1 {
      var k :| 0 <= k < |found[j].1| && found[j].1[k] == s;
      assert |lit| <= k;
    }
  }

  /** The skills of a successful classification, category by category: every taxonomy skill of
      the category with a mention of confidence 0.6 or more is listed, and whatever else is
      listed is a lower-case pattern match longer than two characters; no skill twice. */
  lemma ClassifiedSkills(rx: Engine, text: string, taxonomy: Dict<seq<string>>, j: nat, s: string)
    requires UniqueKeys(taxonomy) && Faithful(rx) && j < |taxonomy|
    requires Classify(rx, text, taxonomy).Ok?
    ensures var found := Classify(rx, text, taxonomy).value.skillsByCategory;
      |found| == |taxonomy| && found[j].0 == taxonomy[j].0 && NoDup(found[j].1) &&
      (s in taxonomy[j].1 && AnyAccepted(Confident(rx, text), s, Mentions(s, text)) ==> s in found[j].1) &&
      (s in found[j].1 ==> (s in taxonomy[j].1 && AnyAccepted(Confident(rx, text), s, Mentions(s, text))) || (|s| > 2 && IsLowerCase(s)))
  {
    PassesFind(rx, text, taxonomy, SkillPatterns, j, s);
  }

  /** The statistics of valid tables: the three bands share out the scores, there are no more
      scores than listed skills, the average of the scores lies between 0.5 and 1.0, and no more
      categories have skills than there are categories. */
  lemma StatsFacts(categories: seq<string>, st: Tables)
    requires Valid(categories, st)
    ensures var n := |st.confidence|; var s := Stats(st);
      s.highConfidenceSkills + s.mediumConfidenceSkills + s.lowConfidenceSkills == n &&
      n <= s.totalSkills &&
      (n > 0 ==> 50 <= s.averageConfidence <= 100) &&
      (n == 0 ==> s.averageConfidence == 0) &&
      s.categoriesWithSkills <= |categories|
  {
    BandsPartition(st.confidence);
    ScoresAtMostSkills(categories, st);
    if st.confidence != [] {
      AverageBounds(st.confidence);
    }
  }

  /** The statistics of a successful classification (see `StatsFacts`). */
  lemma ClassificationStatistics(rx: Engine, text: string, taxonomy: Dict<seq<string>>)
    requires Classify(rx, text, taxonomy).Ok?
    ensures var c := Classify(rx, text, taxonomy).value; var n := |c.confidenceScores|;
      c.statistics.highConfidenceSkills + c.statistics.mediumConfidenceSkills + c.statistics.lowConfidenceSkills == n &&
      n <= c.statistics.totalSkills &&
      (n > 0 ==> 50 <= c.statistics.averageConfidence <= 100) &&
      (n == 0 ==> c.statistics.averageConfidence == 0) &&
      c.statistics.categoriesWithSkills <= |taxonomy|
  {
    PassesValid(rx, text, taxonomy, SkillPatterns);
    StatsFacts(Keys(taxonomy), Passes(rx, text, taxonomy, SkillPatterns).value);
  }

  // ----- summary -----

  datatype SkillSummary = SkillSummary(totalSkills: nat, categoriesWithSkills: nat, coveragePercentage: real)

  /** `get_skill_summary`: the share of categories with skills, as a percentage (0 for an empty
      dictionary). */
  function GetSkillSummary(skills: Dict<seq<string>>): (r: SkillSummary)
    ensures r.totalSkills == TotalSkills(skills) && r.categoriesWithSkills == CategoriesWithSkills(skills)
    ensures 0.0 <= r.coveragePercentage <= 100.0
  {
    var total := TotalSkills(skills);
    var withSkills := CategoriesWithSkills(skills);
    SkillSummary(total, withSkills,
      if skills != [] then (withSkills as real / |skills| as real) * 100.0 else 0.0)
  }

  lemma {:induction false} CategoriesWithSkillsAll(found: Dict<seq<string>>)
    ensures CategoriesWithSkills(found) == |found| <==> forall i :: 0 <= i < |found| ==> found[i].1 != []
    decreases |found|
  {
    if found != [] {
      var init := found[..|found| - 1];
      CategoriesWithSkillsAll(init);
      if CategoriesWithSkills(found) == |found| {
        forall i | 0 <= i < |found| ensures found[i].1 != [] {
          if i < |init| { assert found[i] == init[i]; }
        }
      }
    }
  }

  lemma {:induction false} NoSkillsNoCategories(found: Dict<seq<string>>)
    ensures TotalSkills(found) == 0 <==> CategoriesWithSkills(found) == 0
    decreases |found|
  {
    if found != [] {
      NoSkillsNoCategories(found[..|found| - 1]);
    }
  }

  /** Full coverage exactly when every category of a non-empty dictionary has a skill; none
      exactly when no skill was found. */
  lemma Coverage(skills: Dict<seq<string>>)
    ensures GetSkillSummary(skills).coveragePercentage == 100.0 <==>
      skills != [] && forall i :: 0 <= i < |skills| ==> skills[i].1 != []
    ensures GetSkillSummary(skills).coveragePercentage == 0.0 <==> GetSkillSummary(skills).totalSkills == 0
  {
    CategoriesWithSkillsAll(skills);
    NoSkillsNoCategories(skills);
    if skills != [] {
      Percent(CategoriesWithSkills(skills) as real, |skills| as real);
    }
  }

  /** A share of a positive whole, as a percentage, is 100 exactly for the whole and 0 exactly
      for nothing. */
  lemma Percent(w: real, n: real)
    requires n > 0.0
    ensures (w / n) * 100.0 == 100.0 <==> w == n
    ensures (w / n) * 100.0 == 0.0 <==> w == 0.0
  {
    var q := w / n;
    assert q * n == w;
    assert q * 100.0 == 100.0 <==> q == 1.0;
  }
}
