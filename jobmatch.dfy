/**
 * The part of `getMockJobMatchAnalysis` that the three revisions share: the
 * keyword vocabulary, the extraction of keywords from a job description, the
 * selection of at most ten of them, the keyword matches and missing list,
 * the two clamped scores, and the loop that completes the improvement
 * suggestions to five.
 */
module JobMatch {
  import opened Text
  import opened Lists
  import opened Numbers
  import opened Signals

  // ---------------------------------------------------------------------------
  // The vocabulary, in the source's four groups.

  const TechLanguages: seq<string> := [
    "React", "TypeScript", "JavaScript", "Node.js", "API", "Python", "Java", "C#", "Ruby"]

  const TechPractices: seq<string> := [
    "Git", "Agile", "Scrum", "Testing", "Frontend", "Backend", "Full Stack"]

  const TechPlatforms: seq<string> := [
    "CI/CD", "AWS", "Azure", "Cloud", "Docker", "Kubernetes", "Database", "SQL", "NoSQL"]

  /** Tech/Development, laid out as the source's three lines. */
  const TechKeywordGroup: seq<string> := TechLanguages + TechPractices + TechPlatforms

  const BusinessKeywordGroup: seq<string> := [
    "Strategy", "Analytics", "Management", "Leadership", "Sales", "Marketing", "SEO",
    "Social Media", "Content", "Campaign", "Budget", "ROI", "KPI", "CRM"]

  const DesignKeywordGroup: seq<string> := [
    "UX", "UI", "User Experience", "User Interface", "Figma", "Sketch", "Adobe", "Photoshop",
    "Illustrator", "Wireframes", "Prototyping", "Responsive Design"]

  const ProfessionalKeywordGroup: seq<string> := [
    "Communication", "Teamwork", "Project Management", "Problem Solving", "Critical Thinking",
    "Customer Service", "Time Management", "Stakeholder", "Presentation", "Negotiation"]

  /** `keywords`. */
  const Keywords: seq<string> := TechKeywordGroup + BusinessKeywordGroup + DesignKeywordGroup + ProfessionalKeywordGroup

  // Distinctness of the 61 keywords, group by group (each step small enough
  // for the solver's string comparisons).

  lemma KeywordsDistinct()
    ensures |Keywords| == 61 && Distinct(Keywords)
  {
    var t, b, d, p := TechKeywordGroup, BusinessKeywordGroup, DesignKeywordGroup, ProfessionalKeywordGroup;
    TechGroupDistinct();
    OtherGroupsDistinct();
    TechBusinessDisjoint();
    TechDesignDisjoint();
    TechProfessionalDisjoint();
    OtherGroupsDisjoint();
    DistinctConcat(t, b);
    DisjointConcat(t, b, d);
    DistinctConcat(t + b, d);
    DisjointConcat(t, b, p);
    DisjointConcat(t + b, d, p);
    DistinctConcat(t + b + d, p);
  }

  lemma TechGroupDistinct()
    ensures Distinct(TechKeywordGroup)
  {
    var l, r, f := TechLanguages, TechPractices, TechPlatforms;
    assert Distinct(l) && Distinct(r) && Distinct(f);
    assert forall i :: 0 <= i < |l| ==> l[i] !in r && l[i] !in f;
    assert forall i :: 0 <= i < |r| ==> r[i] !in f;
    DistinctConcat(l, r);
    DisjointConcat(l, r, f);
    DistinctConcat(l + r, f);
  }

  lemma OtherGroupsDistinct()
    ensures Distinct(BusinessKeywordGroup) && Distinct(DesignKeywordGroup) && Distinct(ProfessionalKeywordGroup)
  {
    var b, d, p := BusinessKeywordGroup, DesignKeywordGroup, ProfessionalKeywordGroup;
    assert Distinct(b) && Distinct(d) && Distinct(p);
  }

  lemma TechBusinessDisjoint()
    ensures Disjoint(TechKeywordGroup, BusinessKeywordGroup)
  {
    var t, b := TechKeywordGroup, BusinessKeywordGroup;
    assert forall i :: 0 <= i < |t| ==> t[i] !in b;
  }

  lemma TechDesignDisjoint()
    ensures Disjoint(TechKeywordGroup, DesignKeywordGroup)
  {
    var t, d := TechKeywordGroup, DesignKeywordGroup;
    assert forall i :: 0 <= i < |t| ==> t[i] !in d;
  }

  lemma TechProfessionalDisjoint()
    ensures Disjoint(TechKeywordGroup, ProfessionalKeywordGroup)
  {
    var t, p := TechKeywordGroup, ProfessionalKeywordGroup;
    assert forall i :: 0 <= i < |t| ==> t[i] !in p;
  }

  lemma OtherGroupsDisjoint()
    ensures Disjoint(BusinessKeywordGroup, DesignKeywordGroup) && Disjoint(BusinessKeywordGroup, ProfessionalKeywordGroup)
    ensures Disjoint(DesignKeywordGroup, ProfessionalKeywordGroup)
  {
    var b, d, p := BusinessKeywordGroup, DesignKeywordGroup, ProfessionalKeywordGroup;
    assert forall i :: 0 <= i < |b| ==> b[i] !in d && b[i] !in p;
    assert forall i :: 0 <= i < |d| ==> d[i] !in p;
  }

  // ---------------------------------------------------------------------------
  // Extraction. Each experience pattern is a literal beginning (with its
  // alternatives), the lazy group `([\w\s\-\/]+?)`, and the terminator
  // `(?:\.|,|\s(?:and|or))`, all under the `gi` flags.

  /** The beginnings of the five experience patterns, alternatives in the order the regex tries them. */
  const ExperiencePatterns: seq<seq<string>> := [
    ["experience in ", "experience with "],
    ["knowledge of "],
    ["proficiency in ", "proficiency with "],
    ["familiar with "],
    ["skills in ", "skills with ", "skill in ", "skill with "]]

  /** `[\w\s\-\/]`. */
  predicate IsPhraseChar(c: char) {
    IsWordChar(c) || IsSpace(c) || c == '-' || c == '/'
  }

  /** Length of the terminator `(?:\.|,|\s(?:and|or))` at `i`; 0 when there is none. */
  function TerminatorAt(text: string, i: nat): (n: nat)
    ensures n > 0 ==> i + n <= |text|
    ensures n > 0 <==> i < |text| && (text[i] == '.' || text[i] == ','
                                      || (IsSpace(text[i]) && (MatchesAt(text, i + 1, Literal("and"))
                                                               || MatchesAt(text, i + 1, Literal("or")))))
  {
    if i >= |text| then 0
    else if text[i] == '.' || text[i] == ',' then 1
    else if IsSpace(text[i]) && MatchesAt(text, i + 1, Literal("and")) then 4
    else if IsSpace(text[i]) && MatchesAt(text, i + 1, Literal("or")) then 3
    else 0
  }

  /** A lazy capture: the group's length and the index just past the terminator. */
  datatype Capture = NoCapture | Captured(length: nat, end: nat)

  /**
   * The lazy group starting at `start`, tried with `k` characters and then
   * one more at a time: the shortest run of phrase characters that a
   * terminator follows.
   */
  function LazyCapture(text: string, start: nat, k: nat): (c: Capture)
    requires k >= 1
    ensures c.Captured? ==> k <= c.length && start + c.length < c.end <= |text|
    ensures c.Captured? ==> forall j :: start + k - 1 <= j < start + c.length ==> IsPhraseChar(text[j])
    ensures c.Captured? ==> TerminatorAt(text, start + c.length) > 0
    ensures c.Captured? ==> forall j :: start + k <= j < start + c.length ==> TerminatorAt(text, j) == 0
    decreases |text| - start - k
  {
    if start + k > |text| || !IsPhraseChar(text[start + k - 1]) then NoCapture
    else
      var t := TerminatorAt(text, start + k);
      if t > 0 then Captured(k, start + k + t)
      else LazyCapture(text, start, k + 1)
  }

  /**
   * The groups `[...text.matchAll(re)].map(m => m[1])` for the pattern whose
   * beginnings are `lead`, searching from `i`: the leftmost match first, and
   * the next search resumes past the terminator.
   */
  function PhrasesFrom(text: string, lead: seq<string>, i: nat): seq<string>
    decreases |text| - i
  {
    if i >= |text| then []
    else
      var p := AltMatchAt(text, i, Literals(lead), false);
      var c := if p > 0 then LazyCapture(text, i + p, 1) else NoCapture;
      if c.Captured? then [text[i + p..i + p + c.length]] + PhrasesFrom(text, lead, c.end)
      else PhrasesFrom(text, lead, i + 1)
  }

  /** The captured phrases longer than 3 and shorter than 30 characters, trimmed. */
  function Qualifying(phrases: seq<string>): (r: seq<string>)
    ensures |r| <= |phrases|
  {
    if phrases == [] then []
    else (if 3 < |phrases[0]| < 30 then [Trim(phrases[0])] else []) + Qualifying(phrases[1..])
  }

  /** The qualifying phrases of every pattern, pattern by pattern. */
  function PatternPhrases(text: string, patterns: seq<seq<string>>): seq<string> {
    if patterns == [] then []
    else Qualifying(PhrasesFrom(text, patterns[0], 0)) + PatternPhrases(text, patterns[1..])
  }

  /**
   * `extractedKeywords`: nothing for a blank job description; otherwise the
   * vocabulary keywords it mentions (up to case), in vocabulary order, then
   * the phrases the experience patterns capture.
   */
  function Extracted(jd: string, vocabulary: seq<string>): (r: seq<string>)
    ensures IsBlank(jd) ==> r == []
    ensures !IsBlank(jd) ==> |FoundTerms(jd, vocabulary)| <= |r|
    ensures !IsBlank(jd) ==> forall k :: k in vocabulary ==> (k in r[..|FoundTerms(jd, vocabulary)|] <==> ContainsCI(jd, k))
    ensures !IsBlank(jd) && Distinct(vocabulary) ==> InFirstOccurrenceOrder(r[..|FoundTerms(jd, vocabulary)|], vocabulary)
    ensures !IsBlank(jd) ==> r[|FoundTerms(jd, vocabulary)|..] == PatternPhrases(jd, ExperiencePatterns)
  {
    if IsBlank(jd) then []
    else
      var found := FoundTerms(jd, vocabulary);
      FoundTermsOrder(jd, vocabulary);
      assert (found + PatternPhrases(jd, ExperiencePatterns))[..|found|] == found;
      found + PatternPhrases(jd, ExperiencePatterns)
  }

  // ---------------------------------------------------------------------------
  // Selection and matching.

  /**
   * `selectedKeywords`: the first ten distinct extracted keywords in order of
   * first occurrence, or, when nothing was extracted, the first ten of the
   * vocabulary as reordered.
   */
  function SelectKeywords(extracted: seq<string>, vocabulary: seq<string>): (r: seq<string>)
    ensures |r| <= 10
    ensures |extracted| > 0 ==> 1 <= |r| && Distinct(r)
    ensures |extracted| > 0 ==> forall x :: x in r ==> x in extracted
    ensures |extracted| > 0 ==> forall x :: x in extracted && x !in r ==> |r| == 10
    ensures |extracted| == 0 ==> r == Take(vocabulary, 10)
    ensures Distinct(vocabulary) ==> Distinct(r)
  {
    if |extracted| > 0 then
      var d := Dedup(extracted);
      assert extracted[0] in d;
      DistinctPrefix(d, |Take(d, 10)|);
      Take(d, 10)
    else
      Take(vocabulary, 10)
  }

  /**
   * The extracted selection is the first ten distinct keywords: in order of
   * first occurrence, and each kept keyword occurs before every one left out.
   */
  lemma SelectKeywordsOrder(extracted: seq<string>, vocabulary: seq<string>)
    requires |extracted| > 0
    ensures InFirstOccurrenceOrder(SelectKeywords(extracted, vocabulary), extracted)
    ensures var r := SelectKeywords(extracted, vocabulary);
      forall x, y :: x in r && y in extracted && y !in r ==> IndexOf(extracted, x) < IndexOf(extracted, y)
  {
    TakeDedupFirst(extracted, 10);
  }

  datatype KeywordMatch = KeywordMatch(keyword: string, found: bool)

  function Keys(ms: seq<KeywordMatch>): (r: seq<string>)
    ensures |r| == |ms|
    ensures forall i :: 0 <= i < |ms| ==> r[i] == ms[i].keyword
  {
    seq(|ms|, i requires 0 <= i < |ms| => ms[i].keyword)
  }

  /** `selectedKeywords.map(keyword => ({ keyword, found }))`, with the found flags given. */
  function Matched(selected: seq<string>, flags: seq<bool>): (ms: seq<KeywordMatch>)
    requires |flags| == |selected|
    ensures Keys(ms) == selected
    ensures forall i :: 0 <= i < |ms| ==> ms[i].found == flags[i]
  {
    seq(|selected|, i requires 0 <= i < |selected| => KeywordMatch(selected[i], flags[i]))
  }

  /** `keywordMatches.filter(k => k.found).length`. */
  function FoundCount(ms: seq<KeywordMatch>): (n: nat)
    ensures n <= |ms|
  {
    if ms == [] then 0 else (if ms[0].found then 1 else 0) + FoundCount(ms[1..])
  }

  /** `keywordMatches.filter(m => !m.found).map(m => m.keyword)`. */
  function Missing(ms: seq<KeywordMatch>): (r: seq<string>)
    ensures |r| + FoundCount(ms) == |ms|
    ensures forall x :: x in r <==> exists i :: 0 <= i < |ms| && ms[i].keyword == x && !ms[i].found
    ensures Distinct(Keys(ms)) ==> Distinct(r)
  {
    if ms == [] then []
    else
      var rest := Missing(ms[1..]);
      assert forall i :: 0 < i < |ms| ==> ms[i] == ms[1..][i - 1];
      assert Keys(ms[1..]) == Keys(ms)[1..];
      if ms[0].found then rest
      else
        assert Distinct(Keys(ms)) ==> ms[0].keyword !in rest;
        [ms[0].keyword] + rest
  }

  /**
   * `additionalMissing`: up to three vocabulary keywords that were not
   * selected, in the order of `key`.
   */
  function Additional(vocabulary: seq<string>, selected: seq<string>, key: string -> int): (r: seq<string>)
    ensures |r| <= 3
    ensures forall x :: x in r ==> x in vocabulary && x !in selected
    ensures SortedBy(r, key)
    ensures Distinct(vocabulary) ==> Distinct(r)
    ensures |Filter(vocabulary, x => x !in selected)| >= 3 ==> |r| == 3
  {
    var rest := Filter(vocabulary, x => x !in selected);
    var sorted := SortBy(rest, key);
    AdditionalFacts(vocabulary, rest, sorted, selected);
    Take(sorted, 3)
  }

  lemma AdditionalFacts(vocabulary: seq<string>, rest: seq<string>, sorted: seq<string>, selected: seq<string>)
    requires rest == Filter(vocabulary, x => x !in selected) && multiset(sorted) == multiset(rest)
    ensures forall x :: x in sorted ==> x in vocabulary && x !in selected
    ensures Distinct(vocabulary) ==> Distinct(sorted)
  {
    forall x | x in sorted ensures x in vocabulary && x !in selected {
      assert x in multiset(sorted);
    }
    if Distinct(vocabulary) {
      FilterDistinct(vocabulary, x => x !in selected);
      DistinctPermutation(rest, sorted);
    }
  }

  /** `[...missingKeywords, ...additionalMissing]` holds no keyword twice. */
  lemma AllMissingDistinct(ms: seq<KeywordMatch>, vocabulary: seq<string>, key: string -> int)
    requires Distinct(Keys(ms)) && Distinct(vocabulary)
    ensures Distinct(Missing(ms) + Additional(vocabulary, Keys(ms), key))
  {
    var missing, extra := Missing(ms), Additional(vocabulary, Keys(ms), key);
    forall i, j | 0 <= i < |missing| && 0 <= j < |extra| ensures missing[i] != extra[j] {
      assert missing[i] in missing && extra[j] in extra;
      assert missing[i] in Keys(ms);
    }
    DistinctConcat(missing, extra);
  }

  // ---------------------------------------------------------------------------
  // Scores.

  /**
   * `Math.floor((foundCount / keywordMatches.length) * 100)` in integers
   * (the two agree for the at most ten keywords there are).
   */
  function Percent(found: nat, total: nat): (p: nat)
    requires found <= total && total > 0
    ensures p <= 100
    ensures p == 100 <==> found == total
    ensures found == 0 ==> p == 0
  {
    PercentBounds(found, total);
    (100 * found) / total
  }

  lemma PercentBounds(found: nat, total: nat)
    requires found <= total && total > 0
    ensures (100 * found) / total <= 100
    ensures (100 * found) / total == 100 <==> found == total
  {
    var q := (100 * found) / total;
    MulLe(found, total, 100);
    DivMonotone(100 * found, 100 * total, total);
    assert (100 * total) / total == 100 by { DivExact(100, total); }
    if found < total {
      MulLe(found + 1, total, 100);
      if q >= 100 {
        assert false;
      }
    }
  }

  /** `x <= y` survives multiplying both by `d`. */
  lemma {:induction false} MulLe(x: nat, y: nat, d: nat)
    requires x <= y
    ensures x * d <= y * d
  {
    if d > 0 {
      MulLe(x, y, d - 1);
      assert x * d == x * (d - 1) + x && y * d == y * (d - 1) + y;
    }
  }

  lemma DivExact(q: nat, d: nat)
    requires d > 0
    ensures (q * d) / d == q
  {
    var r := (q * d) / d;
    if r < q {
      MulLe(r + 1, q, d);
      assert false;
    } else if r > q {
      MulLe(q + 1, r, d);
      assert false;
    }
  }

  /** `Math.max(30, Math.min(95, percent + offset))`. */
  function OverallMatch(found: nat, total: nat, offset: int): (m: int)
    requires found <= total && total > 0
    ensures 30 <= m <= 95
  {
    Clamp(Percent(found, total) + offset, 30, 95)
  }

  /** More keywords found never lowers the match. */
  lemma OverallMatchMonotone(found: nat, more: nat, total: nat, offset: int)
    requires found <= more <= total && total > 0
    ensures OverallMatch(found, total, offset) <= OverallMatch(more, total, offset)
  {
    assert 100 * found <= 100 * more;
    DivMonotone(100 * found, 100 * more, total);
  }

  lemma DivMonotone(a: nat, b: nat, d: nat)
    requires a <= b && d > 0
    ensures a / d <= b / d
  {
    var qa, qb := a / d, b / d;
    if qa > qb {
      MulLe(qb + 1, qa, d);
      assert false;
    }
  }

  /** `resumeText ? Math.min(15, resumeText.length / 500) : 10`. */
  function LengthFactor(resume: string): (f: real)
    ensures 0.0 <= f <= 15.0
    ensures resume == "" ==> f == 10.0
  {
    if resume == "" then 10.0
    else if (|resume| as real) / 500.0 < 15.0 then (|resume| as real) / 500.0
    else 15.0
  }

  /**
   * `Math.min(98, Math.max(40, Math.floor(overallMatch * 0.7 + variance + lengthFactor)))`,
   * in exact arithmetic.
   */
  function Relevance(overall: int, variance: real, resume: string): (r: int)
    ensures 40 <= r <= 98
  {
    Clamp((overall as real * 0.7 + variance + LengthFactor(resume)).Floor, 40, 98)
  }

  /** A higher match, a higher variance or a longer (non-empty) résumé never lowers the relevance. */
  lemma RelevanceMonotone(overall: int, higher: int, variance: real, more: real, resume: string, longer: string)
    requires overall <= higher && variance <= more
    requires resume != "" && |resume| <= |longer|
    ensures Relevance(overall, variance, resume) <= Relevance(higher, more, longer)
  {
    var x := overall as real * 0.7 + variance + LengthFactor(resume);
    var y := higher as real * 0.7 + more + LengthFactor(longer);
    assert x <= y;
    assert x.Floor <= y.Floor;
  }

  // ---------------------------------------------------------------------------
  // Improvement suggestions.

  const MissingPrefix: string := "Add specific experience with "
  const FallbackImprovement: string := "Further develop your expertise in key technologies mentioned in the job description"

  /** `generalSuggestions`. */
  const GeneralSuggestions: seq<string> := [
    "Quantify your achievements with specific metrics and outcomes",
    "Highlight leadership roles or team collaboration examples",
    "Include specific examples of relevant projects you've completed",
    "Tailor your professional summary to better match the job requirements",
    "Reorganize your skills section to prioritize the most relevant technologies",
    "Add more industry-specific terminology throughout your resume",
    "Emphasize problem-solving abilities with concrete examples",
    "Include relevant certifications or continued education in your field",
    "Demonstrate your communication skills with specific examples",
    "Show progression and growth in your career history"]

  lemma GeneralSuggestionsDistinct()
    ensures |GeneralSuggestions| == 10 && Distinct(GeneralSuggestions)
  {
  }

  /** The first improvement: the named missing keywords joined by " and ", or the fallback when none are named. */
  function FirstImprovement(named: seq<string>): string {
    if |named| > 0 then MissingPrefix + Join(named, " and ") else FallbackImprovement
  }

  /**
   * The suggestions `improvements` grows to: while fewer than five, the pool
   * entry at `(base + stride * length) % |pool|` when it is not yet listed,
   * otherwise the one at `altBase % count` of the entries not yet listed.
   * Where no entry is left unlisted (a pool of fewer than five distinct
   * entries) the source's loop never ends; the list is returned as it is.
   */
  function Completed(improvements: seq<string>, pool: seq<string>, base: nat, stride: nat, altBase: nat): seq<string>
    requires |pool| > 0
    decreases 5 - |improvements|
  {
    if |improvements| >= 5 then improvements
    else
      var suggestion := pool[(base + |improvements| * stride) % |pool|];
      if suggestion !in improvements then Completed(improvements + [suggestion], pool, base, stride, altBase)
      else
        var unused := Filter(pool, s => s !in improvements);
        if |unused| > 0 then Completed(improvements + [unused[altBase % |unused|]], pool, base, stride, altBase)
        else improvements
  }

  /** On a pool of at least five distinct entries the completion keeps what is listed and adds distinct pool entries up to five. */
  lemma {:induction false} CompletedFacts(improvements: seq<string>, pool: seq<string>, base: nat, stride: nat, altBase: nat)
    requires Distinct(pool) && |pool| >= 5
    requires |improvements| <= 5 && Distinct(improvements)
    ensures var r := Completed(improvements, pool, base, stride, altBase);
      |r| == 5 && Distinct(r) && r[..|improvements|] == improvements
      && forall k :: |improvements| <= k < 5 ==> r[k] in pool
    decreases 5 - |improvements|
  {
    if |improvements| < 5 {
      var x := NextEntry(improvements, pool, base, stride, altBase);
      var next := improvements + [x];
      DistinctConcat(improvements, [x]);
      CompletedFacts(next, pool, base, stride, altBase);
      var r := Completed(next, pool, base, stride, altBase);
      assert r[..|improvements|] == r[..|next|][..|improvements|];
      assert r[|improvements|] == next[|improvements|];
    }
  }

  /** The entry one round of the loop appends: a pool entry not yet listed. */
  function NextEntry(improvements: seq<string>, pool: seq<string>, base: nat, stride: nat, altBase: nat): (x: string)
    requires Distinct(pool) && |pool| >= 5
    requires |improvements| < 5 && Distinct(improvements)
    ensures x in pool && x !in improvements
    ensures Completed(improvements, pool, base, stride, altBase) == Completed(improvements + [x], pool, base, stride, altBase)
  {
    var suggestion := pool[(base + |improvements| * stride) % |pool|];
    if suggestion !in improvements then suggestion
    else
      var unused := Filter(pool, s => s !in improvements);
      PigeonHole(pool, improvements);
      var spare :| spare in pool && spare !in improvements;
      assert spare in unused;
      unused[altBase % |unused|]
  }

  /**
   * The loop that completes `suggestedImprovements` to five from `pool` (the
   * general suggestions), starting from the first improvement.
   */
  method CompleteImprovements(first: string, pool: seq<string>, base: nat, stride: nat, altBase: nat)
    returns (improvements: seq<string>)
    requires Distinct(pool) && |pool| >= 5
    ensures improvements == Completed([first], pool, base, stride, altBase)
    ensures ImprovedBy(improvements, first, pool)
  {
    CompletedFacts([first], pool, base, stride, altBase);
    improvements := [first];
    while |improvements| < 5
      invariant |improvements| <= 5 && Distinct(improvements)
      invariant Completed(improvements, pool, base, stride, altBase) == Completed([first], pool, base, stride, altBase)
      decreases 5 - |improvements|
    {
      var index := (base + |improvements| * stride) % |pool|;
      var suggestion := pool[index];
      if suggestion !in improvements {
        DistinctConcat(improvements, [suggestion]);
        improvements := improvements + [suggestion];
      } else {
        var unused := Filter(pool, s => s !in improvements);
        PigeonHole(pool, improvements);
        var spare :| spare in pool && spare !in improvements;
        assert spare in unused;
        var pick := unused[altBase % |unused|];
        assert pick in unused;
        DistinctConcat(improvements, [pick]);
        improvements := improvements + [pick];
      }
    }
  }

  // ---------------------------------------------------------------------------
  // The result.

  datatype Analysis = Analysis(
    overallMatch: int,
    keywordMatches: seq<KeywordMatch>,
    missingKeywords: seq<string>,
    suggestedImprovements: seq<string>,
    relevanceScore: int)

  /**
   * One to ten keyword matches with distinct keywords, and a duplicate-free
   * missing list holding every keyword not found and otherwise only
   * unselected keywords of `vocabulary`.
   */
  ghost predicate MatchesListed(ms: seq<KeywordMatch>, missing: seq<string>, vocabulary: seq<string>) {
    1 <= |ms| <= 10 && Distinct(Keys(ms))
    && Distinct(missing)
    && (forall i :: 0 <= i < |ms| && !ms[i].found ==> ms[i].keyword in missing)
    && (forall x :: x in missing ==>
          (exists i :: 0 <= i < |ms| && ms[i].keyword == x && !ms[i].found)
          || (x in vocabulary && x !in Keys(ms)))
  }

  /**
   * What every revision promises of its result: the matches and missing list
   * as above over the vocabulary `base`, both scores in range.
   */
  ghost predicate WellFormed(a: Analysis, base: seq<string>) {
    MatchesListed(a.keywordMatches, a.missingKeywords, base)
    && 30 <= a.overallMatch <= 95 && 40 <= a.relevanceScore <= 98
  }

  /** The suggestions: five distinct, the given first one, then entries of `pool`. */
  ghost predicate ImprovedBy(improvements: seq<string>, first: string, pool: seq<string>) {
    |improvements| == 5 && Distinct(improvements)
    && improvements[0] == first
    && forall k :: 1 <= k < 5 ==> improvements[k] in pool
  }

  /**
   * The steps every revision takes once the comparators and the found flags
   * are fixed: the vocabulary `base`, reordered by `order` when nothing was
   * extracted; the selection; the matches, with `flag(i, keyword)` as the
   * found flag of the i-th selected keyword; the missing list, its extra
   * entries ordered by `key`; and the match score with `offset` added.
   * `extracted` is `Extracted(jd, base)`.
   */
  method Assess(extracted: seq<string>, base: seq<string>, order: string -> int, key: string -> int,
                flag: (nat, string) -> bool, offset: int)
    returns (vocabulary: seq<string>, matches: seq<KeywordMatch>, allMissing: seq<string>, overall: int)
    requires Distinct(base) && |base| >= 10
    ensures vocabulary == if |extracted| == 0 then SortBy(base, order) else base
    ensures Keys(matches) == SelectKeywords(extracted, vocabulary)
    ensures forall i :: 0 <= i < |matches| ==> matches[i].found == flag(i, matches[i].keyword)
    ensures allMissing == Missing(matches) + Additional(vocabulary, Keys(matches), key)
    ensures overall == OverallMatch(FoundCount(matches), |matches|, offset)
    ensures MatchesListed(matches, allMissing, base) && 30 <= overall <= 95
    ensures ChosenFrom(Keys(matches), extracted, base)
  {
    vocabulary := base;
    if |extracted| == 0 {
      vocabulary := SortBy(base, order);   // `keywords.sort(...)` reorders the vocabulary itself
      ReorderedWithin(base, order);
    }
    var selected := SelectKeywords(extracted, vocabulary);
    var found := seq(|selected|, i requires 0 <= i < |selected| => flag(i, selected[i]));
    matches, allMissing, overall := AssessOrdered(extracted, vocabulary, key, found, offset);
    ListedWithin(matches, allMissing, vocabulary, base);
  }

  /** `Assess` once the vocabulary is ordered and the found flags are drawn. */
  method AssessOrdered(extracted: seq<string>, vocabulary: seq<string>, key: string -> int, found: seq<bool>, offset: int)
    returns (matches: seq<KeywordMatch>, allMissing: seq<string>, overall: int)
    requires Distinct(vocabulary) && |vocabulary| >= 10
    requires |found| == |SelectKeywords(extracted, vocabulary)|
    ensures Keys(matches) == SelectKeywords(extracted, vocabulary)
    ensures forall i :: 0 <= i < |matches| ==> matches[i].found == found[i]
    ensures allMissing == Missing(matches) + Additional(vocabulary, Keys(matches), key)
    ensures overall == OverallMatch(FoundCount(matches), |matches|, offset)
    ensures MatchesListed(matches, allMissing, vocabulary) && 30 <= overall <= 95
  {
    var selected := SelectKeywords(extracted, vocabulary);
    matches := Matched(selected, found);
    var missing := Missing(matches);
    var additional := Additional(vocabulary, selected, key);
    AllMissingDistinct(matches, vocabulary, key);
    allMissing := missing + additional;
    overall := OverallMatch(FoundCount(matches), |matches|, offset);
  }

  /** The selection in each case: drawn from the extracted keywords, or ten keywords of `base`. */
  ghost predicate ChosenFrom(keys: seq<string>, extracted: seq<string>, base: seq<string>) {
    (|extracted| > 0 ==> forall x :: x in keys ==> x in extracted)
    && (|extracted| == 0 ==> |keys| == 10 && forall x :: x in keys ==> x in base)
  }

  /** A reordering of a duplicate-free vocabulary holds only its keywords, each once. */
  lemma ReorderedWithin(base: seq<string>, order: string -> int)
    requires Distinct(base)
    ensures Distinct(SortBy(base, order))
    ensures forall x :: x in SortBy(base, order) ==> x in base
  {
    var r := SortBy(base, order);
    DistinctPermutation(base, r);
    forall x | x in r ensures x in base {
      assert x in multiset(r);
    }
  }

  lemma ListedWithin(ms: seq<KeywordMatch>, missing: seq<string>, vocabulary: seq<string>, within: seq<string>)
    requires MatchesListed(ms, missing, vocabulary)
    requires forall x :: x in vocabulary ==> x in within
    ensures MatchesListed(ms, missing, within)
  {
  }
}
