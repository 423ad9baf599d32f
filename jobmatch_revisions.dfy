/**
 * `getMockJobMatchAnalysis` of openaiUtils.ts, the revision the application
 * imports: every variable choice derives from
 * `hashString(resumeText + jobDescription + today)`.
 */
module JobMatchMain {
  import opened Text
  import opened Lists
  import opened Numbers
  import opened Hash
  import opened JobMatch

  /** The comparator key `hashString(keyword + jobMatchHash)`. */
  function HashKey(h: nat): string -> int {
    k => Hash.Hash(k + NatToString(h))
  }

  /**
   * `found` of one keyword: mentioned in the résumé up to case, or, when
   * there is no résumé, `hashString(keyword + jobMatchHash) % 100 > 35`.
   */
  predicate FoundIn(resume: string, keyword: string, h: nat) {
    if resume != "" then ContainsCI(resume, keyword) else Hash.Hash(keyword + NatToString(h)) % 100 > 35
  }

  /**
   * The missing keywords the first improvement names: from position
   * `h % max(1, length)`, one of them when `h % 3 == 0` and two otherwise
   * (one when the start is the last position).
   */
  function NamedMissing(allMissing: seq<string>, h: nat): (named: seq<string>)
    ensures |allMissing| == 0 ==> named == []
    ensures |allMissing| > 0 ==> 1 <= |named| <= 2 && named[0] == allMissing[h % |allMissing|]
    ensures |named| == 2 <==> |allMissing| > 0 && h % 3 != 0 && h % |allMissing| + 1 < |allMissing|
    ensures |named| == 2 ==> named[1] == allMissing[h % |allMissing| + 1]
  {
    if |allMissing| == 0 then []
    else
      var use := if h % 3 == 0 then 1 else 2;
      var start := h % Max(1, |allMissing|);
      allMissing[start..Min(start + use, |allMissing|)]
  }

  /** The vocabulary as `keywords.sort(...)` leaves it: reordered only when nothing was extracted. */
  function Vocabulary(extracted: seq<string>, base: seq<string>, h: nat): seq<string> {
    if |extracted| == 0 then SortBy(base, HashKey(h)) else base
  }

  /**
   * How the hash `h` decides every choice the analysis makes, for the
   * extracted keywords `extracted`, the vocabulary `base` and the general
   * suggestions `pool`.
   */
  ghost predicate HashedAs(a: Analysis, extracted: seq<string>, base: seq<string>, pool: seq<string>,
                           resume: string, h: nat) {
    var ms := a.keywordMatches;
    var first := FirstImprovement(NamedMissing(a.missingKeywords, h));
    1 <= |ms|
    && Keys(ms) == SelectKeywords(extracted, Vocabulary(extracted, base, h))
    && (forall i :: 0 <= i < |ms| ==> ms[i].found == FoundIn(resume, ms[i].keyword, h))
    && a.missingKeywords == Missing(ms) + Additional(Vocabulary(extracted, base, h), Keys(ms), HashKey(h))
    && a.overallMatch == OverallMatch(FoundCount(ms), |ms|, h % 15 - 7)
    && a.relevanceScore == Relevance(a.overallMatch, (h % 10 + 5) as real, resume)
    && |pool| > 0 && a.suggestedImprovements == Completed([first], pool, h, 17, h)
    && ImprovedBy(a.suggestedImprovements, first, pool)
  }

  /**
   * `getMockJobMatchAnalysis(jobDescription, resumeText)` with today's
   * `toDateString()` passed in.
   */
  method GetMockJobMatchAnalysis(jd: string, resume: string, today: string) returns (a: Analysis)
    ensures WellFormed(a, Keywords) && ChosenFrom(Keys(a.keywordMatches), Extracted(jd, Keywords), Keywords)
    ensures HashedAs(a, Extracted(jd, Keywords), Keywords, GeneralSuggestions, resume, Hash.Hash(resume + jd + today))
  {
    var jobMatchHash := HashString(resume + jd + today);
    KeywordsDistinct();
    GeneralSuggestionsDistinct();
    a := AnalyzeHashed(Extracted(jd, Keywords), Keywords, GeneralSuggestions, resume, jobMatchHash);
  }

  /** The analysis on a vocabulary and a suggestion pool once the hash is known. */
  method AnalyzeHashed(extracted: seq<string>, base: seq<string>, pool: seq<string>, resume: string, h: nat)
    returns (a: Analysis)
    requires Distinct(base) && |base| >= 10 && Distinct(pool) && |pool| >= 5
    ensures WellFormed(a, base) && ChosenFrom(Keys(a.keywordMatches), extracted, base)
    ensures HashedAs(a, extracted, base, pool, resume, h)
  {
    var key := HashKey(h);
    var vocabulary, matches, allMissing, overall :=
      Assess(extracted, base, key, key, (i: nat, k: string) => FoundIn(resume, k, h), (h as int) % 15 - 7);
    var first := FirstImprovement(NamedMissing(allMissing, h));
    var improvements := CompleteImprovements(first, pool, h, 17, h);
    var relevance := Relevance(overall, (h % 10 + 5) as real, resume);
    a := Analysis(overall, matches, allMissing, improvements, relevance);
  }
}

/**
 * `getMockJobMatchAnalysis` of openaiUtils.improved.ts: random orders and
 * found flags, everything else from `hashString(resumeText + jobDescription)`.
 */
module JobMatchImproved {
  import opened Text
  import opened Lists
  import opened Numbers
  import opened Hash
  import opened JobMatch

  /**
   * `getMockJobMatchAnalysis(jobDescription, resumeText)`. The two
   * `sort(() => Math.random() - 0.5)` calls are sorts by the arbitrary ranks
   * `shuffle` and `reshuffle`; `coin(i)` is the random found flag of the
   * i-th selected keyword when there is no résumé.
   */
  method GetMockJobMatchAnalysis(jd: string, resume: string, shuffle: string -> int, reshuffle: string -> int,
                                 coin: nat -> bool) returns (a: Analysis)
    ensures WellFormed(a, Keywords) && ChosenFrom(Keys(a.keywordMatches), Extracted(jd, Keywords), Keywords)
    ensures DrawnAs(a, Extracted(jd, Keywords), Keywords, resume, shuffle, reshuffle, coin)
    ensures HashedAs(a, GeneralSuggestions, resume, Hash.Hash(resume + jd))
  {
    var contentHash := HashString(resume + jd);
    KeywordsDistinct();
    GeneralSuggestionsDistinct();
    a := AnalyzeShuffled(Extracted(jd, Keywords), Keywords, GeneralSuggestions, resume, shuffle, reshuffle, coin,
                         contentHash);
  }

  /** The analysis on a vocabulary and a suggestion pool once the content hash is known. */
  method AnalyzeShuffled(extracted: seq<string>, base: seq<string>, pool: seq<string>, resume: string,
                         shuffle: string -> int, reshuffle: string -> int, coin: nat -> bool, h: nat)
    returns (a: Analysis)
    requires Distinct(base) && |base| >= 10 && Distinct(pool) && |pool| >= 5
    ensures WellFormed(a, base) && ChosenFrom(Keys(a.keywordMatches), extracted, base)
    ensures DrawnAs(a, extracted, base, resume, shuffle, reshuffle, coin)
    ensures HashedAs(a, pool, resume, h)
  {
    var vocabulary, matches, allMissing, overall :=
      Assess(extracted, base, shuffle, reshuffle, (i: nat, k: string) => FoundOrCoin(resume, k, coin, i),
             (h as int) % 15 - 7);
    var first := FirstImprovement(Take(allMissing, 2));
    var improvements := CompleteImprovements(first, pool, h, 1, 0);
    var relevance := Relevance(overall, (h % 10 + 5) as real, resume);
    a := Analysis(overall, matches, allMissing, improvements, relevance);
  }

  /** `found` of the i-th selected keyword: mentioned in the résumé up to case, or its coin when there is no résumé. */
  predicate FoundOrCoin(resume: string, keyword: string, coin: nat -> bool, i: nat) {
    if resume != "" then ContainsCI(resume, keyword) else coin(i)
  }

  /**
   * How the random choices decide the selection and the missing list: the
   * vocabulary is reordered by `shuffle` when nothing was extracted, the
   * extra missing keywords are ordered by `reshuffle`, and the found flags
   * are as `FoundOrCoin` says.
   */
  ghost predicate DrawnAs(a: Analysis, extracted: seq<string>, base: seq<string>, resume: string,
                          shuffle: string -> int, reshuffle: string -> int, coin: nat -> bool) {
    var ms := a.keywordMatches;
    var vocabulary := if |extracted| == 0 then SortBy(base, shuffle) else base;
    Keys(ms) == SelectKeywords(extracted, vocabulary)
    && (forall i :: 0 <= i < |ms| ==> ms[i].found == FoundOrCoin(resume, ms[i].keyword, coin, i))
    && a.missingKeywords == Missing(ms) + Additional(vocabulary, Keys(ms), reshuffle)
  }

  /** How the content hash `h` decides the match offset, the relevance variance and the improvements. */
  ghost predicate HashedAs(a: Analysis, pool: seq<string>, resume: string, h: nat) {
    var first := FirstImprovement(Take(a.missingKeywords, 2));
    |a.keywordMatches| > 0
    && a.overallMatch == OverallMatch(FoundCount(a.keywordMatches), |a.keywordMatches|, h % 15 - 7)
    && a.relevanceScore == Relevance(a.overallMatch, (h % 10 + 5) as real, resume)
    && |pool| > 0 && a.suggestedImprovements == Completed([first], pool, h, 1, 0)
    && ImprovedBy(a.suggestedImprovements, first, pool)
  }
}

/**
 * `getMockJobMatchAnalysis` of openaiUtils.new.ts: the selection of the
 * improved revision with a random match offset, random improvements and a
 * random relevance variance.
 */
module JobMatchNew {
  import opened Text
  import opened Lists
  import opened Numbers
  import opened JobMatch
  import opened JobMatchImproved

  /** The improvements drawn, and how many draws that took. */
  datatype Drawing = Drawing(picked: seq<string>, used: nat)

  /**
   * The improvements loop: while fewer than five, the pool entry at
   * `draw % |pool|` is added unless already listed. The loop of the source
   * runs until five are listed; here it also stops when the draws run out.
   */
  function Drawn(improvements: seq<string>, pool: seq<string>, draws: seq<nat>): Drawing
    requires |pool| > 0
    decreases |draws|
  {
    if |improvements| >= 5 || |draws| == 0 then Drawing(improvements, 0)
    else
      var suggestion := pool[draws[0] % |pool|];
      var next := if suggestion in improvements then improvements else improvements + [suggestion];
      var rest := Drawn(next, pool, draws[1..]);
      Drawing(rest.picked, rest.used + 1)
  }

  /**
   * `while (suggestedImprovements.length < 5)` with
   * `Math.floor(Math.random() * generalSuggestions.length)` as the next draw.
   */
  method DrawImprovements(first: string, pool: seq<string>, draws: seq<nat>) returns (improvements: seq<string>, consumed: nat)
    requires |pool| > 0
    ensures Drawn([first], pool, draws) == Drawing(improvements, consumed)
    ensures 1 <= |improvements| <= 5 && Distinct(improvements) && improvements[0] == first
    ensures forall k :: 1 <= k < |improvements| ==> improvements[k] in pool
    ensures consumed <= |draws| && (|improvements| == 5 || consumed == |draws|)
  {
    improvements := [first];
    consumed := 0;
    while |improvements| < 5 && consumed < |draws|
      invariant consumed <= |draws|
      invariant 1 <= |improvements| <= 5 && Distinct(improvements) && improvements[0] == first
      invariant forall k :: 1 <= k < |improvements| ==> improvements[k] in pool
      invariant var rest := Drawn(improvements, pool, draws[consumed..]);
        Drawn([first], pool, draws) == Drawing(rest.picked, consumed + rest.used)
      decreases |draws| - consumed
    {
      assert draws[consumed..][1..] == draws[consumed + 1..];
      var suggestion := pool[draws[consumed] % |pool|];
      if suggestion !in improvements {
        DistinctConcat(improvements, [suggestion]);
        improvements := improvements + [suggestion];
      }
      consumed := consumed + 1;
    }
  }

  /**
   * `getMockJobMatchAnalysis(jobDescription, resumeText)`: `offsetDraw` is
   * the draw behind `Math.floor(Math.random() * 15)`, `draws` those of the
   * improvements loop and `noise` the value of `Math.random()` in the
   * relevance; also returns the number of improvement draws spent.
   */
  method GetMockJobMatchAnalysis(jd: string, resume: string, shuffle: string -> int, reshuffle: string -> int,
                                 coin: nat -> bool, offsetDraw: nat, draws: seq<nat>, noise: real)
    returns (a: Analysis, consumed: nat)
    requires 0.0 <= noise < 1.0
    ensures WellFormed(a, Keywords) && ChosenFrom(Keys(a.keywordMatches), Extracted(jd, Keywords), Keywords)
    ensures DrawnAs(a, Extracted(jd, Keywords), Keywords, resume, shuffle, reshuffle, coin)
    ensures RandomAs(a, consumed, GeneralSuggestions, resume, offsetDraw, draws, noise)
  {
    KeywordsDistinct();
    a, consumed := AnalyzeRandom(Extracted(jd, Keywords), Keywords, GeneralSuggestions, resume, shuffle, reshuffle,
                                 coin, offsetDraw, draws, noise);
  }

  /** The analysis on a vocabulary and a suggestion pool. */
  method AnalyzeRandom(extracted: seq<string>, base: seq<string>, pool: seq<string>, resume: string,
                       shuffle: string -> int, reshuffle: string -> int, coin: nat -> bool,
                       offsetDraw: nat, draws: seq<nat>, noise: real)
    returns (a: Analysis, consumed: nat)
    requires Distinct(base) && |base| >= 10 && |pool| > 0 && 0.0 <= noise < 1.0
    ensures WellFormed(a, base) && ChosenFrom(Keys(a.keywordMatches), extracted, base)
    ensures DrawnAs(a, extracted, base, resume, shuffle, reshuffle, coin)
    ensures RandomAs(a, consumed, pool, resume, offsetDraw, draws, noise)
  {
    var vocabulary, matches, allMissing, overall :=
      Assess(extracted, base, shuffle, reshuffle, (i: nat, k: string) => FoundOrCoin(resume, k, coin, i),
             (offsetDraw as int) % 15 - 7);
    var first := FirstImprovement(Take(allMissing, 2));
    var improvements;
    improvements, consumed := DrawImprovements(first, pool, draws);
    var relevance := Relevance(overall, noise * 15.0, resume);
    a := Analysis(overall, matches, allMissing, improvements, relevance);
  }

  /**
   * How the draws decide the match offset, the improvements and the
   * relevance variance `noise * 15`: one to five distinct improvements, the
   * first naming up to two missing keywords, five unless the draws ran out.
   */
  ghost predicate RandomAs(a: Analysis, consumed: nat, pool: seq<string>, resume: string,
                           offsetDraw: nat, draws: seq<nat>, noise: real) {
    var ms := a.keywordMatches;
    var first := FirstImprovement(Take(a.missingKeywords, 2));
    var imps := a.suggestedImprovements;
    |ms| > 0
    && a.overallMatch == OverallMatch(FoundCount(ms), |ms|, offsetDraw % 15 - 7)
    && a.relevanceScore == Relevance(a.overallMatch, noise * 15.0, resume)
    && |pool| > 0 && Drawn([first], pool, draws) == Drawing(imps, consumed)
    && 1 <= |imps| <= 5 && Distinct(imps) && imps[0] == first
    && (forall k :: 1 <= k < |imps| ==> imps[k] in pool)
    && consumed <= |draws| && (|imps| == 5 || consumed == |draws|)
  }
}
