/**
 * `getMockFeedback` and `selectRelevantSuggestions` of openaiUtils.ts, the
 * revision the application imports. Its score mixes the rule adjustments
 * with a hash of the text and the date, a random factor and the day of the
 * month; its suggestions are picked by index arithmetic on that hash.
 */
module Engine {
  import opened Text
  import opened Lists
  import opened Numbers
  import opened Hash
  import opened Signals
  import opened Sections
  import opened Suggestions
  import opened FeedbackCore

  // ---------------------------------------------------------------------------
  // The variance terms of the score.

  /** `(hashString(resumeText + today) % 10) - 5`. */
  function UniqueVariance(text: string, today: string): (v: int)
    ensures -5 <= v <= 4
  {
    Hash.Hash(text + today) % 10 - 5
  }

  /** `resumeText ? (hashString(resumeText + today) % 6) - 2 : 0`. */
  function ContentVariance(text: string, today: string): (v: int)
    ensures -2 <= v <= 3
    ensures text == "" ==> v == 0
  {
    if text == "" then 0 else Hash.Hash(text + today) % 6 - 2
  }

  /** `Math.floor(Math.random() * 5) - 2`, for the draw `roll`. */
  function RandomFactor(roll: nat): (v: int)
    ensures -2 <= v <= 2
  {
    roll % 5 - 2
  }

  /** `new Date().getDate() % 5 - 2`. */
  function DateVariance(dayOfMonth: nat): (v: int)
    ensures -2 <= v <= 2
  {
    dayOfMonth % 5 - 2
  }

  // ---------------------------------------------------------------------------
  // selectRelevantSuggestions

  /**
   * The first loop of `selectRelevantSuggestions`: for i = 0, 1, 2, the entry
   * at `(fingerprint + 7i) % min(8, length)` of the remaining list is picked
   * and spliced out, unless that index was already used.
   */
  method SpreadPicks(fingerprint: nat, list: SuggestionList) returns (picks: seq<string>)
    requires |list.items| >= 3
    modifies list
    ensures 1 <= |picks| <= 3
    ensures SpreadState(picks, list.items, old(list.items))
    ensures picks[0] == old(list.items)[fingerprint % Min(8, |old(list.items)|)]
  {
    ghost var start := list.items;
    SpreadStart(start);
    picks := [];
    var usedIndices: set<nat> := {};
    var i := 0;
    while i < 3 && |picks| < 3
      invariant 0 <= i <= 3 && |picks| <= i
      invariant SpreadState(picks, list.items, start)
      invariant i == 0 ==> picks == [] && usedIndices == {} && list.items == start
      invariant i > 0 ==> |picks| >= 1
      invariant |picks| >= 1 ==> picks[0] == start[fingerprint % Min(8, |start|)]
    {
      var index := (fingerprint + i * 7) % Min(8, |list.items|);
      picks, usedIndices := PickUnlessUsed(list, index, picks, usedIndices, start);
      i := i + 1;
    }
  }

  /**
   * The second loop: while fewer than five are picked and entries remain, the
   * entry at `(fingerprint + 13·picked) % length` is picked and spliced out.
   */
  method FillPicks(fingerprint: nat, list: SuggestionList, chosen: seq<string>) returns (picks: seq<string>)
    requires |chosen| <= 5
    modifies list
    ensures |picks| == Min(5, |chosen| + |old(list.items)|)
    ensures picks[..|chosen|] == chosen
    ensures multiset(picks) + multiset(list.items) == multiset(chosen) + multiset(old(list.items))
  {
    ghost var start := list.items;
    picks := chosen;
    while |picks| < 5 && |list.items| > 0
      invariant |chosen| <= |picks| <= 5
      invariant |list.items| + |picks| == |start| + |chosen|
      invariant picks[..|chosen|] == chosen
      invariant multiset(picks) + multiset(list.items) == multiset(chosen) + multiset(start)
      decreases |list.items|
    {
      var index := (fingerprint + |picks| * 13) % |list.items|;
      picks := picks + [list.items[index]];
      var removed := list.Splice(index);
    }
  }

  /**
   * `selectRelevantSuggestions(resumeText, pool, today)`: prioritises a copy
   * of the pool, spreads up to three picks over its first eight entries, then
   * fills up to five.
   */
  method SelectRelevantSuggestions(text: string, pool: seq<string>, today: string) returns (picks: seq<string>)
    requires |pool| >= 3
    ensures |picks| == Min(5, |pool|)
    ensures multiset(picks) <= multiset(pool)
    ensures Distinct(pool) ==> Distinct(picks)
    ensures picks[0] == Prioritized(text, pool)[Hash.Hash(text + today) % Min(8, |pool|)]
    ensures exists n :: 1 <= n <= 3 && SpreadFrom(picks, Prioritized(text, pool), n)
  {
    var fingerprint := HashString(text + today);
    var list := new SuggestionList(pool);
    Prioritize(text, list);
    ghost var prioritized := list.items;
    var spread := SpreadPicks(fingerprint, list);
    ghost var rest := list.items;
    assert multiset(spread) + multiset(rest) == multiset(prioritized);
    picks := FillPicks(fingerprint, list, spread);
    assert multiset(picks) <= multiset(prioritized) by {
      assert multiset(picks) + multiset(list.items) == multiset(spread) + multiset(rest);
    }
    assert picks[0] == spread[0] by { assert picks[..|spread|][0] == picks[0]; }
    assert SpreadFrom(picks, prioritized, |spread|) by {
      forall k | 0 <= k < |spread| ensures picks[k] == spread[k] {
        assert picks[..|spread|][k] == picks[k];
      }
    }
    if Distinct(pool) {
      SubMultisetDistinct(picks, pool);
    }
  }

  // ---------------------------------------------------------------------------
  // getMockFeedback

  /**
   * `getMockFeedback(resumeText)` with today's date string, the day of the
   * month and the draw behind `Math.random()` passed in.
   */
  method GetMockFeedback(text: string, today: string, dayOfMonth: nat, roll: nat) returns (fb: Feedback)
    ensures fb.score == Clamp(65 + UniqueVariance(text, today)
                              + (if text == "" then -30 else ScoreAdjustment(Read(text), Graded))
                              + RandomFactor(roll) + ContentVariance(text, today) + DateVariance(dayOfMonth), 30, 98)
    ensures 30 <= fb.score <= 98
    ensures text == "" ==> fb.score <= 43
    ensures text == "" ==> fb.overallImpression == EmptyImpression && fb.sectionFeedback == EmptySections
    ensures text != "" ==> fb.overallImpression == WritingImpression(Read(text))
    ensures text != "" ==> HasCanonicalKeys(fb.sectionFeedback)
    ensures text != "" && |FoundTerms(text, TechKeywords)| > 0 ==> Has(fb.sectionFeedback, TechnicalSkillsKey)
    ensures UniqueKeys(fb.sectionFeedback)
    ensures |fb.suggestions| == 5 && Distinct(fb.suggestions)
    ensures forall s :: s in fb.suggestions ==> s in AllSuggestions
  {
    var impression, sections, adjustment := AnalyzeText(text, Graded);
    var score := FinalScore(text, today, dayOfMonth, roll, adjustment);
    sections := TechnicalSkillsTail(text, sections);
    var suggestions := PickSuggestions(text, today);
    fb := Feedback(impression, sections, suggestions, score);
  }

  /** `Math.max(30, Math.min(98, scoreBase + scoreAdjustment + randomFactor + contentVariance + dateVariance))`. */
  method FinalScore(text: string, today: string, dayOfMonth: nat, roll: nat, adjustment: int) returns (score: int)
    ensures score == Clamp(65 + UniqueVariance(text, today) + adjustment + RandomFactor(roll)
                           + ContentVariance(text, today) + DateVariance(dayOfMonth), 30, 98)
  {
    var uniqueId := HashString(text + today);
    var scoreBase := 65 + ((uniqueId as int) % 10 - 5);
    var randomFactor := (roll as int) % 5 - 2;
    var dateVariance := (dayOfMonth as int) % 5 - 2;
    var contentVariance: int := 0;
    if text != "" {
      var hash := HashString(text + today);
      contentVariance := (hash as int) % 6 - 2;
    }
    score := Clamp(scoreBase + adjustment + randomFactor + contentVariance + dateVariance, 30, 98);
  }

  /** `selectRelevantSuggestions(resumeText, allSuggestions, today)`. */
  method PickSuggestions(text: string, today: string) returns (picks: seq<string>)
    ensures |picks| == 5 && Distinct(picks)
    ensures forall s :: s in picks ==> s in AllSuggestions
  {
    AllSuggestionsDistinct();
    picks := SelectRelevantSuggestions(text, AllSuggestions, today);
    forall s | s in picks ensures s in AllSuggestions {
      assert s in multiset(picks);
    }
  }
}
