/**
 * `getMockFeedback`, `selectSuggestions` and `generateDefaultSuggestions` of
 * openaiUtils.improved.ts. The rules are those of `FeedbackCore` with the
 * flat section bonuses; the score has only the random factor as variance, an
 * empty text scores 0, and the suggestions are drawn at random.
 */
module EngineImproved {
  import opened Text
  import opened Lists
  import opened Numbers
  import opened Signals
  import opened Sections
  import opened Suggestions
  import opened FeedbackCore
  import opened Engine

  /** `generateDefaultSuggestions()`. */
  const DefaultSuggestions: seq<string> := [StartSuggestion, SummarySuggestion, ChronologySuggestion,
                                            SkillsSectionSuggestion, EducationSuggestion]

  const StartSuggestion := "Start by creating a clear and concise resume with your contact information at the top"
  const SummarySuggestion := "Include a strong professional summary that highlights your key qualifications"
  const ChronologySuggestion := "Organize your experience section chronologically with most recent positions first"
  const SkillsSectionSuggestion := "Include a skills section that highlights both technical and soft skills"
  const EducationSuggestion := "Add your education and any relevant certifications or training"

  lemma DefaultSuggestionsDistinct()
    ensures |DefaultSuggestions| == 5 && Distinct(DefaultSuggestions)
  {
  }

  // ---------------------------------------------------------------------------
  // selectSuggestions. `Math.floor(Math.random() * n)` is `draw % n` for the
  // next of the given draws; a loop also stops when the draws run out.

  /**
   * The first loop: while fewer than three are picked, the entry at
   * `draw % min(8, length)` is picked and spliced out, unless that index was
   * already used (then the draw is spent and nothing happens).
   */
  method DrawSpread(list: SuggestionList, draws: seq<nat>) returns (picks: seq<string>, consumed: nat)
    modifies list
    ensures consumed <= |draws| && |picks| <= 3
    ensures |picks| < 3 ==> consumed == |draws| || |list.items| == 0
    ensures SpreadState(picks, list.items, old(list.items))
    ensures consumed > 0 ==> |picks| >= 1 && picks[0] == old(list.items)[draws[0] % Min(8, |old(list.items)|)]
    ensures |draws| > 0 && |old(list.items)| > 0 ==> consumed > 0
  {
    ghost var start := list.items;
    SpreadStart(start);
    picks := [];
    var usedIndices: set<nat> := {};
    consumed := 0;
    while |picks| < 3 && |list.items| > 0 && consumed < |draws|
      invariant consumed <= |draws| && |picks| <= 3
      invariant SpreadState(picks, list.items, start)
      invariant consumed == 0 ==> picks == [] && usedIndices == {} && list.items == start
      invariant consumed > 0 ==> |picks| >= 1
      invariant |picks| >= 1 ==> picks[0] == start[draws[0] % Min(8, |start|)]
      decreases |draws| - consumed
    {
      var index := draws[consumed] % Min(8, |list.items|);
      picks, usedIndices := PickUnlessUsed(list, index, picks, usedIndices, start);
      consumed := consumed + 1;
    }
  }

  /** The second loop: up to five, the entry at `draw % length` is picked and spliced out. */
  method DrawFill(list: SuggestionList, chosen: seq<string>, draws: seq<nat>) returns (picks: seq<string>, consumed: nat)
    requires |chosen| <= 5
    modifies list
    ensures consumed <= |draws| && |chosen| <= |picks| <= 5
    ensures |picks| == |chosen| + consumed
    ensures |picks| < 5 ==> consumed == |draws| || |list.items| == 0
    ensures picks[..|chosen|] == chosen
    ensures |list.items| + |picks| == |old(list.items)| + |chosen|
    ensures multiset(picks) + multiset(list.items) == multiset(chosen) + multiset(old(list.items))
  {
    ghost var start := list.items;
    picks := chosen;
    consumed := 0;
    while |picks| < 5 && |list.items| > 0 && consumed < |draws|
      invariant consumed <= |draws| && |chosen| <= |picks| <= 5
      invariant |picks| == |chosen| + consumed
      invariant |list.items| + |picks| == |start| + |chosen|
      invariant picks[..|chosen|] == chosen
      invariant multiset(picks) + multiset(list.items) == multiset(chosen) + multiset(start)
      decreases |draws| - consumed
    {
      var index := draws[consumed] % |list.items|;
      picks := picks + [list.items[index]];
      var removed := list.Splice(index);
      consumed := consumed + 1;
    }
  }

  /**
   * The picks honour the drawing scheme over the prioritised list: the
   * first (up to three) picks each lie among the first eight entries less
   * the picks before it, and the first pick is the entry at the first draw.
   */
  ghost predicate DrawnFrom(picks: seq<string>, prioritized: seq<string>, draws: seq<nat>) {
    SpreadFrom(picks, prioritized, Min(3, |picks|)) &&
    (|draws| > 0 && |prioritized| > 0 ==>
       |picks| >= 1 && picks[0] == prioritized[draws[0] % Min(8, |prioritized|)])
  }

  /**
   * `selectSuggestions` on a pool: prioritises a copy, draws up to three picks
   * among its first eight entries, then fills up to five. Returns the picks
   * and the number of draws spent.
   */
  method SelectSuggestionsFrom(text: string, pool: seq<string>, draws: seq<nat>) returns (picks: seq<string>, consumed: nat)
    ensures consumed <= |draws| && |picks| <= 5
    ensures |picks| == Min(5, |pool|) || consumed == |draws|
    ensures multiset(picks) <= multiset(pool)
    ensures forall s :: s in picks ==> s in pool
    ensures Distinct(pool) ==> Distinct(picks)
    ensures DrawnFrom(picks, Prioritized(text, pool), draws)
  {
    var list := new SuggestionList(pool);
    Prioritize(text, list);
    ghost var prioritized := list.items;
    var spread, used := DrawSpread(list, draws);
    ghost var rest := list.items;
    assert multiset(spread) + multiset(rest) == multiset(prioritized);
    var more;
    picks, more := DrawFill(list, spread, draws[used..]);
    consumed := used + more;
    assert multiset(picks) <= multiset(prioritized) by {
      assert multiset(picks) + multiset(list.items) == multiset(spread) + multiset(rest);
    }
    assert forall k :: 0 <= k < |spread| ==> picks[k] == spread[k] by {
      forall k | 0 <= k < |spread| ensures picks[k] == spread[k] {
        assert picks[..|spread|][k] == picks[k];
      }
    }
    assert |spread| < 3 ==> |picks| == |spread|;
    assert SpreadFrom(picks, prioritized, Min(3, |picks|));
    assert |draws| > 0 && |pool| > 0 ==> picks[0] == spread[0];
    assert DrawnFrom(picks, prioritized, draws);
    forall s | s in picks ensures s in pool {
      assert s in multiset(picks);
    }
    if Distinct(pool) {
      SubMultisetDistinct(picks, pool);
    }
  }

  /** `selectSuggestions(resumeText)`: at most five distinct suggestions of the fixed pool. */
  method SelectSuggestions(text: string, draws: seq<nat>) returns (picks: seq<string>, consumed: nat)
    ensures consumed <= |draws|
    ensures |picks| == 5 || consumed == |draws|
    ensures |picks| <= 5 && Distinct(picks)
    ensures forall s :: s in picks ==> s in AllSuggestions
  {
    AllSuggestionsDistinct();
    picks, consumed := SelectSuggestionsFrom(text, AllSuggestions, draws);
    assert Min(5, |AllSuggestions|) == 5;
  }

  // ---------------------------------------------------------------------------
  // getMockFeedback

  /**
   * `getMockFeedback(resumeText)`, with the draw behind the random factor and
   * the draws of the suggestion selection passed in; also returns the number
   * of suggestion draws spent.
   */
  method GetMockFeedback(text: string, roll: nat, draws: seq<nat>) returns (fb: Feedback, consumed: nat)
    ensures text != "" ==> fb.score == Clamp(65 + ScoreAdjustment(Read(text), Flat) + RandomFactor(roll), 30, 98)
    ensures text != "" ==> 30 <= fb.score <= 98
    ensures text == "" ==> fb.score == 0
    ensures text == "" ==> fb.overallImpression == EmptyImpression && fb.sectionFeedback == EmptySections
    ensures text == "" ==> fb.suggestions == DefaultSuggestions && consumed == 0
    ensures text != "" ==> fb.overallImpression == WritingImpression(Read(text))
    ensures text != "" ==> HasCanonicalKeys(fb.sectionFeedback)
    ensures text != "" && |FoundTerms(text, TechKeywords)| > 0 ==> Has(fb.sectionFeedback, TechnicalSkillsKey)
    ensures UniqueKeys(fb.sectionFeedback)
    ensures |fb.suggestions| <= 5 && Distinct(fb.suggestions)
    ensures text != "" ==> (|fb.suggestions| == 5 || consumed == |draws|) && consumed <= |draws|
    ensures text != "" ==> forall s :: s in fb.suggestions ==> s in AllSuggestions
  {
    if text != "" {
      fb, consumed := AnalyzedFeedback(text, roll, draws);
    } else {
      EmptySectionsContent();
      DefaultSuggestionsDistinct();
      fb := Feedback(EmptyImpression, EmptySections, DefaultSuggestions, 0);
      consumed := 0;
    }
  }

  /** The branch of `getMockFeedback` for a non-empty text. */
  method AnalyzedFeedback(text: string, roll: nat, draws: seq<nat>) returns (fb: Feedback, consumed: nat)
    requires text != ""
    ensures fb.score == Clamp(65 + ScoreAdjustment(Read(text), Flat) + RandomFactor(roll), 30, 98)
    ensures 30 <= fb.score <= 98
    ensures fb.overallImpression == WritingImpression(Read(text))
    ensures HasCanonicalKeys(fb.sectionFeedback)
    ensures |FoundTerms(text, TechKeywords)| > 0 ==> Has(fb.sectionFeedback, TechnicalSkillsKey)
    ensures UniqueKeys(fb.sectionFeedback)
    ensures |fb.suggestions| <= 5 && Distinct(fb.suggestions)
    ensures (|fb.suggestions| == 5 || consumed == |draws|) && consumed <= |draws|
    ensures forall s :: s in fb.suggestions ==> s in AllSuggestions
  {
    var impression, sections, adjustment := AnalyzeText(text, Flat);
    sections := TechnicalSkillsTail(text, sections);
    var score := Clamp(65 + adjustment + RandomFactor(roll), 30, 98);
    var suggestions;
    suggestions, consumed := SelectSuggestions(text, draws);
    fb := Feedback(impression, sections, suggestions, score);
  }
}
