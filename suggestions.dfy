/**
 * The suggestion pool of the first two revisions, `moveToTop`, and the
 * content-driven prioritisation that both `selectRelevantSuggestions` and
 * `selectSuggestions` apply before picking.
 */
module Suggestions {
  import opened Text
  import opened Lists
  import opened Signals

  const QuantifySuggestion := "Quantify your achievements with metrics (e.g., \"Increased sales by 25%\" instead of \"Increased sales\")"
  const TailorSuggestion := "Tailor your resume for each job application by emphasizing relevant skills and experience"
  const LinkedInSuggestion := "Add a LinkedIn profile and ensure it is consistent with your resume"
  const ProjectsSuggestion := "Consider adding a brief projects section if you have relevant work to showcase"
  const ActionVerbsSuggestion := "Use strong action verbs at the beginning of each bullet point (e.g., \"Implemented\", \"Developed\", \"Led\")"
  const FocusedSummarySuggestion := "Create a more focused professional summary that highlights your unique value proposition"
  const ConciseSuggestion := "Remove outdated or irrelevant experience to keep your resume concise"
  const AtsKeywordsSuggestion := "Incorporate industry keywords to help your resume pass through ATS systems"
  const TechnicalSkillsSuggestion := "Add specific technical skills with proficiency levels where applicable"
  const CertificationsSuggestion := "Include certifications and continuing education to demonstrate ongoing professional development"
  const SpecificAchievementsSuggestion := "Make your achievements more specific by including context, action, and results"
  const FormattingSuggestion := "Ensure consistent formatting throughout your resume (fonts, bullet points, spacing)"
  const SkillsBasedSuggestion := "Consider a skills-based format if you're changing industries or have employment gaps"
  const ToolsSectionSuggestion := "Add a brief technologies/tools section for technical roles"
  const WhiteSpaceSuggestion := "Use white space strategically to improve readability and visual appeal"
  const GenericPhrasesSuggestion := "Replace generic phrases like \"team player\" with specific examples of collaboration"
  const VolunteerSuggestion := "Include relevant volunteer work, especially if it demonstrates transferable skills"
  const PronounsSuggestion := "Eliminate pronouns like \"I\" and \"my\" to maintain a professional tone"
  const LengthSuggestion := "Adjust your resume length based on your experience level (1 page for early career, 2 pages for 10+ years)"
  const ReviewSuggestion := "Have your resume reviewed by someone in your target industry for specialized feedback"

  /** `allSuggestions`, in order. */
  const AllSuggestions: seq<string> := [
    QuantifySuggestion, TailorSuggestion,
    LinkedInSuggestion, ProjectsSuggestion,
    ActionVerbsSuggestion, FocusedSummarySuggestion,
    ConciseSuggestion, AtsKeywordsSuggestion,
    TechnicalSkillsSuggestion, CertificationsSuggestion,
    SpecificAchievementsSuggestion, FormattingSuggestion,
    SkillsBasedSuggestion, ToolsSectionSuggestion,
    WhiteSpaceSuggestion, GenericPhrasesSuggestion,
    VolunteerSuggestion, PronounsSuggestion,
    LengthSuggestion, ReviewSuggestion
  ]

  lemma AllSuggestionsDistinct()
    ensures |AllSuggestions| == 20 && Distinct(AllSuggestions)
  {
  }

  // ---------------------------------------------------------------------------
  // moveToTop

  /** `findIndex` of the first entry starting with `marker` up to case, or `|s|` when there is none. */
  function FirstStartingWith(s: seq<string>, marker: string): (i: nat)
    ensures i <= |s|
    ensures i < |s| ==> StartsWithCI(s[i], marker)
    ensures forall j :: 0 <= j < i ==> !StartsWithCI(s[j], marker)
  {
    if s == [] then 0
    else if StartsWithCI(s[0], marker) then 0
    else 1 + FirstStartingWith(s[1..], marker)
  }

  /** The list after `moveToTop(s, marker)`. */
  function MovedToTop(s: seq<string>, marker: string): seq<string> {
    var i := FirstStartingWith(s, marker);
    if i == |s| then s else [s[i]] + RemoveAt(s, i)
  }

  /** `moveToTop` only reorders. */
  lemma MovedToTopPermutation(s: seq<string>, marker: string)
    ensures multiset(MovedToTop(s, marker)) == multiset(s)
    ensures |MovedToTop(s, marker)| == |s|
  {
    var i := FirstStartingWith(s, marker);
    if i < |s| {
      assert multiset(MovedToTop(s, marker)) == multiset{s[i]} + multiset(RemoveAt(s, i));
    }
  }

  /**
   * When some entry starts with the marker, the first such entry is now at the
   * front, the entries before it move down by one and those after it stay put;
   * otherwise nothing changes.
   */
  lemma MovedToTopPositions(s: seq<string>, marker: string)
    ensures var r, i := MovedToTop(s, marker), FirstStartingWith(s, marker);
      && (i == |s| ==> r == s)
      && (i < |s| ==>
            && r[0] == s[i] && StartsWithCI(r[0], marker)
            && (forall j :: 0 <= j < i ==> r[j + 1] == s[j])
            && (forall j :: i < j < |s| ==> r[j] == s[j]))
  {
  }

  /** No entry starts with the marker exactly when `moveToTop` leaves the list as it was. */
  lemma MovedToTopUnchanged(s: seq<string>, marker: string)
    requires forall j :: 0 <= j < |s| ==> !StartsWithCI(s[j], marker)
    ensures MovedToTop(s, marker) == s
  {
  }

  /** A mutable suggestion array: `moveToTop` and `splice(index, 1)` update it in place. */
  class SuggestionList {
    var items: seq<string>

    constructor (init: seq<string>)
      ensures items == init
    {
      items := init;
    }

    /** `suggestions.splice(index, 1)`, returning the removed entry. */
    method Splice(index: nat) returns (removed: string)
      requires index < |items|
      modifies this
      ensures removed == old(items)[index]
      ensures items == RemoveAt(old(items), index)
    {
      removed := items[index];
      items := items[..index] + items[index + 1..];
    }

    /** `moveToTop(suggestions, marker)`: `findIndex`, then `splice` and `unshift`. */
    method MoveToTop(marker: string)
      modifies this
      ensures items == MovedToTop(old(items), marker)
    {
      var index := 0;
      while index < |items| && !StartsWithCI(items[index], marker)
        invariant index <= |items|
        invariant forall j :: 0 <= j < index ==> !StartsWithCI(items[j], marker)
      {
        index := index + 1;
      }
      FirstIsUnique(items, marker, index);
      if index < |items| {
        var suggestion := Splice(index);
        items := [suggestion] + items;
      }
    }
  }

  /** `FirstStartingWith` is the only index with its two defining properties. */
  lemma FirstIsUnique(s: seq<string>, marker: string, i: nat)
    requires i <= |s| && (i < |s| ==> StartsWithCI(s[i], marker))
    requires forall j :: 0 <= j < i ==> !StartsWithCI(s[j], marker)
    ensures i == FirstStartingWith(s, marker)
  {
  }

  // ---------------------------------------------------------------------------
  // Prioritisation

  const QuantifyMarker := "Quantify your achievements"
  const ActionVerbsMarker := "Use strong action verbs"
  const LinkedInMarker := "Add a LinkedIn profile"
  const ProjectsMarker := "Consider adding a brief projects section"
  const ToolsMarker := "Add a brief technologies/tools section for technical roles"
  const TechnicalSkillsMarker := "Add specific technical skills with proficiency levels"

  /**
   * The markers passed to `moveToTop`, in call order, given the outcome of each
   * content check: no quantifiable achievement, no strong verb, no LinkedIn
   * profile, no project mention, technical vocabulary.
   */
  function MarkerSteps(noQuantifiable: bool, noStrongVerb: bool, noLinkedIn: bool, noProjects: bool,
                       technical: bool): (ms: seq<string>)
    ensures |ms| <= 6
  {
    var ms := Then(Then(Then(Then([], noQuantifiable, QuantifyMarker), noStrongVerb, ActionVerbsMarker),
                        noLinkedIn, LinkedInMarker), noProjects, ProjectsMarker);
    Then(Then(ms, technical, ToolsMarker), technical, TechnicalSkillsMarker)
  }

  /** `ms`, followed by `marker` when its check fires. */
  function Then(ms: seq<string>, fires: bool, marker: string): (r: seq<string>)
    ensures |r| == if fires then |ms| + 1 else |ms|
  {
    if fires then ms + [marker] else ms
  }

  function MarkersFor(text: string): (ms: seq<string>)
    ensures |ms| <= 6
  {
    MarkerSteps(!HasQuantifiable(text), !HasStrongVerb(text), !HasLinkedIn(text), !MentionsProject(text),
                HasTechnicalRole(text))
  }

  /** `moveToTop` with each marker of `markers` in turn. */
  function MoveAllToTop(s: seq<string>, markers: seq<string>): seq<string>
    decreases |markers|
  {
    if markers == [] then s
    else MovedToTop(MoveAllToTop(s, markers[..|markers| - 1]), markers[|markers| - 1])
  }

  /** Moving to the top only reorders, whatever the markers. */
  lemma {:induction false} MoveAllToTopPermutation(s: seq<string>, markers: seq<string>)
    ensures multiset(MoveAllToTop(s, markers)) == multiset(s)
    ensures |MoveAllToTop(s, markers)| == |s|
    decreases |markers|
  {
    if markers != [] {
      MoveAllToTopPermutation(s, markers[..|markers| - 1]);
      MovedToTopPermutation(MoveAllToTop(s, markers[..|markers| - 1]), markers[|markers| - 1]);
    }
  }

  /** The most recent marker with a matching entry brings that entry to the front. */
  lemma MoveAllToTopLast(s: seq<string>, markers: seq<string>, m: string)
    requires exists j :: 0 <= j < |s| && StartsWithCI(s[j], m)
    ensures var r := MoveAllToTop(s, markers + [m]); |r| > 0 && StartsWithCI(r[0], m)
  {
    var ms := markers + [m];
    assert ms[..|ms| - 1] == markers;
    var p := MoveAllToTop(s, markers);
    MoveAllToTopPermutation(s, markers);
    var j :| 0 <= j < |s| && StartsWithCI(s[j], m);
    assert s[j] in multiset(p);
    var k :| 0 <= k < |p| && p[k] == s[j];
    assert FirstStartingWith(p, m) <= k;
    MovedToTopPositions(p, m);
  }

  /** The pool after the content checks have moved their suggestions to the top. */
  function Prioritized(text: string, pool: seq<string>): (p: seq<string>)
    ensures multiset(p) == multiset(pool) && |p| == |pool|
  {
    MoveAllToTopPermutation(pool, MarkersFor(text));
    MoveAllToTop(pool, MarkersFor(text))
  }

  /** The sequence of `moveToTop` calls on a fresh copy of the pool. */
  method Prioritize(text: string, list: SuggestionList)
    modifies list
    ensures list.items == Prioritized(text, old(list.items))
  {
    ghost var pool := list.items;
    ghost var done: seq<string> := [];
    var noQuantifiable := !HasQuantifiable(text);
    if noQuantifiable {
      done := MoveMarker(list, pool, done, QuantifyMarker);
    }
    assert done == Then([], noQuantifiable, QuantifyMarker);
    var noStrongVerb := !HasStrongVerb(text);
    ghost var before := done;
    if noStrongVerb {
      done := MoveMarker(list, pool, done, ActionVerbsMarker);
    }
    assert done == Then(before, noStrongVerb, ActionVerbsMarker);
    var noLinkedIn := !HasLinkedIn(text);
    before := done;
    if noLinkedIn {
      done := MoveMarker(list, pool, done, LinkedInMarker);
    }
    assert done == Then(before, noLinkedIn, LinkedInMarker);
    var noProjects := !MentionsProject(text);
    before := done;
    if noProjects {
      done := MoveMarker(list, pool, done, ProjectsMarker);
    }
    assert done == Then(before, noProjects, ProjectsMarker);
    var technical := HasTechnicalRole(text);
    before := done;
    if technical {
      done := MoveMarker(list, pool, done, ToolsMarker);
      done := MoveMarker(list, pool, done, TechnicalSkillsMarker);
    }
    assert done == Then(Then(before, technical, ToolsMarker), technical, TechnicalSkillsMarker);
  }

  /** One `moveToTop` call, recorded in the list of markers applied so far. */
  method MoveMarker(list: SuggestionList, ghost pool: seq<string>, ghost done: seq<string>, marker: string)
    returns (ghost next: seq<string>)
    requires list.items == MoveAllToTop(pool, done)
    modifies list
    ensures next == done + [marker]
    ensures list.items == MoveAllToTop(pool, next)
  {
    list.MoveToTop(marker);
    next := done + [marker];
    assert next[..|next| - 1] == done;
  }
  // ---------------------------------------------------------------------------
  // Spreading the first picks over the first eight entries.

  /** `x` is one of the first `n` entries of `s`. */
  predicate AmongFirst(x: string, s: seq<string>, n: nat) {
    exists j :: 0 <= j < n && j < |s| && s[j] == x
  }

  /** Each of the first `n` picks, the k-th, is among the first 8 + k entries of `s`. */
  predicate SpreadFrom(picks: seq<string>, s: seq<string>, n: nat) {
    forall k :: 0 <= k < n && k < |picks| ==> AmongFirst(picks[k], s, 8 + k)
  }

  /** Removing one entry moves every later entry one place up. */
  lemma SpliceKeepsAmongFirst(items: seq<string>, index: nat, s: seq<string>, p: nat)
    requires index < |items|
    requires forall j :: 0 <= j < |items| ==> AmongFirst(items[j], s, j + p + 1)
    ensures forall j :: 0 <= j < |items| - 1 ==> AmongFirst(RemoveAt(items, index)[j], s, j + p + 2)
  {
    var r := RemoveAt(items, index);
    forall j | 0 <= j < |r| ensures AmongFirst(r[j], s, j + p + 2) {
      var from := if j < index then j else j + 1;
      assert r[j] == items[from];
      var w :| 0 <= w < from + p + 1 && w < |s| && s[w] == items[from];
    }
  }

  /**
   * The state of the first loop: the picks and the remaining entries together
   * are the prioritised list, the k-th pick is among its first 8 + k entries,
   * and the j-th remaining entry among its first j + picked + 1.
   */
  predicate SpreadState(picks: seq<string>, items: seq<string>, start: seq<string>) {
    && |items| + |picks| == |start|
    && multiset(picks) + multiset(items) == multiset(start)
    && SpreadFrom(picks, start, |picks|)
    && forall j :: 0 <= j < |items| ==> AmongFirst(items[j], start, j + |picks| + 1)
  }

  /** Picking and splicing out an entry among the first eight keeps `SpreadState`. */
  lemma SpreadStep(picks: seq<string>, items: seq<string>, start: seq<string>, index: nat)
    requires SpreadState(picks, items, start) && index < |items| && index < 8
    ensures SpreadState(picks + [items[index]], RemoveAt(items, index), start)
  {
    var picks', items' := picks + [items[index]], RemoveAt(items, index);
    assert AmongFirst(items[index], start, 8 + |picks|) by {
      var j :| 0 <= j < index + |picks| + 1 && j < |start| && start[j] == items[index];
    }
    SpliceKeepsAmongFirst(items, index, start, |picks|);
    assert multiset(picks') + multiset(items') == multiset(start) by {
      assert multiset(items') + multiset{items[index]} == multiset(items);
    }
    forall k | 0 <= k < |picks'| ensures AmongFirst(picks'[k], start, 8 + k) {
      if k < |picks| { assert picks'[k] == picks[k]; }
    }
  }

  /** At the start every entry is among the first j + 1 of the list itself. */
  lemma SpreadStart(start: seq<string>)
    ensures SpreadState([], start, start)
  {
    forall j | 0 <= j < |start| ensures AmongFirst(start[j], start, j + 1) {
      assert start[j] == start[j];
    }
  }

  /** One iteration of a first-picks loop: pick and splice out `index` unless it is used. */
  method PickUnlessUsed(list: SuggestionList, index: nat, picks: seq<string>, used: set<nat>, ghost start: seq<string>)
    returns (picks': seq<string>, used': set<nat>)
    requires index < |list.items| && index < 8
    requires SpreadState(picks, list.items, start)
    modifies list
    ensures index in used ==> picks' == picks && used' == used && list.items == old(list.items)
    ensures index !in used ==> picks' == picks + [old(list.items)[index]] && used' == used + {index}
    ensures SpreadState(picks', list.items, start)
    ensures |picks| >= 1 ==> |picks'| >= 1 && picks'[0] == picks[0]
    ensures picks == [] && used == {} ==> picks' == [old(list.items)[index]]
  {
    picks', used' := picks, used;
    if index !in used {
      SpreadStep(picks, list.items, start, index);
      picks' := picks + [list.items[index]];
      used' := used + {index};
      var removed := list.Splice(index);
    }
  }

}
