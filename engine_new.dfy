/**
 * `getMockFeedback` of openaiUtils.new.ts. The analysis is that of
 * `FeedbackCore` with the flat section bonuses and no late 'Technical Skills'
 * entry; the score has no variance at all and is kept in [35, 98]; the
 * suggestions are five of twelve candidates whose wording depends on the
 * signals, drawn at random without repeating an index.
 */
module EngineNew {
  import opened Text
  import opened Lists
  import opened Numbers
  import opened Signals
  import opened Sections
  import opened FeedbackCore

  // ---------------------------------------------------------------------------
  // The twelve candidate suggestions (`possibleSuggestions`). Each entry of the
  // list is one of two wordings chosen by a signal, or a fixed wording.

  datatype Candidate =
    | MoreQuantifiables(found: nat) | KeepQuantifiables(found: nat)
    | MoreVerbs | VaryVerbs
    | MoreTech | OrganizeTech
    | MoreSoft | BalancedSkills
    | AtsCompatible
    | Condense | Concise
    | LinkedIn
    | Tailor
    | Coursework | AddEducation
    | RefineSummary | AddSummary
    | Layout
    | EnhanceProjects | AddProjects

  /** The candidates for the signals `sig`, in the order of the source. */
  function Candidates(sig: ResumeSignals): (c: seq<Candidate>)
    ensures |c| == 12
    ensures c[0] == MoreQuantifiables(sig.quantifiables) <==> sig.quantifiables < 5
    ensures c[0] == KeepQuantifiables(sig.quantifiables) <==> sig.quantifiables >= 5
    ensures c[1] == MoreVerbs <==> sig.actionVerbs < 10
    ensures c[2] == MoreTech <==> |sig.techTerms| < 5
    ensures c[3] == MoreSoft <==> |sig.softSkills| < 3
    ensures c[4] == AtsCompatible
    ensures c[5] == Condense <==> sig.wordCount > 700
    ensures c[6] == LinkedIn && c[7] == Tailor
    ensures c[8] == Coursework <==> "education" in sig.sections
    ensures c[9] == RefineSummary <==> "professional summary" in sig.sections || "summary" in sig.sections
    ensures c[10] == Layout
    ensures c[11] == EnhanceProjects <==> "projects" in sig.sections
  {
    CandidatesOf(sig.quantifiables, sig.actionVerbs, |sig.techTerms|, |sig.softSkills|, sig.wordCount,
                 "education" in sig.sections, "professional summary" in sig.sections || "summary" in sig.sections,
                 "projects" in sig.sections)
  }

  /** The twelve candidates from the counts and the sections found; the k-th stands at slot k. */
  function CandidatesOf(quantifiables: nat, actionVerbs: nat, techTerms: nat, softSkills: nat, wordCount: nat,
                        education: bool, summary: bool, projects: bool): (c: seq<Candidate>)
    ensures |c| == 12 && forall k :: 0 <= k < 12 ==> Slot(c[k]) == k
  {
    [ if quantifiables < 5 then MoreQuantifiables(quantifiables) else KeepQuantifiables(quantifiables),
      if actionVerbs < 10 then MoreVerbs else VaryVerbs,
      if techTerms < 5 then MoreTech else OrganizeTech,
      if softSkills < 3 then MoreSoft else BalancedSkills,
      AtsCompatible,
      if wordCount > 700 then Condense else Concise,
      LinkedIn,
      Tailor,
      if education then Coursework else AddEducation,
      if summary then RefineSummary else AddSummary,
      Layout,
      if projects then EnhanceProjects else AddProjects ]
  }

  /** The position of the list a candidate can stand at. */
  function Slot(c: Candidate): nat {
    match c
    case MoreQuantifiables(_) | KeepQuantifiables(_) => 0
    case MoreVerbs | VaryVerbs => 1
    case MoreTech | OrganizeTech => 2
    case MoreSoft | BalancedSkills => 3
    case AtsCompatible => 4
    case Condense | Concise => 5
    case LinkedIn => 6
    case Tailor => 7
    case Coursework | AddEducation => 8
    case RefineSummary | AddSummary => 9
    case Layout => 10
    case EnhanceProjects | AddProjects => 11
  }

  /** The candidates are twelve different suggestions. */
  lemma CandidatesDistinct(sig: ResumeSignals)
    ensures Distinct(Candidates(sig))
  {
    SlotsDistinct(Candidates(sig));
  }

  /** A list whose k-th entry stands at slot k has no repeats. */
  lemma SlotsDistinct(c: seq<Candidate>)
    requires forall k :: 0 <= k < |c| ==> Slot(c[k]) == k
    ensures Distinct(c)
  {
    forall i, j | 0 <= i < j < |c| ensures c[i] != c[j] {
      assert Slot(c[i]) != Slot(c[j]);
    }
  }

  /** The text of a candidate. */
  function Wording(c: Candidate): string {
    match c
    case MoreQuantifiables(n) => "Add more quantifiable achievements (currently found " + NatToString(n) + "). Use metrics like percentages, dollar amounts, or numbers to demonstrate impact."
    case KeepQuantifiables(n) => "Continue to highlight quantifiable achievements throughout your experience section (" + NatToString(n) + " currently found)."
    case MoreVerbs => "Use more powerful action verbs at the beginning of bullet points (e.g., \"Implemented\", \"Developed\", \"Led\") instead of passive language."
    case VaryVerbs => "Your use of action verbs is effective. Consider varying them further to showcase diverse skills."
    case MoreTech => "Expand your technical skills section with more industry-specific technologies and tools."
    case OrganizeTech => "Consider organizing your technical skills by proficiency level or relevancy to make them more scannable."
    case MoreSoft => "Add more soft skills such as communication, leadership, or problem-solving to complement your technical abilities."
    case BalancedSkills => "Your balance of technical and soft skills is good. Consider connecting them to specific achievements in your experience section."
    case AtsCompatible => "Ensure your resume is ATS-compatible by using standard section headers and incorporating keywords from target job descriptions."
    case Condense => "Consider condensing your resume to improve readability. Focus on your most relevant and recent experiences."
    case Concise => "Maintain your resume's concise format while ensuring all key achievements are highlighted."
    case LinkedIn => "Add your LinkedIn profile and ensure it's consistent with your resume details for a cohesive professional narrative."
    case Tailor => "Tailor your resume for each specific job application by adjusting keywords and highlighting relevant experience."
    case Coursework => "Consider adding relevant coursework or academic projects to your education section if relatively recent."
    case AddEducation => "Add an education section that highlights your academic credentials and relevant coursework."
    case RefineSummary => "Refine your professional summary to highlight your unique value proposition in 3-4 impactful sentences."
    case AddSummary => "Add a concise professional summary that captures your expertise, experience level, and career goals."
    case Layout => "Use white space strategically to improve readability and create visual separation between sections."
    case EnhanceProjects => "Enhance your projects section by quantifying results and highlighting specific technologies used."
    case AddProjects => "Consider adding a projects section to demonstrate practical application of your skills."
  }

  /** The texts of a list of candidates. */
  function Render(cs: seq<Candidate>): (r: seq<string>)
    ensures |r| == |cs|
    ensures forall k :: 0 <= k < |cs| ==> r[k] == Wording(cs[k])
  {
    seq(|cs|, k requires 0 <= k < |cs| => Wording(cs[k]))
  }

  // ---------------------------------------------------------------------------
  // The selection loop: `Math.floor(Math.random() * n)` is `draw % n`; an
  // index already used spends its draw and picks nothing.

  /** The indices the draws pick, in order: each draw's index unless an earlier draw had it. */
  function Picked(draws: seq<nat>, n: nat): (p: seq<nat>)
    requires n > 0
    ensures Distinct(p)
    ensures forall k :: 0 <= k < |p| ==> p[k] < n
    ensures |p| <= |draws|
    decreases |draws|
  {
    if draws == [] then []
    else
      var before := Picked(draws[..|draws| - 1], n);
      var index := draws[|draws| - 1] % n;
      if index in before then before
      else
        DistinctConcat(before, [index]);
        before + [index]
  }

  /** The picked indices are exactly the indices of the draws. */
  lemma {:induction false} PickedIndices(draws: seq<nat>, n: nat)
    requires n > 0
    ensures forall i :: i in Picked(draws, n) <==> exists j :: 0 <= j < |draws| && draws[j] % n == i
  {
    if draws != [] {
      var d := draws[..|draws| - 1];
      PickedIndices(d, n);
      forall i ensures i in Picked(draws, n) <==> exists j :: 0 <= j < |draws| && draws[j] % n == i {
        if i in Picked(d, n) {
          var j :| 0 <= j < |d| && d[j] % n == i;
          assert draws[j] == d[j];
        }
        if j :| 0 <= j < |draws| && draws[j] % n == i {
          if j < |d| {
            assert d[j] == draws[j];
          }
        }
      }
    }
  }

  /** The first draw always picks: its index is the first one. */
  lemma {:induction false} PickedFirst(draws: seq<nat>, n: nat)
    requires n > 0 && |draws| > 0
    ensures |Picked(draws, n)| >= 1 && Picked(draws, n)[0] == draws[0] % n
  {
    if |draws| > 1 {
      PickedFirst(draws[..|draws| - 1], n);
      assert draws[..|draws| - 1][0] == draws[0];
    }
  }

  /** The suggestions at the given indices. */
  function At<T>(c: seq<T>, indices: seq<nat>): (r: seq<T>)
    requires forall k :: 0 <= k < |indices| ==> indices[k] < |c|
    ensures |r| == |indices|
    ensures forall k :: 0 <= k < |indices| ==> r[k] == c[indices[k]]
  {
    seq(|indices|, k requires 0 <= k < |indices| => c[indices[k]])
  }

  /** The candidates of `sig` at the picked indices. */
  function Suggested(sig: ResumeSignals, picked: seq<nat>): (r: seq<Candidate>)
    requires forall k :: 0 <= k < |picked| ==> picked[k] < 12
    ensures |r| == |picked|
    ensures Distinct(picked) ==> Distinct(r)
    ensures forall k :: 0 <= k < |picked| ==> r[k] == Candidates(sig)[picked[k]]
  {
    CandidatesDistinct(sig);
    At(Candidates(sig), picked)
  }

  /**
   * The suggestions of `text` once the selection loop has spent `draws`: the
   * wordings of the candidates at the picked indices.
   */
  function SuggestionsFor(text: string, draws: seq<nat>): seq<string> {
    Render(Suggested(Read(text), Picked(draws, 12)))
  }

  /**
   * The loop `while (suggestions.length < 5 && suggestions.length <
   * possibleSuggestions.length)`, stopping also when the draws run out.
   */
  method PickCandidates<T>(c: seq<T>, draws: seq<nat>) returns (picks: seq<T>, consumed: nat)
    requires |c| > 0
    ensures consumed <= |draws|
    ensures picks == At(c, Picked(draws[..consumed], |c|))
    ensures |picks| == Min(5, |c|) || consumed == |draws|
    ensures consumed > 0 ==> |Picked(draws[..consumed - 1], |c|)| < Min(5, |c|)
  {
    ghost var indices: seq<nat> := [];
    ghost var limit := Min(5, |c|);
    picks := [];
    var usedIndices: set<nat> := {};
    consumed := 0;
    while |picks| < 5 && |picks| < |c| && consumed < |draws|
      invariant consumed <= |draws|
      invariant indices == Picked(draws[..consumed], |c|)
      invariant forall i :: i in usedIndices <==> i in indices
      invariant picks == At(c, indices)
      invariant |picks| <= limit
      invariant consumed > 0 ==> |Picked(draws[..consumed - 1], |c|)| < limit
      decreases |draws| - consumed
    {
      var randomIndex := draws[consumed] % |c|;
      PickedStep(draws, consumed, |c|);
      assert |indices| < limit;
      if randomIndex !in usedIndices {
        AtSnoc(c, indices, randomIndex);
        picks := picks + [c[randomIndex]];
        indices := indices + [randomIndex];
        usedIndices := usedIndices + {randomIndex};
      }
      consumed := consumed + 1;
    }
  }

  /** One more draw: its index is appended unless already picked. */
  lemma PickedStep(draws: seq<nat>, i: nat, n: nat)
    requires n > 0 && i < |draws|
    ensures var before, index := Picked(draws[..i], n), draws[i] % n;
      Picked(draws[..i + 1], n) == if index in before then before else before + [index]
  {
    assert draws[..i + 1][..i] == draws[..i];
  }

  /** The suggestions at one more index. */
  lemma AtSnoc<T>(c: seq<T>, indices: seq<nat>, i: nat)
    requires i < |c| && forall k :: 0 <= k < |indices| ==> indices[k] < |c|
    ensures At(c, indices + [i]) == At(c, indices) + [c[i]]
  {
  }

  /** A distinct list of indices below `n` has at most `n` of them. */
  lemma PickedBound(indices: seq<nat>, n: nat)
    requires Distinct(indices) && forall k :: 0 <= k < |indices| ==> indices[k] < n
    ensures |indices| <= n
  {
    var all := seq(n, i => i);
    assert forall x :: x in indices ==> x in all by {
      forall x | x in indices ensures x in all {
        assert all[x] == x;
      }
    }
    DistinctSubsetLength(indices, all);
  }

  // ---------------------------------------------------------------------------
  // getMockFeedback

  /** `Math.max(35, Math.min(98, baseScore + scoreAdjustment))`. */
  function NewScore(adjustment: int): (s: int)
    ensures 35 <= s <= 98
    ensures 35 < s < 98 ==> s == 65 + adjustment
  {
    Clamp(65 + adjustment, 35, 98)
  }

  /**
   * What `getMockFeedback` returns for a non-empty `text` once the selection
   * loop has spent the first `consumed` of the draws: the flat-bonus score
   * kept in [35, 98], the writing impression, the four canonical section
   * keys, and the candidates at the picked indices, five of them unless the
   * draws ran out.
   */
  ghost predicate AnalyzedAs(text: string, draws: seq<nat>, fb: Feedback, consumed: nat) {
    consumed <= |draws| &&
    fb.score == NewScore(ScoreAdjustment(Read(text), Flat)) &&
    fb.overallImpression == WritingImpression(Read(text)) &&
    HasCanonicalKeys(fb.sectionFeedback) && UniqueKeys(fb.sectionFeedback) &&
    (|fb.suggestions| == 5 || consumed == |draws|) &&
    fb.suggestions == SuggestionsFor(text, draws[..consumed])
  }

  /** `getMockFeedback(resumeText)`, with the draws of the selection loop passed in. */
  method GetMockFeedback(text: string, draws: seq<nat>) returns (fb: Feedback, consumed: nat)
    ensures 35 <= fb.score <= 98 && consumed <= |draws|
    ensures UniqueKeys(fb.sectionFeedback)
    ensures |text| == 0 ==> fb.score == 35 && consumed == 0
    ensures |text| == 0 ==> fb.overallImpression == EmptyImpression && fb.sectionFeedback == EmptySections
    ensures |text| == 0 ==> fb.suggestions == EmptySuggestions
    ensures |text| > 0 ==> AnalyzedAs(text, draws, fb, consumed)
  {
    if |text| > 0 {
      fb, consumed := AnalyzedFeedback(text, draws);
    } else {
      EmptySectionsContent();
      fb := Feedback(EmptyImpression, EmptySections, EmptySuggestions, NewScore(-30));
      consumed := 0;
    }
  }

  /** The branch of `getMockFeedback` for a non-empty text. */
  method AnalyzedFeedback(text: string, draws: seq<nat>) returns (fb: Feedback, consumed: nat)
    requires |text| > 0
    ensures 35 <= fb.score <= 98 && consumed <= |draws|
    ensures UniqueKeys(fb.sectionFeedback)
    ensures AnalyzedAs(text, draws, fb, consumed)
  {
    var impression, sections, adjustment := AnalyzeText(text, Flat);
    var candidates := Candidates(Read(text));
    var picks;
    picks, consumed := PickCandidates(candidates, draws);
    fb := Feedback(impression, sections, Render(picks), NewScore(adjustment));
  }

  /** The fixed suggestions for an empty text. */
  const EmptySuggestions: seq<string> := [
    "Upload your resume content to receive personalized feedback",
    "Ensure your resume includes clearly labeled sections for experience, skills, and education",
    "Use quantifiable achievements to demonstrate your impact in previous roles",
    "Include a concise professional summary that highlights your unique value proposition",
    "Structure your resume with consistent formatting and clear section headers"
  ]
}
