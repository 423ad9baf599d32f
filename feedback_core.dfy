/**
 * The part of `getMockFeedback` that is the same in all three revisions: the
 * writing tiers (length, sentence length, quantifiable achievements, action
 * verbs), the summary, experience and skills rules, the generic entries for
 * other detected sections, the "always have basic sections" fallbacks, and the
 * fixed feedback for an empty résumé.
 */
module FeedbackCore {
  import opened Text
  import opened Lists
  import opened Signals
  import opened Sections

  datatype Feedback = Feedback(
    overallImpression: string,
    sectionFeedback: Entries,
    suggestions: seq<string>,
    score: int)

  // ---------------------------------------------------------------------------
  // Writing tiers. Each tier rule has three branches and exactly one fires; a
  // branch appends a text to the impression and adds a delta to the score.
  // The text and the delta of a rule are given by two functions on the same
  // conditions.

  function LengthDelta(words: nat): (d: int)
    ensures d == -10 <==> words < 200
    ensures d == -5 <==> words > 700
    ensures d == 5 <==> 200 <= words <= 700
  {
    if words < 200 then -10 else if words > 700 then -5 else 5
  }

  function LengthText(words: nat): string {
    var n := NatToString(words);
    if words < 200 then BriefOpening + n + BriefClosing
    else if words > 700 then LongOpening + n + LongClosing
    else GoodLengthOpening + n + GoodLengthClosing
  }

  /** `Math.round(words / Math.max(1, sentences))`, rounding halves up. */
  function RoundedAverage(words: nat, sentences: nat): nat {
    var d := if sentences < 1 then 1 else sentences;
    (2 * words + d) / (2 * d)
  }

  /** The average `words / max(1, sentences)` compared against 25 and 8, in integers. */
  function SentenceDelta(words: nat, sentences: nat): (r: int)
    ensures var d := if sentences < 1 then 1 else sentences;
      (r == -5 <==> words > 25 * d)
      && (r == -3 <==> words < 8 * d)
      && (r == 3 <==> 8 * d <= words <= 25 * d)
  {
    var d := if sentences < 1 then 1 else sentences;
    if words > 25 * d then -5 else if words < 8 * d then -3 else 3
  }

  function SentenceText(words: nat, sentences: nat): string {
    var d := if sentences < 1 then 1 else sentences;
    var avg := NatToString(RoundedAverage(words, sentences));
    if words > 25 * d then LongSentencesOpening + avg + LongSentencesClosing
    else if words < 8 * d then ShortSentencesOpening + avg + ShortSentencesClosing
    else GoodSentencesText
  }

  function QuantDelta(q: nat): (d: int)
    ensures d == 10 <==> q > 5
    ensures d == 5 <==> 2 < q <= 5
    ensures d == -8 <==> q <= 2
  {
    if q > 5 then 10 else if q > 2 then 5 else -8
  }

  function QuantText(q: nat): string {
    var n := NatToString(q);
    if q > 5 then ManyQuantOpening + n + ManyQuantClosing
    else if q > 2 then SomeQuantOpening + n + SomeQuantClosing
    else FewQuantText
  }

  function VerbDelta(v: nat): (d: int)
    ensures d == 8 <==> v > 15
    ensures d == 4 <==> 8 < v <= 15
    ensures d == -7 <==> v <= 8
  {
    if v > 15 then 8 else if v > 8 then 4 else -7
  }

  function VerbText(v: nat): string {
    if v > 15 then StrongVerbsText else if v > 8 then AdequateVerbsText else FewVerbsText
  }

  lemma QuantDeltaMonotone(a: nat, b: nat)
    requires a <= b
    ensures QuantDelta(a) <= QuantDelta(b)
  {
  }

  lemma VerbDeltaMonotone(a: nat, b: nat)
    requires a <= b
    ensures VerbDelta(a) <= VerbDelta(b)
  {
  }

  /** The total of the four writing tiers. */
  function WritingDelta(sig: ResumeSignals): (d: int)
    ensures -30 <= d <= 26
  {
    LengthDelta(sig.wordCount) + SentenceDelta(sig.wordCount, sig.sentenceCount)
    + QuantDelta(sig.quantifiables) + VerbDelta(sig.actionVerbs)
  }

  function WritingImpression(sig: ResumeSignals): string {
    LengthText(sig.wordCount) + SentenceText(sig.wordCount, sig.sentenceCount)
    + QuantText(sig.quantifiables) + VerbText(sig.actionVerbs)
  }

  /** Applies the four tiers in order, accumulating the impression and the adjustment. */
  method ApplyWritingRules(sig: ResumeSignals) returns (impression: string, adjustment: int)
    ensures adjustment == WritingDelta(sig)
    ensures impression == WritingImpression(sig)
    ensures -30 <= adjustment <= 26
  {
    impression := LengthText(sig.wordCount);
    adjustment := LengthDelta(sig.wordCount);
    impression := impression + SentenceText(sig.wordCount, sig.sentenceCount);
    adjustment := adjustment + SentenceDelta(sig.wordCount, sig.sentenceCount);
    impression := impression + QuantText(sig.quantifiables);
    adjustment := adjustment + QuantDelta(sig.quantifiables);
    impression := impression + VerbText(sig.actionVerbs);
    adjustment := adjustment + VerbDelta(sig.actionVerbs);
  }

  // ---------------------------------------------------------------------------
  // Summary, experience and skills.

  function SummaryDelta(sig: ResumeSignals): (d: int)
    ensures d == 5 <==> HasSummarySection(sig) && sig.hasClearValue
    ensures d == -3 <==> HasSummarySection(sig) && !sig.hasClearValue
    ensures d == -5 <==> !HasSummarySection(sig)
  {
    if HasSummarySection(sig) then (if sig.hasClearValue then 5 else -3) else -5
  }

  function SummaryText(sig: ResumeSignals): (t: string)
    ensures t != ""
  {
    if HasSummarySection(sig) then
      if sig.hasClearValue then ClearSummaryText else GenericSummaryText
    else MissingSummaryText
  }

  function ExperienceDelta(sig: ResumeSignals): (d: int)
    ensures d == 8 <==> HasExperienceSection(sig) && sig.quantifiables > 3
    ensures d == -5 <==> HasExperienceSection(sig) && sig.quantifiables <= 3
    ensures d == -10 <==> !HasExperienceSection(sig)
  {
    if HasExperienceSection(sig) then (if sig.quantifiables > 3 then 8 else -5) else -10
  }

  function ExperienceText(sig: ResumeSignals): (t: string)
    ensures t != ""
  {
    if HasExperienceSection(sig) then
      if sig.quantifiables > 3 then
        MeasuredExperienceOpening + NatToString(sig.quantifiables) + MeasuredExperienceClosing
      else UnmeasuredExperienceText
    else MissingExperienceText
  }

  function TechSkillsDelta(tech: seq<string>): (d: int)
    ensures d == 7 <==> |tech| >= 4
    ensures d == 3 <==> 0 < |tech| < 4
    ensures d == -5 <==> |tech| == 0
  {
    if |tech| >= 4 then 7 else if |tech| > 0 then 3 else -5
  }

  function TechSkillsText(tech: seq<string>): string {
    if |tech| >= 4 then
      WideTechOpening + Join(Take(tech, 3), ", ") + ", and " + NatToString(|tech| - 3) + " more. "
    else if |tech| > 0 then SomeTechOpening + Join(tech, ", ") + SomeTechClosing
    else NoTechText
  }

  function SoftSkillsDelta(soft: seq<string>): (d: int)
    ensures d == 5 <==> |soft| >= 3
    ensures d == 2 <==> 0 < |soft| < 3
    ensures d == -3 <==> |soft| == 0
  {
    if |soft| >= 3 then 5 else if |soft| > 0 then 2 else -3
  }

  function SoftSkillsText(soft: seq<string>): (t: string)
    ensures t != ""
  {
    if |soft| >= 3 then WideSoftOpening + Join(Take(soft, 3), ", ") + "."
    else if |soft| > 0 then "You mention " + Join(soft, ", ") + SomeSoftClosing
    else NoSoftText
  }

  /** Both parts when any technical or soft skill is found, the missing-skills text otherwise. */
  function SkillsDelta(sig: ResumeSignals): (d: int)
    ensures |sig.techTerms| == 0 && |sig.softSkills| == 0 ==> d == -8
    ensures |sig.techTerms| > 0 || |sig.softSkills| > 0 ==>
      d == TechSkillsDelta(sig.techTerms) + SoftSkillsDelta(sig.softSkills)
    ensures -8 <= d <= 12
  {
    if |sig.techTerms| > 0 || |sig.softSkills| > 0 then
      TechSkillsDelta(sig.techTerms) + SoftSkillsDelta(sig.softSkills)
    else -8
  }

  function SkillsText(sig: ResumeSignals): (t: string)
    ensures t != ""
  {
    if |sig.techTerms| > 0 || |sig.softSkills| > 0 then
      TechSkillsText(sig.techTerms) + SoftSkillsText(sig.softSkills)
    else MissingSkillsText
  }

  function CoreSectionsDelta(sig: ResumeSignals): (d: int)
    ensures -23 <= d <= 25
  {
    SummaryDelta(sig) + ExperienceDelta(sig) + SkillsDelta(sig)
  }

  /** Sets the three core section entries on `e`, in order, accumulating their adjustments. */
  method ApplyCoreSectionRules(sig: ResumeSignals, e: Entries) returns (r: Entries, adjustment: int)
    ensures adjustment == CoreSectionsDelta(sig)
    ensures Lookup(r, SummaryKey) == SummaryText(sig)
    ensures Lookup(r, ExperienceKey) == ExperienceText(sig)
    ensures Lookup(r, SkillsKey) == SkillsText(sig)
    ensures forall k :: k != SummaryKey && k != ExperienceKey && k != SkillsKey ==> Lookup(r, k) == Lookup(e, k)
    ensures UniqueKeys(e) ==> UniqueKeys(r)
    ensures -23 <= adjustment <= 25
  {
    r := Put(e, SummaryKey, SummaryText(sig));
    adjustment := SummaryDelta(sig);
    r := Put(r, ExperienceKey, ExperienceText(sig));
    adjustment := adjustment + ExperienceDelta(sig);
    r := Put(r, SkillsKey, SkillsText(sig));
    adjustment := adjustment + SkillsDelta(sig);
  }

  // ---------------------------------------------------------------------------
  // Education, projects and certifications: the one place the revisions differ.

  /**
   * The bonus scheme of the education, projects and certifications rules:
   * `Graded` in openaiUtils.ts, `Flat` in the improved and new revisions.
   */
  datatype BonusScheme = Graded | Flat

  function EducationDelta(sig: ResumeSignals, scheme: BonusScheme): (d: int)
    ensures d == -5 <==> !HasEducationSection(sig)
    ensures scheme == Graded ==>
      && (d == 5 <==> HasEducationSection(sig) && sig.hasDegree && sig.hasDate)
      && (d == 2 <==> HasEducationSection(sig) && sig.hasDegree && !sig.hasDate)
      && (d == 0 <==> HasEducationSection(sig) && !sig.hasDegree)
    ensures scheme == Flat ==>
      && (d == 4 <==> HasEducationSection(sig) && sig.hasDegree)
      && (d == 0 <==> HasEducationSection(sig) && !sig.hasDegree)
  {
    if !HasEducationSection(sig) then -5
    else if !sig.hasDegree then 0
    else match scheme
      case Graded => if sig.hasDate then 5 else 2
      case Flat => 4
  }

  function EducationText(sig: ResumeSignals, scheme: BonusScheme): (t: string)
    ensures t != ""
  {
    if !HasEducationSection(sig) then MissingEducationText
    else if !sig.hasDegree then BareEducationText
    else match scheme
      case Graded => if sig.hasDate then DatedEducationText else UndatedEducationText
      case Flat => DetailedEducationText
  }

  /** The 'Projects' delta, counted when "projects" is among the detected sections. */
  function ProjectsDelta(sig: ResumeSignals, scheme: BonusScheme): (d: int)
    ensures scheme == Graded ==> (d == 7 <==> sig.hasDetailedProjects) && (d == 3 <==> !sig.hasDetailedProjects)
    ensures scheme == Flat ==> d == 5
  {
    match scheme
    case Graded => if sig.hasDetailedProjects then 7 else 3
    case Flat => 5
  }

  function ProjectsText(sig: ResumeSignals, scheme: BonusScheme): string {
    match scheme
    case Graded => if sig.hasDetailedProjects then DetailedProjectsText else PlainProjectsText
    case Flat => FlatProjectsText
  }

  /** The 'Certifications' delta, counted when certifications or licenses are detected. */
  function CertificationsDelta(sig: ResumeSignals, scheme: BonusScheme): (d: int)
    ensures scheme == Graded ==>
      (d == 5 <==> sig.hasRecentCertification) && (d == 2 <==> !sig.hasRecentCertification)
    ensures scheme == Flat ==> d == 4
  {
    match scheme
    case Graded => if sig.hasRecentCertification then 5 else 2
    case Flat => 4
  }

  function CertificationsText(sig: ResumeSignals, scheme: BonusScheme): string {
    match scheme
    case Graded => if sig.hasRecentCertification then RecentCertificationsText else OlderCertificationsText
    case Flat => FlatCertificationsText
  }

  function SectionBonus(sig: ResumeSignals, scheme: BonusScheme): (b: int)
    ensures -5 <= b <= 17
    ensures scheme == Flat ==> -5 <= b <= 13
  {
    EducationDelta(sig, scheme)
    + (if "projects" in sig.sections then ProjectsDelta(sig, scheme) else 0)
    + (if HasCertificationSection(sig) then CertificationsDelta(sig, scheme) else 0)
  }

  /**
   * The adjustment a non-empty résumé earns: the writing tiers, the three core
   * section rules and the section bonuses. The fallback block adds nothing,
   * because it never fires (see `AnalyzeResume`).
   */
  function ScoreAdjustment(sig: ResumeSignals, scheme: BonusScheme): (a: int)
    ensures -58 <= a <= 68
    ensures scheme == Flat ==> -58 <= a <= 64
  {
    WritingDelta(sig) + CoreSectionsDelta(sig) + SectionBonus(sig, scheme)
  }

  /** Sets the education, projects and certifications entries and returns their bonus. */
  method ApplySectionBonuses(sig: ResumeSignals, scheme: BonusScheme, e: Entries)
    returns (r: Entries, bonus: int)
    ensures bonus == SectionBonus(sig, scheme)
    ensures Lookup(r, EducationKey) == EducationText(sig, scheme)
    ensures forall k :: k != EducationKey && k != ProjectsKey && k != CertificationsKey ==> Lookup(r, k) == Lookup(e, k)
    ensures "projects" in sig.sections ==> Lookup(r, ProjectsKey) == ProjectsText(sig, scheme)
    ensures HasCertificationSection(sig) ==> Lookup(r, CertificationsKey) == CertificationsText(sig, scheme)
    ensures UniqueKeys(e) ==> UniqueKeys(r)
  {
    r := Put(e, EducationKey, EducationText(sig, scheme));
    bonus := EducationDelta(sig, scheme);
    if "projects" in sig.sections {
      r := Put(r, ProjectsKey, ProjectsText(sig, scheme));
      bonus := bonus + ProjectsDelta(sig, scheme);
    }
    if HasCertificationSection(sig) {
      r := Put(r, CertificationsKey, CertificationsText(sig, scheme));
      bonus := bonus + CertificationsDelta(sig, scheme);
    }
  }

  // ---------------------------------------------------------------------------
  // Generic entries for the other detected sections.

  function OtherSectionText(name: string): string {
    "This " + name + OtherSectionClosing
  }

  /**
   * For each detected section without a rule of its own, in order, adds an
   * entry under its title-cased name unless some key already equals that
   * name up to case.
   */
  method AddOtherSections(e: Entries, extracted: seq<string>) returns (r: Entries)
    ensures AddedFor(e, r, extracted)
    ensures forall k :: HasKey(e, k) ==> Lookup(r, k) == Lookup(e, k)
    ensures UniqueKeys(e) ==> UniqueKeys(r)
  {
    r := e;
    for i := 0 to |extracted|
      invariant AddedFor(e, r, extracted[..i])
      invariant forall k :: HasKey(e, k) ==> Lookup(r, k) == Lookup(e, k)
      invariant UniqueKeys(e) ==> UniqueKeys(r)
    {
      var section := extracted[i];
      assert extracted[..i + 1] == extracted[..i] + [section];
      var before := r;
      if section !in RuledSections {
        var name := TitleCase(section);
        if !HasKeyCI(r, name) {
          NotCIKeyIsNew(e, r, name);
          r := Put(r, name, OtherSectionText(name));
        }
      }
      AddedStep(e, before, extracted[..i], section);
    }
    assert extracted[..|extracted|] == extracted;
  }

  /**
   * `r` extends `e` by one generic entry per unruled name in `names` that no
   * earlier key matched up to case, and every unruled name is now matched.
   */
  predicate AddedFor(e: Entries, r: Entries, names: seq<string>) {
    && |r| >= |e| && r[..|e|] == e
    && (forall j :: |e| <= j < |r| ==> GenericEntryFor(r[j], names))
    && FreshFrom(r, |e|)
    && (forall s :: s in names && s !in RuledSections ==> HasKeyCI(r, TitleCase(s)))
  }

  /** `x` is the generic entry of some unruled name of `names`. */
  predicate GenericEntryFor(x: (string, string), names: seq<string>) {
    exists s :: s in names && s !in RuledSections && x == (TitleCase(s), OtherSectionText(TitleCase(s)))
  }

  /** One iteration of the loop of `AddOtherSections` keeps `AddedFor`. */
  lemma AddedStep(e: Entries, r: Entries, names: seq<string>, section: string)
    requires AddedFor(e, r, names)
    ensures section in RuledSections || HasKeyCI(r, TitleCase(section)) ==>
      AddedFor(e, r, names + [section])
    ensures section !in RuledSections && !HasKeyCI(r, TitleCase(section)) ==>
      AddedFor(e, r + [(TitleCase(section), OtherSectionText(TitleCase(section)))], names + [section])
  {
    var name := TitleCase(section);
    var text := OtherSectionText(name);
    var r' := r + [(name, text)];
    if section !in RuledSections && !HasKeyCI(r, name) {
      assert r'[..|r|] == r;
      assert r'[..|e|] == r[..|e|];
      forall j | |e| <= j < |r'| ensures GenericEntryFor(r'[j], names + [section]) {
        if j < |r| {
          assert GenericEntryFor(r[j], names);
          var s :| s in names && s !in RuledSections && r[j] == (TitleCase(s), OtherSectionText(TitleCase(s)));
          assert s in names + [section] && r'[j] == r[j];
        } else {
          assert section in names + [section] && r'[j] == (name, text);
        }
      }
      FreshFromAppend(r, |e|, name, text);
      HasKeyCIAppend(r, name, text);
    }
  }

  /** A name no key matches up to case is not a key, neither of the entries nor of their prefix `e`. */
  lemma NotCIKeyIsNew(e: Entries, r: Entries, name: string)
    requires |r| >= |e| && r[..|e|] == e && !HasKeyCI(r, name)
    ensures !HasKey(r, name)
    ensures forall k :: HasKey(e, k) ==> HasKey(r, k)
  {
    forall k | HasKey(e, k) ensures HasKey(r, k) {
      var j :| 0 <= j < |e| && Keys(e)[j] == k;
      assert r[j] == e[j];
      assert Keys(r)[j] == k;
    }
  }

  // ---------------------------------------------------------------------------
  // The fallback block ("ensure we always have basic sections").

  /** The keys under which each basic section counts as present. */
  const SummaryNames: seq<string> := [SummaryKey, "Summary", "Objective"]
  const ExperienceNames: seq<string> := [ExperienceKey, "Experience", "Employment History"]
  const SkillsNames: seq<string> := [SkillsKey, "Technical Skills", "Core Competencies"]
  const EducationNames: seq<string> := [EducationKey]

  /** Some key of `names` has a truthy entry. */
  predicate AnyHas(e: Entries, names: seq<string>) {
    exists n :: n in names && Has(e, n)
  }

  /** Sets `key` to `text`, at a cost of `penalty`, unless one of `names` already has a truthy entry. */
  method FillIfMissing(e: Entries, names: seq<string>, key: string, text: string, penalty: int)
    returns (r: Entries, adjustment: int)
    requires key in names && text != ""
    ensures AnyHas(e, names) ==> r == e && adjustment == 0
    ensures !AnyHas(e, names) ==> r == Put(e, key, text) && adjustment == -penalty
    ensures AnyHas(r, names)
    ensures forall k :: Has(e, k) ==> Lookup(r, k) == Lookup(e, k)
    ensures forall ns :: AnyHas(e, ns) ==> AnyHas(r, ns)
    ensures UniqueKeys(e) ==> UniqueKeys(r)
  {
    if AnyHas(e, names) {
      r, adjustment := e, 0;
    } else {
      r, adjustment := Put(e, key, text), -penalty;
      assert Has(r, key);
      forall ns | AnyHas(e, ns) ensures AnyHas(r, ns) {
        var n :| n in ns && Has(e, n);
        assert Has(r, n);
      }
    }
  }

  /**
   * The block that gives every analysed résumé a summary, experience, skills
   * and education entry. Each fallback fires only when none of its keys is
   * truthy; after the section rules have run it never fires.
   */
  method EnsureBasicSections(e: Entries) returns (r: Entries, adjustment: int)
    ensures HasCanonicalKeys(e) ==> r == e && adjustment == 0
    ensures AnyHas(r, SummaryNames) && AnyHas(r, ExperienceNames) && AnyHas(r, SkillsNames)
    ensures Has(r, EducationKey)
    ensures forall k :: Has(e, k) ==> Lookup(r, k) == Lookup(e, k)
    ensures UniqueKeys(e) ==> UniqueKeys(r)
    ensures -18 <= adjustment <= 0
  {
    var r1, r2, r3, d1, d2, d3, d4;
    if HasCanonicalKeys(e) {
      assert SummaryNames[0] == SummaryKey && ExperienceNames[0] == ExperienceKey;
      assert SkillsNames[0] == SkillsKey && EducationNames[0] == EducationKey;
      assert AnyHas(e, SummaryNames) && AnyHas(e, ExperienceNames);
      assert AnyHas(e, SkillsNames) && AnyHas(e, EducationNames);
    }
    r1, d1 := FillIfMissing(e, SummaryNames, SummaryKey, FallbackSummaryText, 5);
    r2, d2 := FillIfMissing(r1, ExperienceNames, ExperienceKey, FallbackExperienceText, 5);
    r3, d3 := FillIfMissing(r2, SkillsNames, SkillsKey, FallbackSkillsText, 5);
    r, d4 := FillIfMissing(r3, EducationNames, EducationKey, FallbackEducationText, 3);
    adjustment := d1 + d2 + d3 + d4;
    forall k | Has(e, k) ensures Lookup(r, k) == Lookup(e, k) {
      assert Lookup(r1, k) == Lookup(e, k);
      assert Lookup(r2, k) == Lookup(r1, k);
      assert Lookup(r3, k) == Lookup(r2, k);
    }
    var n :| n in EducationNames && Has(r, n);
  }

  // ---------------------------------------------------------------------------
  // The analysis of a non-empty résumé, up to the score.

  /**
   * The `if (resumeText)` branch of `getMockFeedback` up to the fallback
   * block, on the signals read off the text: the impression from the writing
   * tiers and the section entries in the order the rules set them.
   */
  method AnalyzeResume(sig: ResumeSignals, scheme: BonusScheme) returns (impression: string, sections: Entries, adjustment: int)
    ensures impression == WritingImpression(sig)
    ensures adjustment == ScoreAdjustment(sig, scheme)
    ensures HasCanonicalKeys(sections) && UniqueKeys(sections)
  {
    var writing, core, bonus, fallback;
    impression, writing := ApplyWritingRules(sig);
    sections, core := ApplyCoreSectionRules(sig, []);
    sections, bonus := ApplySectionBonuses(sig, scheme, sections);
    CanonicalKeysSet(sig, scheme, sections);
    ghost var ruled := sections;
    sections := AddOtherSections(sections, sig.sections);
    KeptCanonicalKeys(ruled, sections);
    sections, fallback := EnsureBasicSections(sections);
    adjustment := writing + core + bonus + fallback;
  }

  /** After the section rules, all four canonical keys hold their rules' texts. */
  lemma CanonicalKeysSet(sig: ResumeSignals, scheme: BonusScheme, e: Entries)
    requires Lookup(e, SummaryKey) == SummaryText(sig)
    requires Lookup(e, ExperienceKey) == ExperienceText(sig)
    requires Lookup(e, SkillsKey) == SkillsText(sig)
    requires Lookup(e, EducationKey) == EducationText(sig, scheme)
    ensures HasCanonicalKeys(e)
  {
  }

  /** Entries whose lookups are preserved keep the canonical keys truthy. */
  lemma KeptCanonicalKeys(e: Entries, r: Entries)
    requires HasCanonicalKeys(e)
    requires forall k :: HasKey(e, k) ==> Lookup(r, k) == Lookup(e, k)
    ensures HasCanonicalKeys(r)
    ensures forall k :: k in [SummaryKey, ExperienceKey, SkillsKey, EducationKey] ==> Lookup(r, k) == Lookup(e, k)
  {
    forall k | k in [SummaryKey, ExperienceKey, SkillsKey, EducationKey] ensures Lookup(r, k) == Lookup(e, k) {
      LookupPresent(e, k);
    }
  }

  // ---------------------------------------------------------------------------
  // The analysis of a text, empty or not.

  /** The `if (resumeText) … else …` block: the impression, the entries and the adjustment. */
  method AnalyzeText(text: string, scheme: BonusScheme) returns (impression: string, sections: Entries, adjustment: int)
    ensures text == "" ==> impression == EmptyImpression && sections == EmptySections && adjustment == -30
    ensures text != "" ==> impression == WritingImpression(Read(text))
    ensures text != "" ==> adjustment == ScoreAdjustment(Read(text), scheme)
    ensures text != "" ==> HasCanonicalKeys(sections)
    ensures UniqueKeys(sections)
    ensures -58 <= adjustment <= 68
  {
    if text != "" {
      impression, sections, adjustment := AnalyzeResume(Read(text), scheme);
    } else {
      impression, sections, adjustment := EmptyImpression, EmptySections, -30;
      EmptySectionsContent();
    }
  }

  /** The late 'Technical Skills' entry for the tech keywords the text mentions. */
  function TechnicalSkillsText(found: seq<string>): string {
    TechMentionOpening + Join(found, ", ") + TechMentionClosing
  }

  /**
   * The tail of `getMockFeedback`: unless the text is empty or a 'Technical
   * Skills' entry is already truthy, an entry naming the tech keywords the
   * text mentions, if it mentions any.
   */
  method TechnicalSkillsTail(text: string, e: Entries) returns (r: Entries)
    ensures text == "" || Has(e, TechnicalSkillsKey) || |FoundTerms(text, TechKeywords)| == 0 ==> r == e
    ensures text != "" && !Has(e, TechnicalSkillsKey) && |FoundTerms(text, TechKeywords)| > 0 ==>
      r == Put(e, TechnicalSkillsKey, TechnicalSkillsText(FoundTerms(text, TechKeywords)))
    ensures text != "" && |FoundTerms(text, TechKeywords)| > 0 ==> Has(r, TechnicalSkillsKey)
    ensures HasCanonicalKeys(e) ==> HasCanonicalKeys(r)
    ensures UniqueKeys(e) ==> UniqueKeys(r)
  {
    r := e;
    if text != "" && !Has(e, TechnicalSkillsKey) {
      var found := FoundTerms(text, TechKeywords);
      r := AddTechnicalSkills(e, found);
    }
  }

  /** `sections['Technical Skills'] = …` when some tech keyword was found. */
  method AddTechnicalSkills(e: Entries, found: seq<string>) returns (r: Entries)
    ensures |found| == 0 ==> r == e
    ensures |found| > 0 ==> r == Put(e, TechnicalSkillsKey, TechnicalSkillsText(found))
    ensures |found| > 0 ==> Has(r, TechnicalSkillsKey)
    ensures HasCanonicalKeys(e) ==> HasCanonicalKeys(r)
    ensures UniqueKeys(e) ==> UniqueKeys(r)
  {
    r := e;
    if |found| > 0 {
      r := Put(e, TechnicalSkillsKey, TechnicalSkillsText(found));
    }
  }

  // ---------------------------------------------------------------------------
  // The empty résumé.

  const EmptyImpression := "This appears to be an empty resume. Please upload your resume content for a detailed analysis."
  const NoContentText := "No content was found to analyze. Please provide your resume text to receive specific feedback."
  const Placeholder := "Unable to analyze - no content provided"

  /** The entries set, in this order, for an empty résumé. */
  const EmptySections: Entries := [
    ("Content", NoContentText),
    (SummaryKey, Placeholder), (ExperienceKey, Placeholder),
    (SkillsKey, Placeholder), (EducationKey, Placeholder)
  ]

  lemma EmptySectionsContent()
    ensures UniqueKeys(EmptySections)
    ensures Lookup(EmptySections, "Content") == NoContentText
    ensures Lookup(EmptySections, SummaryKey) == Placeholder
    ensures Lookup(EmptySections, ExperienceKey) == Placeholder
    ensures Lookup(EmptySections, SkillsKey) == Placeholder
    ensures Lookup(EmptySections, EducationKey) == Placeholder
    ensures HasCanonicalKeys(EmptySections)
  {
    var e := EmptySections;
    assert Keys(e) == ["Content", SummaryKey, ExperienceKey, SkillsKey, EducationKey];
    var e4, e3, e2, e1 := e[..4], e[..3], e[..2], e[..1];
    assert e4[..3] == e3 && e3[..2] == e2 && e2[..1] == e1 && e1[..0] == [];
    forall k | k in ["Content", SummaryKey, ExperienceKey, SkillsKey]
      ensures Lookup(e, k) == Lookup(e4, k)
    {
      assert e[4].0 == EducationKey;
    }
    forall k | k in ["Content", SummaryKey, ExperienceKey]
      ensures Lookup(e4, k) == Lookup(e3, k)
    {
      assert e4[3].0 == SkillsKey;
    }
    forall k | k in ["Content", SummaryKey]
      ensures Lookup(e3, k) == Lookup(e2, k)
    {
      assert e3[2].0 == ExperienceKey;
    }
    assert Lookup(e2, "Content") == Lookup(e1, "Content");
  }

  // ---------------------------------------------------------------------------
  // Message texts.

  const BriefOpening := "Your resume appears quite brief at only about "
  const BriefClosing := " words, which may not provide enough detail for recruiters. "
  const LongOpening := "At over "
  const LongClosing := " words, your resume is quite detailed, though possibly too lengthy for quick scanning. "
  const GoodLengthOpening := "Your resume is a good length at approximately "
  const GoodLengthClosing := " words, making it substantial yet scannable. "
  const LongSentencesOpening := "Your sentences tend to be lengthy (averaging "
  const LongSentencesClosing := " words), which can make reading more difficult. "
  const ShortSentencesOpening := "Your writing style uses quite short sentences (averaging "
  const ShortSentencesClosing := " words), which may appear fragmented. "
  const GoodSentencesText := "Your writing style has good sentence structure with appropriate length. "
  const ManyQuantOpening := "Your resume effectively includes "
  const ManyQuantClosing := " quantifiable achievements, which strengthens your impact. "
  const SomeQuantOpening := "You've included "
  const SomeQuantClosing := " quantifiable results, which is helpful, though more would strengthen your impact. "
  const FewQuantText := "Your resume lacks sufficient quantifiable achievements and metrics to demonstrate your impact. "
  const StrongVerbsText := "You use strong action verbs throughout your descriptions, creating dynamic and engaging content. "
  const AdequateVerbsText := "Your use of action verbs is adequate, though increasing their frequency would strengthen your descriptions. "
  const FewVerbsText := "Your descriptions could benefit from more powerful action verbs to convey your capabilities and achievements. "
  const ClearSummaryText := "Your summary effectively communicates your value proposition and key expertise. Consider adding 1-2 more specific achievements to make it even stronger."
  const GenericSummaryText := "Your summary would benefit from a clearer articulation of your unique value proposition and specific expertise. Currently, it's somewhat generic and doesn't immediately grab attention."
  const MissingSummaryText := "Your resume appears to be missing a clear professional summary or objective section. Adding a concise 3-4 line summary would help recruiters quickly understand your value proposition."
  const MeasuredExperienceOpening := "Your experience section effectively uses quantifiable achievements ("
  const MeasuredExperienceClosing := " instances noted) which demonstrates your impact. Continue using the STAR method to showcase results."
  const UnmeasuredExperienceText := "While your experience section outlines your responsibilities, it would be significantly stronger with more measurable outcomes and specific accomplishments. Try adding metrics like percentages, dollar amounts, or other quantifiable results."
  const MissingExperienceText := "The work experience section appears to be missing or not clearly defined. This is a critical section that should highlight your relevant roles, responsibilities, and especially your achievements."
  const WideTechOpening := "Good range of technical skills including "
  const SomeTechOpening := "You mention some technical skills like "
  const SomeTechClosing := ", but consider expanding this list. "
  const NoTechText := "Your resume could benefit from more specific technical skills relevant to your field. "
  const WideSoftOpening := "You effectively highlight soft skills such as "
  const SomeSoftClosing := " as soft skills, but should include more to show well-roundedness."
  const NoSoftText := "Consider adding relevant soft skills to complement your technical abilities."
  const MissingSkillsText := "Your resume lacks a clear skills section or doesn't highlight specific competencies. Adding a well-organized skills section would help recruiters quickly identify your capabilities."
  const OtherSectionClosing := " section adds dimension to your profile. Consider connecting these elements more explicitly to your professional value proposition."
  const FallbackSummaryText := "Adding a concise professional summary would help hiring managers quickly understand your value proposition and key qualifications."
  const FallbackExperienceText := "Your experience section should be the focal point of your resume, highlighting your achievements, not just responsibilities."
  const FallbackSkillsText := "A dedicated skills section would help highlight your technical and professional capabilities in an easily scannable format."
  const FallbackEducationText := "Including your educational background provides completeness to your professional story, even if your experience is more relevant."
  const MissingEducationText := "Your resume appears to be missing an education section. Even with extensive experience, including your educational background provides a complete picture."
  const BareEducationText := "Your education section could be enhanced with more details about your degrees, relevant coursework, or academic achievements."
  const DatedEducationText := "Your education section is clearly presented with both degree and date information. Consider adding any relevant coursework or academic achievements that relate to your target role."
  const UndatedEducationText := "Your education section mentions your degree(s), but would benefit from clear graduation dates for better context."
  const DetailedEducationText := "Your education section is clearly presented with necessary details. Consider adding any relevant coursework or academic achievements that relate to your target role."
  const DetailedProjectsText := "Your projects section effectively showcases practical application of your skills with good detail and context. Continue highlighting the technologies used and measurable outcomes for each project."
  const PlainProjectsText := "Including a projects section demonstrates initiative, but try adding more details about technologies used and quantifiable results for each project."
  const FlatProjectsText := "Including a projects section demonstrates initiative and practical application of your skills. Make sure each project highlights specific technologies used and measurable outcomes."
  const RecentCertificationsText := "Your recent certifications add credibility to your qualifications and show commitment to ongoing professional development. Well done."
  const OlderCertificationsText := "Your certifications add credibility to your qualifications. Consider updating with more recent certifications relevant to your target roles."
  const FlatCertificationsText := "Your certifications add credibility to your qualifications. Keep these updated and ensure they're relevant to your target roles."
  const TechMentionOpening := "Good mention of "
  const TechMentionClosing := ", but consider organizing these by proficiency level and adding more context about how you've applied them in your work."
}
