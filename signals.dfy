/**
 * The facts the feedback scorer reads off a résumé text: word and sentence
 * counts, the section names it mentions, quantifiable achievements, action
 * verbs, technical and soft-skill terms, and the one-off regular-expression
 * tests of the section rules. All three revisions of the scorer compute them
 * the same way.
 */
module Signals {
  import opened Text
  import opened Lists

  /** The section names tested with `\bname\b` (case-insensitive), in order. */
  const SectionNames: seq<string> := [
    "professional summary", "summary", "objective", "profile",
    "experience", "work experience", "employment history", "work history",
    "skills", "technical skills", "core competencies", "qualifications",
    "education", "academic background", "training",
    "projects", "portfolio", "achievements",
    "certifications", "licenses", "publications",
    "volunteering", "community service", "activities",
    "languages", "interests", "references"
  ]

  /** The sections that have a rule of their own and get no generic entry. */
  const RuledSections: seq<string> := [
    "professional summary", "summary", "objective", "profile", "experience", "work experience",
    "employment history", "skills", "technical skills", "education", "projects",
    "certifications", "licenses"
  ]

  const ActionVerbs: seq<string> := [
    "led", "developed", "managed", "created", "implemented", "designed", "achieved", "improved",
    "increased", "decreased", "reduced", "saved", "delivered", "launched", "built", "optimized",
    "transformed"
  ]

  /** The shorter verb list the suggestion prioritiser tests for. */
  const StrongVerbs: seq<string> := [
    "led", "developed", "managed", "created", "implemented", "designed", "achieved", "improved"
  ]

  const TechTerms: seq<string> := [
    "python", "javascript", "java", "react", "angular", "node", "aws", "cloud", "database",
    "sql", "api", "agile", "scrum"
  ]

  const SoftSkillTerms: seq<string> := [
    "communication", "leadership", "teamwork", "problem solving", "analytical",
    "time management", "creativity", "adaptability"
  ]

  /** The terms behind the late 'Technical Skills' entry: `TechTerms` without agile and scrum. */
  const TechKeywords: seq<string> := [
    "python", "javascript", "java", "react", "angular", "node", "aws", "cloud", "database",
    "sql", "api"
  ]

  // ---------------------------------------------------------------------------
  // Quantifiable achievements:
  // /\d+%|\$\d+|\d+ years|\d+ months|\d+ users|\d+ customers|\d+ projects/gi

  /** Length of the run of ASCII digits starting at `i`. */
  function DigitRun(text: string, i: nat): (n: nat)
    ensures i + n <= |text| || n == 0
    ensures forall k :: i <= k < i + n ==> IsDigit(text[k])
    decreases |text| - i
  {
    if i < |text| && IsDigit(text[i]) then 1 + DigitRun(text, i + 1) else 0
  }

  const QuantUnits: seq<string> := [" years", " months", " users", " customers", " projects"]

  /**
   * Length of the match of the quantifiable pattern at `i`, or 0. The digit
   * runs are greedy; backtracking into them can never help, because the
   * character after a shorter run is again a digit.
   */
  function QuantMatchAt(text: string, i: nat): (n: nat)
    ensures n > 0 ==> i + n <= |text|
  {
    var d := DigitRun(text, i);
    if d > 0 && i + d < |text| && text[i + d] == '%' then d + 1
    else if i < |text| && text[i] == '$' && DigitRun(text, i + 1) > 0 then 1 + DigitRun(text, i + 1)
    else if d > 0 && AltMatchAt(text, i + d, Literals(QuantUnits), false) > 0
    then d + AltMatchAt(text, i + d, Literals(QuantUnits), false)
    else 0
  }

  /** The number of global matches of the quantifiable pattern from `i` on. */
  function QuantCountFrom(text: string, i: nat): nat
    decreases |text| - i
  {
    if i >= |text| then 0
    else
      var n := QuantMatchAt(text, i);
      if n > 0 then 1 + QuantCountFrom(text, i + n) else QuantCountFrom(text, i + 1)
  }

  function QuantCount(text: string): nat {
    QuantCountFrom(text, 0)
  }

  lemma {:induction false} QuantCountFromPositive(text: string, i: nat, j: nat)
    requires i <= j < |text| && QuantMatchAt(text, j) > 0
    requires forall k :: i <= k < j ==> QuantMatchAt(text, k) == 0
    ensures QuantCountFrom(text, i) > 0
    decreases j - i
  {
    if i < j { QuantCountFromPositive(text, i + 1, j); }
  }

  /** `.test` of the quantifiable pattern: a match starts somewhere. */
  predicate HasQuantifiable(text: string) {
    exists j: nat :: j < |text| && QuantMatchAt(text, j) > 0
  }

  /** The non-global `.test` of the same pattern agrees with a positive count. */
  lemma {:induction false} QuantCountPositive(text: string, j: nat)
    requires j < |text| && QuantMatchAt(text, j) > 0
    ensures QuantCount(text) > 0
  {
    var first := FirstQuantMatch(text, 0, j);
    QuantCountFromPositive(text, 0, first);
  }

  lemma {:induction false} FirstQuantMatch(text: string, i: nat, j: nat) returns (first: nat)
    requires i <= j < |text| && QuantMatchAt(text, j) > 0
    ensures i <= first <= j && QuantMatchAt(text, first) > 0
    ensures forall k :: i <= k < first ==> QuantMatchAt(text, k) == 0
    decreases j - i
  {
    if QuantMatchAt(text, i) > 0 {
      first := i;
    } else {
      first := FirstQuantMatch(text, i + 1, j);
    }
  }

  // ---------------------------------------------------------------------------
  // Single tests used by the section rules and the suggestion prioritiser.

  function Pat(words: seq<string>): seq<Pattern> { Literals(words) }

  /** /value|contribute|expertise|specialize|experienced in/i on the first 500 characters. */
  predicate HasClearValue(text: string) {
    Test(Take(text, 500), Pat(["value", "contribute", "expertise", "specialize", "experienced in"]), false)
  }

  /** /degree|bachelor|master|phd|diploma|certificate/i */
  predicate HasDegreeMention(text: string) {
    Test(text, Pat(["degree", "bachelor", "master", "phd", "diploma", "certificate"]), false)
  }

  /** /20\d{2}|19\d{2}|graduated|completed/i */
  predicate HasDateMention(text: string) {
    Test(text, [[Ch('2'), Ch('0'), Digit, Digit], [Ch('1'), Ch('9'), Digit, Digit],
                Literal("graduated"), Literal("completed")], false)
  }

  /** /github|link|url|developed|built|created|team|solo/i */
  predicate HasDetailedProjects(text: string) {
    Test(text, Pat(["github", "link", "url", "developed", "built", "created", "team", "solo"]), false)
  }

  /** /202\d|2019|current|ongoing/i */
  predicate HasRecentCertification(text: string) {
    Test(text, [[Ch('2'), Ch('0'), Ch('2'), Digit], Literal("2019"), Literal("current"),
                Literal("ongoing")], false)
  }

  /** /\b(led|developed|managed|created|implemented|designed|achieved|improved)\b/gi */
  predicate HasStrongVerb(text: string) {
    Test(text, Pat(StrongVerbs), true)
  }

  /** /(linkedin\.com|linkedin profile)/i */
  predicate HasLinkedIn(text: string) {
    Test(text, Pat(["linkedin.com", "linkedin profile"]), false)
  }

  /** /\bproject(s)?\b/i: the optional `s` is tried first. */
  predicate MentionsProject(text: string) {
    Test(text, Pat(["projects", "project"]), true)
  }

  /** /\b(developer|engineer|programmer|coding|software|web|app)\b/i */
  predicate HasTechnicalRole(text: string) {
    Test(text, Pat(["developer", "engineer", "programmer", "coding", "software", "web", "app"]), true)
  }

  // ---------------------------------------------------------------------------
  // The counted signals.

  datatype ResumeSignals = ResumeSignals(
    wordCount: nat,
    sentenceCount: nat,
    sections: seq<string>,       // extractedSections, in the order of SectionNames
    quantifiables: nat,
    actionVerbs: nat,
    techTerms: seq<string>,      // foundTechTerms, in the order of TechTerms
    softSkills: seq<string>,     // foundSoftSkills, in the order of SoftSkillTerms
    hasClearValue: bool,
    hasDegree: bool,
    hasDate: bool,
    hasDetailedProjects: bool,
    hasRecentCertification: bool)

  /** The section names mentioned in `text` as whole words. */
  function DetectSections(text: string): (found: seq<string>)
    ensures forall s :: s in found <==> s in SectionNames && HasWholeWord(text, s)
  {
    Filter(SectionNames, s => HasWholeWord(text, s))
  }

  function FoundTerms(text: string, terms: seq<string>): (found: seq<string>)
    ensures forall t :: t in found <==> t in terms && ContainsCI(text, t)
    ensures |found| <= |terms|
  {
    Filter(terms, t => ContainsCI(text, t))
  }

  /** The found terms keep the order of a repeat-free term list. */
  lemma FoundTermsOrder(text: string, terms: seq<string>)
    ensures Distinct(terms) ==> InFirstOccurrenceOrder(FoundTerms(text, terms), terms)
  {
    if Distinct(terms) { FilterOrder(terms, t => ContainsCI(text, t)); }
  }

  function Read(text: string): ResumeSignals {
    ResumeSignals(
      WordCount(text),
      SentenceCount(text),
      DetectSections(text),
      QuantCount(text),
      CountMatches(text, Pat(ActionVerbs), true),
      FoundTerms(text, TechTerms),
      FoundTerms(text, SoftSkillTerms),
      HasClearValue(text),
      HasDegreeMention(text),
      HasDateMention(text),
      HasDetailedProjects(text),
      HasRecentCertification(text))
  }

  predicate HasSummarySection(sig: ResumeSignals) {
    "professional summary" in sig.sections || "summary" in sig.sections || "objective" in sig.sections
  }

  predicate HasExperienceSection(sig: ResumeSignals) {
    "experience" in sig.sections || "work experience" in sig.sections
    || "employment history" in sig.sections
  }

  predicate HasEducationSection(sig: ResumeSignals) {
    "education" in sig.sections || "academic background" in sig.sections
  }

  predicate HasCertificationSection(sig: ResumeSignals) {
    "certifications" in sig.sections || "licenses" in sig.sections
  }
}
