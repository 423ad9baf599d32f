# Résumé feedback generator: a Dafny model of its analysis core

The application reads a résumé as plain text and produces four things:

- **Feedback**: an overall impression, one feedback entry per section and a list of suggestions with a
  score. When no OpenAI key is configured, or the call fails, this comes from `getMockFeedback`.
- **Job match**: a comparison of the résumé with a job description (`getMockJobMatchAnalysis`).
- **ATS check**: a simulated applicant-tracking-system check (`ATSSimulator`).
- **Skill analytics**: skill and experience statistics (`ResumeAnalytics`).

`src/utils/openaiUtils.ts` is the revision the application imports. Two more revisions differ in how they score and
choose suggestions:

- `openaiUtils.improved.ts` draws its suggestions at random and leaves out the date and hash variance;
- `openaiUtils.new.ts` builds twelve suggestions from the content and draws five of them.

This project models all three revisions, the ATS check and the skill analytics.

Modules, one concept each:

| module | file | what it holds |
|---|---|---|
| `Text` | text.dfy | JavaScript's `\s`, `\w` and `\b`; ASCII case folding; the case-insensitive literal alternations the code builds its regular expressions from; `match`/`test` with `g` and without; `split`/`trim`/`join`; decimal numerals |
| `Lists`, `Numbers` | lists.dfy | `filter`, `slice`, `[...new Set(s)]` and `splice`; a stable `sort` by key; `Math.min`/`max` clamps |
| `Hash` | hash.dfy | `hashString`: 32-bit wrap-around written out as ToInt32, proved equal to the exact polynomial hash reduced to 32 bits |
| `Sections` | sections.dfy | the section-feedback object, an insertion-ordered list of key/value pairs; `sections[k] = v` is `Put` |
| `Signals` | signals.dfy | what `getMockFeedback` reads off the text: word and sentence counts, sections found, quantifiable results, action verbs, terms, and the yes/no patterns |
| `Suggestions` | suggestions.dfy | `moveToTop` over a mutable suggestion list (a class), the content checks that prioritise the pool, and the invariant of the first-picks loops |
| `FeedbackCore` | feedback_core.dfy | the score tiers and section rules all three revisions share, with their two education/projects/certifications schemes |
| `Engine`, `EngineImproved`, `EngineNew` | engine*.dfy | `getMockFeedback` and the suggestion selection of each revision |
| `JobMatch`, `JobMatchMain`, `JobMatchImproved`, `JobMatchNew` | jobmatch*.dfy | keyword extraction, selection, missing keywords, match and relevance scores, and the improvement list of each revision |
| `Ats` | ats.dfy | the twelve keyword checks, the five formatting checks, the score and the recommendations |
| `Analytics` | analytics.dfy | `extractSkills` and `extractExperienceMetrics` |

Inputs the code takes from its environment are parameters:

- today's `toDateString()`: `today`;
- the day of the month: `dayOfMonth`;
- each `Math.floor(Math.random() * n)`: `draw % n` for a draw `draw: nat`. A loop that retries until it
  finds an unused index consumes a finite sequence `draws`, and its contract says that it finished or that
  the draws ran out;
- each comparator `() => Math.random() - 0.5`: a sort by an arbitrary rank `string -> int`;
- each `Math.random()` compared with a threshold: an arbitrary `coin`;
- the value `Math.random()` itself: a real in [0, 1).

## Model

| member | source | states |
|---|---|---|
| `Hash.ToInt32` | src/utils/openaiUtils.ts:630 | the result of `hash & hash` is the signed 32-bit integer congruent to its argument modulo 2^32 |
| `Hash.ToInt32Congruent` | src/utils/openaiUtils.ts:629-630 | congruent values modulo 2^32 have the same 32-bit image |
| `Hash.Hash` | src/utils/openaiUtils.ts:623-634 | the hash of a string is at most 2^31 (the absolute value of the most negative 32-bit integer), and the empty string hashes to 0 |
| `Hash.Wrapped` | src/utils/openaiUtils.ts:630 | a value differs from its 32-bit image by a multiple of 2^32 |
| `Hash.StepArithmetic` | src/utils/openaiUtils.ts:629 | the shift-and-subtract step on 32-bit images is congruent to multiplying the exact value by 31 and adding the character |
| `Hash.StepCongruent` | src/utils/openaiUtils.ts:627-631 | one loop step on the running 32-bit value gives the 32-bit image of the exact polynomial of the longer prefix |
| `Hash.HashString` | src/utils/openaiUtils.ts:623-634 | the loop returns the absolute value of the 32-bit image of the polynomial hash with base 31, so it is at most 2^31, and 0 for "" |
| `Sections.Keys` | src/utils/openaiUtils.ts:231 | `Object.keys(sections)`: one key per entry, in insertion order |
| `Sections.Put` | src/utils/openaiUtils.ts:122 | after `sections[k] = v`, k reads v and every other key reads as before. An existing key keeps its place; a new key is appended and keys stay unique |
| `Sections.PutLookup` | src/utils/openaiUtils.ts:122 | overwriting the entry of an existing key in place changes the lookup of that key only |
| `Sections.LookupUnchanged` | src/utils/openaiUtils.ts:122 | changing only the value under one key leaves every other key's lookup unchanged |
| `Sections.LookupPresent` | src/utils/openaiUtils.ts:240 | a truthy `sections[k]` means k is a key |
| `Sections.HasKeyCIAppend` | src/utils/openaiUtils.ts:231-235 | appending an entry keeps every case-insensitive key match and makes its own key match |
| `Sections.FreshFromAppend` | src/utils/openaiUtils.ts:231-235 | appending a key that no earlier key matches up to case keeps the entries from a point on free of such repeats |
| `Signals.QuantMatchAt` | src/utils/openaiUtils.ts:66 | a match of the quantifiable pattern (a number followed by `%`, ` years`, ` months`, ` users`, ` customers` or ` projects`, or `$` and a number) at a position lies inside the text |
| `Signals.QuantCountFromPositive` | src/utils/openaiUtils.ts:66-67 | when the first match at or after i starts at j, the global match count from i is positive |
| `Signals.QuantCountPositive` | src/utils/openaiUtils.ts:335 | if the non-global `test` of the quantifiable pattern succeeds, the `match` count is positive |
| `Signals.FirstQuantMatch` | src/utils/openaiUtils.ts:66-67 | when a match starts somewhere, there is a leftmost one with no match before it |
| `Signals.DetectSections` | src/utils/openaiUtils.ts:47-63 | a section name is in `extractedSections` exactly when `\bname\b` occurs in the text up to case |
| `Signals.FoundTerms` | src/utils/openaiUtils.ts:151-152 | a term is kept exactly when it is in the list and the lower-cased text contains it; at most as many as listed |
| `Suggestions.AllSuggestionsDistinct` | src/utils/openaiUtils.ts:273-294 | the pool holds twenty different suggestions |
| `Suggestions.FirstStartingWith` | src/utils/openaiUtils.ts:387-389 | `findIndex` returns the first entry whose lower case starts with the marker's, or the length when none does |
| `Suggestions.FirstIsUnique` | src/utils/openaiUtils.ts:387-389 | any index with those two properties is the `findIndex` result |
| `Suggestions.MovedToTopPermutation` | src/utils/openaiUtils.ts:386-395 | `moveToTop` only reorders: same length, same multiset |
| `Suggestions.MovedToTopPositions` | src/utils/openaiUtils.ts:386-395 | the first matching entry moves to the front and those before it move down by one. The others stay put, and with no match the list is unchanged |
| `Suggestions.MovedToTopUnchanged` | src/utils/openaiUtils.ts:391 | when no entry starts with the marker the list is unchanged |
| `Suggestions.SuggestionList.constructor` | src/utils/openaiUtils.ts:332 | the copy `[...allSuggestions]` starts with the given items |
| `Suggestions.SuggestionList.Splice` | src/utils/openaiUtils.ts:371 | `splice(index, 1)` returns the entry at index and removes exactly it |
| `Suggestions.SuggestionList.MoveToTop` | src/utils/openaiUtils.ts:386-395 | the in-place `findIndex`/`splice`/`unshift` leaves the list equal to `MovedToTop` of the old list |
| `Suggestions.MarkerSteps` | src/utils/openaiUtils.ts:334-359 | the content checks call `moveToTop` at most six times |
| `Suggestions.Then` | src/utils/openaiUtils.ts:334-359 | a check adds its marker exactly when it fires |
| `Suggestions.MarkersFor` | src/utils/openaiUtils.ts:334-359 | the markers a text triggers number at most six |
| `Suggestions.MoveAllToTopPermutation` | src/utils/openaiUtils.ts:334-359 | any sequence of `moveToTop` calls only reorders the pool |
| `Suggestions.MoveAllToTopLast` | src/utils/openaiUtils.ts:357-358 | the last marker with a matching entry puts such an entry first, so 'Add specific technical skills…' leads for technical résumés |
| `Suggestions.Prioritized` | src/utils/openaiUtils.ts:332-359 | the prioritised list is a permutation of the pool |
| `Suggestions.Prioritize` | src/utils/openaiUtils.ts:332-359 | the in-place calls leave the list equal to `Prioritized(text, pool)` |
| `Suggestions.MoveMarker` | src/utils/openaiUtils.ts:337 | one in-place `moveToTop` call extends the recorded marker sequence by one marker |
| `Suggestions.SpliceKeepsAmongFirst` | src/utils/openaiUtils.ts:371 | splicing one entry moves each later entry one place up |
| `Suggestions.SpreadStep` | src/utils/openaiUtils.ts:366-373 | picking and splicing out an index below 8 keeps the first-loop invariant. The picks and the rest are a permutation of the prioritised list, and the k-th pick lies among its first 8 + k entries |
| `Suggestions.SpreadStart` | src/utils/openaiUtils.ts:361-362 | the first-loop invariant holds before the first pick |
| `Suggestions.PickUnlessUsed` | src/utils/openaiUtils.ts:368-372 | a used index changes nothing; an unused one is picked, spliced out and recorded, and the invariant is kept |
| `FeedbackCore.LengthDelta` | src/utils/openaiUtils.ts:74-83 | −10 exactly under 200 words, −5 exactly over 700, +5 exactly in between |
| `FeedbackCore.SentenceDelta` | src/utils/openaiUtils.ts:85-94 | −5 exactly when the average sentence exceeds 25 words, −3 exactly under 8, +3 exactly in between, with the divisor `Math.max(1, sentences)` |
| `FeedbackCore.QuantDelta` | src/utils/openaiUtils.ts:96-105 | +10 exactly above 5 quantifiable results, +5 exactly for 3 to 5, −8 exactly for at most 2 |
| `FeedbackCore.VerbDelta` | src/utils/openaiUtils.ts:107-116 | +8 exactly above 15 action verbs, +4 exactly for 9 to 15, −7 exactly for at most 8 |
| `FeedbackCore.QuantDeltaMonotone` | src/utils/openaiUtils.ts:96-105 | more quantifiable results never lower the delta |
| `FeedbackCore.VerbDeltaMonotone` | src/utils/openaiUtils.ts:107-116 | more action verbs never lower the delta |
| `FeedbackCore.WritingDelta` | src/utils/openaiUtils.ts:74-116 | the four writing tiers together add between −30 and +26 |
| `FeedbackCore.ApplyWritingRules` | src/utils/openaiUtils.ts:74-116 | the sequential `+=`/`-=` updates add up to `WritingDelta` and build up `WritingImpression` |
| `FeedbackCore.SummaryDelta` | src/utils/openaiUtils.ts:119-131 | +5 exactly with a summary section that states its value, −3 exactly with one that does not, −5 exactly without one |
| `FeedbackCore.SummaryText` | src/utils/openaiUtils.ts:119-131 | the summary entry is never empty, so the key is truthy |
| `FeedbackCore.ExperienceDelta` | src/utils/openaiUtils.ts:134-145 | +8 exactly with an experience section and more than 3 quantifiable results, −5 with at most 3, −10 without the section |
| `FeedbackCore.ExperienceText` | src/utils/openaiUtils.ts:134-145 | the experience entry is never empty |
| `FeedbackCore.TechSkillsDelta` | src/utils/openaiUtils.ts:156-165 | +7 exactly for 4 or more technical terms, +3 for 1 to 3, −5 for none |
| `FeedbackCore.SoftSkillsDelta` | src/utils/openaiUtils.ts:167-176 | +5 exactly for 3 or more soft skills, +2 for 1 or 2, −3 for none |
| `FeedbackCore.SoftSkillsText` | src/utils/openaiUtils.ts:167-176 | the soft-skills half of the entry is never empty |
| `FeedbackCore.SkillsDelta` | src/utils/openaiUtils.ts:154-182 | −8 when no term at all is found; otherwise the sum of the two halves. Between −8 and +12 |
| `FeedbackCore.SkillsText` | src/utils/openaiUtils.ts:154-182 | the skills entry is never empty |
| `FeedbackCore.CoreSectionsDelta` | src/utils/openaiUtils.ts:119-182 | the three core section rules add between −23 and +25 |
| `FeedbackCore.ApplyCoreSectionRules` | src/utils/openaiUtils.ts:119-182 | the summary, experience and skills keys read their rules' texts and every other key reads as before. The adjustment is `CoreSectionsDelta`, in [−23, 25] |
| `FeedbackCore.EducationDelta` | src/utils/openaiUtils.ts:185-202 | −5 exactly without an education section. Graded (this revision): +5 with a degree and a date, +2 with a degree alone, 0 otherwise. Flat (lines 179-191 of the other two): +4 with a degree, 0 otherwise |
| `FeedbackCore.EducationText` | src/utils/openaiUtils.ts:185-202 | the education entry is never empty |
| `FeedbackCore.ProjectsDelta` | src/utils/openaiUtils.ts:205-214 | graded: +7 exactly for detailed projects, +3 otherwise; flat: +5 |
| `FeedbackCore.CertificationsDelta` | src/utils/openaiUtils.ts:216-225 | graded: +5 exactly for a recent certification, +2 otherwise; flat: +4 |
| `FeedbackCore.SectionBonus` | src/utils/openaiUtils.ts:185-225 | education, projects and certifications add between −5 and +17 (+13 flat) |
| `FeedbackCore.ScoreAdjustment` | src/utils/openaiUtils.ts:74-258 | a non-empty résumé's adjustment lies in [−58, 68] ([−58, 64] flat) |
| `FeedbackCore.ApplySectionBonuses` | src/utils/openaiUtils.ts:185-225 | the education key always, and the projects and certifications keys when their sections were found, read their rules' texts; other keys are unchanged and the bonus is `SectionBonus` |
| `FeedbackCore.AddOtherSections` | src/utils/openaiUtils.ts:228-237 | every detected section without a rule of its own gets one generic entry under its title-cased name unless a key already matches that name up to case. Earlier entries are untouched and keys stay unique |
| `FeedbackCore.AddedStep` | src/utils/openaiUtils.ts:229-235 | one iteration of that loop keeps the property: it skips a ruled or already-matched name and otherwise appends its entry |
| `FeedbackCore.NotCIKeyIsNew` | src/utils/openaiUtils.ts:231-234 | a name no key matches up to case is no key, so setting it appends |
| `FeedbackCore.FillIfMissing` | src/utils/openaiUtils.ts:240-243 | a fallback entry is set at a cost of its penalty exactly when none of its keys is truthy. Afterwards one is truthy and truthy entries are untouched |
| `FeedbackCore.EnsureBasicSections` | src/utils/openaiUtils.ts:240-258 | a summary, experience, skills and education entry are truthy afterwards, and the block is a no-op after the rules have set the four canonical keys |
| `FeedbackCore.AnalyzeResume` | src/utils/openaiUtils.ts:39-258 | for a non-empty text: the impression is the four writing texts in order, the adjustment is `ScoreAdjustment`, and the four canonical keys are truthy and unique. The fallback block is dead code |
| `FeedbackCore.CanonicalKeysSet` | src/utils/openaiUtils.ts:119-202 | once the four rules have run, the four canonical keys are truthy |
| `FeedbackCore.KeptCanonicalKeys` | src/utils/openaiUtils.ts:228-258 | steps that keep every existing key's value keep the canonical keys and their texts |
| `FeedbackCore.AnalyzeText` | src/utils/openaiUtils.ts:39-270 | empty text: the empty-résumé impression, the five placeholder entries and −30. Otherwise the analysed impression, the canonical keys and an adjustment in [−58, 68] |
| `FeedbackCore.TechnicalSkillsTail` | src/utils/openaiUtils.ts:307-314 | a 'Technical Skills' entry naming the found keywords is added exactly when the text is non-empty, no such entry is truthy and some keyword is found; nothing else changes |
| `FeedbackCore.AddTechnicalSkills` | src/utils/openaiUtils.ts:311-313 | with keywords found, the entry is set and truthy; without any, nothing changes |
| `FeedbackCore.EmptySectionsContent` | src/utils/openaiUtils.ts:262-269 | the empty-résumé entries: the 'Content' notice and the placeholder under each canonical key |
| `Engine.UniqueVariance` | src/utils/openaiUtils.ts:34-35 | the hash variance lies in [−5, 4] |
| `Engine.ContentVariance` | src/utils/openaiUtils.ts:302 | the content variance lies in [−2, 3], and is 0 for an empty text |
| `Engine.RandomFactor` | src/utils/openaiUtils.ts:297 | the random factor lies in [−2, 2] |
| `Engine.DateVariance` | src/utils/openaiUtils.ts:301 | the date variance lies in [−2, 2] |
| `Engine.FinalScore` | src/utils/openaiUtils.ts:304 | the score is the sum of the base, all variances and the adjustment, clamped to [30, 98] |
| `Engine.SpreadPicks` | src/utils/openaiUtils.ts:366-373 | the first loop picks one to three entries: the first at `fingerprint % min(8, length)`, each pick among the first 8 + k of the list, picks plus rest a permutation |
| `Engine.FillPicks` | src/utils/openaiUtils.ts:376-380 | the second loop extends the picks to `min(5, picked + remaining)`; it keeps the earlier picks and moves entries only from the list to the picks |
| `Engine.SelectRelevantSuggestions` | src/utils/openaiUtils.ts:325-383 | `min(5, length)` suggestions, taken from the pool without repeats, none twice if the pool has none twice. The first is the prioritised entry at `hash % min(8, length)`, and the first one to three come from the prioritised front |
| `Engine.PickSuggestions` | src/utils/openaiUtils.ts:319 | on the fixed pool: five different suggestions of the pool |
| `Engine.GetMockFeedback` | src/utils/openaiUtils.ts:21-322 | score = clamp(65 + variances + adjustment, 30, 98), at most 43 for an empty text. Empty text: the empty impression and entries. Otherwise: the analysed impression and the canonical keys, plus 'Technical Skills' when a tech keyword is mentioned. Always five distinct pool suggestions |
| `EngineImproved.DefaultSuggestionsDistinct` | src/utils/openaiUtils.improved.ts:370-378 | the default list holds five different suggestions |
| `EngineImproved.DrawSpread` | src/utils/openaiUtils.improved.ts:338-345 | up to three picks, fewer only when the draws or the list ran out. The first is at `draws[0] % min(8, length)`, and the first-loop invariant holds |
| `EngineImproved.DrawFill` | src/utils/openaiUtils.improved.ts:348-352 | the fill loop adds one pick per draw up to five, keeps the earlier picks and moves entries from the list only |
| `EngineImproved.SelectSuggestionsFrom` | src/utils/openaiUtils.improved.ts:276-355 | `min(5, length)` suggestions unless the draws ran out; drawn from the pool without repeats, following the drawing scheme over the prioritised list |
| `EngineImproved.SelectSuggestions` | src/utils/openaiUtils.improved.ts:276-355 | at most five different suggestions of the fixed pool, five unless the draws ran out |
| `EngineImproved.AnalyzedFeedback` | src/utils/openaiUtils.improved.ts:33-255 | non-empty text: score = clamp(65 + flat adjustment + random factor, 30, 98), with the analysed impression, the canonical keys and 'Technical Skills' when a tech keyword is found. Up to five distinct pool suggestions |
| `EngineImproved.GetMockFeedback` | src/utils/openaiUtils.improved.ts:21-273 | as `AnalyzedFeedback` for a non-empty text; for an empty one the score is 0, with the empty impression, the empty entries and the five default suggestions |
| `EngineNew.Candidates` | src/utils/openaiUtils.new.ts:241-292 | the twelve candidates: each of the content-dependent ones is chosen exactly when its condition holds (fewer than 5 quantifiable results, fewer than 10 verbs, …), and the fixed ones stand at their places |
| `EngineNew.CandidatesOf` | src/utils/openaiUtils.new.ts:241-292 | twelve candidates, the k-th of the kind that stands at place k |
| `EngineNew.CandidatesDistinct` | src/utils/openaiUtils.new.ts:241-292 | the twelve candidates are all different |
| `EngineNew.Render` | src/utils/openaiUtils.new.ts:241-292 | each candidate becomes its wording, in order |
| `EngineNew.Picked` | src/utils/openaiUtils.new.ts:295-302 | the indices the draws pick: distinct, in range, no more than the draws |
| `EngineNew.PickedIndices` | src/utils/openaiUtils.new.ts:296-302 | an index is picked exactly when some draw lands on it |
| `EngineNew.PickedFirst` | src/utils/openaiUtils.new.ts:297-301 | the first draw always picks its index |
| `EngineNew.PickedStep` | src/utils/openaiUtils.new.ts:297-301 | one more draw appends its index exactly when it was not picked before |
| `EngineNew.PickedBound` | src/utils/openaiUtils.new.ts:296 | distinct indices below n number at most n |
| `EngineNew.At` | src/utils/openaiUtils.new.ts:299 | `possibleSuggestions[randomIndex]` for each picked index, in order |
| `EngineNew.Suggested` | src/utils/openaiUtils.new.ts:295-302 | the candidates at the picked indices, distinct when the indices are |
| `EngineNew.PickCandidates` | src/utils/openaiUtils.new.ts:295-302 | the loop returns the candidates at `Picked` of the draws it used, `min(5, 12)` of them unless the draws ran out. It stops as soon as five are picked |
| `EngineNew.NewScore` | src/utils/openaiUtils.new.ts:325 | the score lies in [35, 98] and is 65 + adjustment strictly inside it |
| `EngineNew.AnalyzedFeedback` | src/utils/openaiUtils.new.ts:36-305 | non-empty text: the flat-bonus score, the analysed impression, the canonical keys, and the wordings of the candidates the used draws pick (five unless the draws ran out) |
| `EngineNew.GetMockFeedback` | src/utils/openaiUtils.new.ts:21-333 | score in [35, 98]. Empty text: score 35, the empty impression and entries, and the five fixed suggestions. Otherwise as `AnalyzedFeedback` |
| `JobMatch.KeywordsDistinct` | src/utils/openaiUtils.ts:405-422 | the vocabulary holds 61 different keywords |
| `JobMatch.TechGroupDistinct` | src/utils/openaiUtils.ts:406-409 | the Tech/Development group has no repeats |
| `JobMatch.OtherGroupsDistinct` | src/utils/openaiUtils.ts:411-421 | the other three groups have no repeats |
| `JobMatch.TechBusinessDisjoint` | src/utils/openaiUtils.ts:406-413 | Tech and Business share no keyword |
| `JobMatch.TechDesignDisjoint` | src/utils/openaiUtils.ts:406-417 | Tech and Design share no keyword |
| `JobMatch.TechProfessionalDisjoint` | src/utils/openaiUtils.ts:406-421 | Tech and Professional share no keyword |
| `JobMatch.OtherGroupsDisjoint` | src/utils/openaiUtils.ts:411-421 | Business, Design and Professional share no keyword |
| `JobMatch.TerminatorAt` | src/utils/openaiUtils.ts:435-439 | the terminator group matches exactly at a dot, a comma, or white space followed by "and" or "or" up to case |
| `JobMatch.LazyCapture` | src/utils/openaiUtils.ts:435-439 | the lazy group `([\w\s\-\/]+?)` captures the shortest run of phrase characters that a terminator follows |
| `JobMatch.Qualifying` | src/utils/openaiUtils.ts:444-448 | only phrases longer than 3 and shorter than 30 characters survive, trimmed |
| `JobMatch.Extracted` | src/utils/openaiUtils.ts:425-450 | nothing for a blank job description. Otherwise it starts with exactly the vocabulary keywords the description mentions up to case, in vocabulary order for a repeat-free vocabulary, and after them come exactly the qualifying phrases the experience patterns capture |
| `JobMatch.SelectKeywords` | src/utils/openaiUtils.ts:453-458 | at most ten distinct extracted keywords, all of them when fewer than ten differ and ten whenever one is left out. When nothing was extracted, the first ten of the vocabulary |
| `JobMatch.SelectKeywordsOrder` | src/utils/openaiUtils.ts:453-454 | the extracted selection is the first ten distinct keywords: in first-occurrence order, and each kept keyword first occurs before every extracted keyword left out |
| `JobMatch.Keys` | src/utils/openaiUtils.ts:461-477 | the keywords of the matches, in order |
| `JobMatch.Matched` | src/utils/openaiUtils.ts:461-477 | one match per selected keyword, in order, with its found flag |
| `JobMatch.FoundCount` | src/utils/openaiUtils.ts:493 | at most one per match |
| `JobMatch.Missing` | src/utils/openaiUtils.ts:479-481 | exactly the keywords of the matches not found; with the found ones they make up all matches |
| `JobMatch.Additional` | src/utils/openaiUtils.ts:484-489 | up to three unselected vocabulary keywords, sorted by the comparator key, three when at least three are unselected |
| `JobMatch.AdditionalFacts` | src/utils/openaiUtils.ts:484-488 | a sorted copy of the unselected keywords holds only unselected vocabulary keywords, without repeats |
| `JobMatch.AllMissingDistinct` | src/utils/openaiUtils.ts:491 | `[...missingKeywords, ...additionalMissing]` names no keyword twice |
| `JobMatch.Percent` | src/utils/openaiUtils.ts:494 | the found percentage is at most 100, exactly 100 when all are found, 0 when none is |
| `JobMatch.PercentBounds` | src/utils/openaiUtils.ts:494 | the integer quotient behind it is at most 100, and 100 exactly when all are found |
| `JobMatch.OverallMatch` | src/utils/openaiUtils.ts:497-498 | the offset match is clamped to [30, 95] |
| `JobMatch.OverallMatchMonotone` | src/utils/openaiUtils.ts:493-498 | more keywords found never lower the match |
| `JobMatch.LengthFactor` | src/utils/openaiUtils.ts:552 | the length factor lies in [0, 15] and is 10 without a résumé |
| `JobMatch.Relevance` | src/utils/openaiUtils.ts:549-560 | the relevance lies in [40, 98] |
| `JobMatch.RelevanceMonotone` | src/utils/openaiUtils.ts:549-560 | a higher match or variance, or a longer non-empty résumé, never lowers the relevance |
| `JobMatch.GeneralSuggestionsDistinct` | src/utils/openaiUtils.ts:519-530 | ten different general suggestions |
| `JobMatch.CompletedFacts` | src/utils/openaiUtils.ts:533-546 | on at least five distinct suggestions, completing keeps the list and adds distinct pool entries until there are five |
| `JobMatch.NextEntry` | src/utils/openaiUtils.ts:534-544 | each round appends a pool entry not yet listed: the hashed one, or the alternative among the unused |
| `JobMatch.CompleteImprovements` | src/utils/openaiUtils.ts:514-546 | the loop returns the completion of `[first]`: five distinct improvements, `first` at the head and pool entries after it |
| `JobMatch.Assess` | src/utils/openaiUtils.ts:453-498 | the steps every revision shares. It reorders the vocabulary only when nothing was extracted, selects, flags, lists the missing keywords and the additional ones, and computes the match in [30, 95]. Matches and missing keywords are well formed |
| `JobMatch.AssessOrdered` | src/utils/openaiUtils.ts:461-498 | the same once the vocabulary is ordered and the flags are given |
| `JobMatch.ReorderedWithin` | src/utils/openaiUtils.ts:455-458 | reordering the vocabulary keeps its keywords, each once |
| `JobMatch.ListedWithin` | src/utils/openaiUtils.ts:479-491 | the listing property carries over to any larger vocabulary |
| `JobMatchMain.NamedMissing` | src/utils/openaiUtils.ts:503-508 | the first improvement names the missing keyword at `hash % length`, plus the next one when `hash % 3 != 0` and it exists; none when nothing is missing |
| `JobMatchMain.AnalyzeHashed` | src/utils/openaiUtils.ts:453-561 | on any distinct vocabulary and pool, the hash decides every choice as `HashedAs` says, and the result is well formed |
| `JobMatchMain.GetMockJobMatchAnalysis` | src/utils/openaiUtils.ts:399-562 | the matches and missing list are well formed, match in [30, 95], relevance in [40, 98]. The selection comes from the extracted keywords or ten vocabulary keywords, and the hash of résumé, description and date decides every choice (order, flags, offset, improvements) |
| `JobMatchImproved.AnalyzeShuffled` | src/utils/openaiUtils.improved.ts:431-528 | on any distinct vocabulary and pool, the random orders and coins decide selection and missing keywords, and the content hash decides offset, variance and improvements |
| `JobMatchImproved.GetMockJobMatchAnalysis` | src/utils/openaiUtils.improved.ts:381-529 | well formed with both scores in range. The first improvement names the first two missing keywords, then distinct general suggestions complete the list to five (stride 1, the first unused on a collision) |
| `JobMatchNew.DrawImprovements` | src/utils/openaiUtils.new.ts:452-457 | the loop returns one to five distinct improvements, `first` at the head and pool entries after it, five unless the draws ran out; it agrees with the reference `Drawn` |
| `JobMatchNew.AnalyzeRandom` | src/utils/openaiUtils.new.ts:386-472 | on any distinct vocabulary and pool, the draws decide offset, improvements and relevance as `RandomAs` says |
| `JobMatchNew.GetMockJobMatchAnalysis` | src/utils/openaiUtils.new.ts:336-472 | well formed with both scores in range; the offset is `draw % 15 − 7` and the variance is `noise · 15` |
| `Ats.KeywordResults` | src/components/ATSSimulator.tsx:64-70 | twelve results in keyword order, each found exactly when `\bkeyword\b` occurs up to case |
| `Ats.FoundCount` | src/components/ATSSimulator.tsx:82 | all are found exactly when the count equals the number of results |
| `Ats.MissingKeywords` | src/components/ATSSimulator.tsx:90-92 | exactly the keywords not found; with the found ones they make up all results |
| `Ats.EnDashRangeMissedAsWritten` | src/components/ATSSimulator.tsx:43 | "2019–2021" with a real en dash is not a date under the separators as written, and is one under the intended ones |
| `Ats.NoSeparatorAt` | src/components/ATSSimulator.tsx:43 | a character unlike the first of every separator starts no separator |
| `Ats.NotContained` | src/components/ATSSimulator.tsx:43 | a text without letters contains no "present", "current" or "now" |
| `Ats.EnDashRangeMatched` | src/components/ATSSimulator.tsx:43 | under the intended separators, every year range joined by an en dash counts as a date |
| `Ats.NextBullet` | src/components/ATSSimulator.tsx:25 | the leftmost bullet match at or after a position, or the end |
| `Ats.StatefulBulletTest` | src/components/ATSSimulator.tsx:25 | `test` on the global bullet pattern from `lastIndex`: on a match, `lastIndex` moves past it; otherwise it resets to 0. A match means the text has a bullet |
| `Ats.BulletPattern.constructor` | src/components/ATSSimulator.tsx:25 | a fresh regular expression literal starts with `lastIndex` 0 |
| `Ats.BulletPattern.Test` | src/components/ATSSimulator.tsx:74 | `check.regex.test(resumeText)` on the shared pattern object reads and updates `lastIndex` as `StatefulBulletTest` says |
| `Ats.FreshBulletTest` | src/components/ATSSimulator.tsx:25 | from `lastIndex` 0 the test succeeds exactly when the text has a bullet |
| `Ats.SecondAnalysisMissesBullet` | src/components/ATSSimulator.tsx:74 | on "• x" the first analysis finds the bullet and leaves `lastIndex` at 2, and the second then misses it |
| `Ats.FormattingResults` | src/components/ATSSimulator.tsx:73-79 | five results in check order, each passed exactly when the intended pattern matches, negated for the two negative checks. The date check uses a real en dash and the bullet check starts from a fresh `lastIndex` (see Findings) |
| `Ats.PassedCount` | src/components/ATSSimulator.tsx:83 | all pass exactly when the count equals the number of checks |
| `Ats.DashedTableFails` | src/components/ATSSimulator.tsx:19 | a text holding a bar, a space, three hyphens, a space and a bar fails the 'Complex tables' check |
| `Ats.DashedRuleAt` | src/components/ATSSimulator.tsx:19 | those seven characters match the table-rule pattern: a bar, optional spaces, hyphens, optional spaces, a bar |
| `Ats.OverallScore` | src/components/ATSSimulator.tsx:82-84 | the rounded score lies in [0, 100], within a half of `10·found/3 + 12·passed`, and is 100 exactly when all twelve are found and all five pass |
| `Ats.OverallScoreMonotone` | src/components/ATSSimulator.tsx:82-84 | more keywords found or checks passed never lower the score |
| `Ats.FailedChecks` | src/components/ATSSimulator.tsx:99-100 | exactly the failed checks; with the passed ones they make up all checks |
| `Ats.Messages` | src/components/ATSSimulator.tsx:101-103 | one message per failed check |
| `Ats.PassedCountSnoc` | src/components/ATSSimulator.tsx:83 | one more check adds one to the count exactly when it passed |
| `Ats.FailedMessagesStep` | src/components/ATSSimulator.tsx:99-103 | one more check adds its message exactly when it failed |
| `Ats.BuildRecommendations` | src/components/ATSSimulator.tsx:87-109 | the pushes give the header line when a keyword is missing, then the failed checks' messages in order, then the four tips |
| `Ats.PushTips` | src/components/ATSSimulator.tsx:106-109 | the four tips are appended in order |
| `Ats.FinalRecommendations` | src/components/ATSSimulator.tsx:115 | the first five distinct recommendations: at most five, distinct, in first-occurrence order, and each kept one first occurs before every one left out. It keeps all of them when fewer than five differ, and always keeps the first |
| `Ats.NotHeaderLines` | src/components/ATSSimulator.tsx:99-109 | no message or tip starts like the header line |
| `Ats.HeaderFirst` | src/components/ATSSimulator.tsx:94-115 | the first recommendation is the header line exactly when some keyword is missing |
| `Ats.AnalyzeAts` | src/components/ATSSimulator.tsx:62-116 | the result's parts are as above, with the intended date and bullet patterns, and one to five distinct recommendations. The score is 100 exactly when every keyword is found and every check passes |
| `Analytics.VocabulariesDistinct` | src/components/ResumeAnalytics.tsx:23-47 | no skill is listed twice, within a vocabulary or across the three |
| `Analytics.GroupsDistinct` | src/components/ResumeAnalytics.tsx:23-47 | each of the seven source groups is free of repeats |
| `Analytics.GroupsDisjoint` | src/components/ResumeAnalytics.tsx:23-47 | the seven groups share no skill |
| `Analytics.SkillSource` | src/components/ResumeAnalytics.tsx:91 | a skill becomes one atom per character: unescaped `.` is any character, and for soft skills the first `-` becomes `[\s-]` (line 104) |
| `Analytics.Names` | src/components/ResumeAnalytics.tsx:135 | the names of the items, in order |
| `Analytics.Scanned` | src/components/ResumeAnalytics.tsx:90-100 | one scan adds at most one item per skill of its vocabulary |
| `Analytics.ScannedFacts` | src/components/ResumeAnalytics.tsx:90-126 | each scanned item has its category, its number of mentions as a count of at least one, and a vocabulary name. A skill is scanned exactly when it is mentioned; names are distinct for a distinct vocabulary |
| `Analytics.ScannedLast` | src/components/ResumeAnalytics.tsx:90-100 | extending the vocabulary by one skill appends its item exactly when it is mentioned |
| `Analytics.ScannedItems` | src/components/ResumeAnalytics.tsx:92-98 | every item of a scan has category, count and name as mentioned |
| `Analytics.ScannedComplete` | src/components/ResumeAnalytics.tsx:93 | a vocabulary skill is scanned exactly when it has a mention |
| `Analytics.ScannedDistinct` | src/components/ResumeAnalytics.tsx:90-100 | a scan of a distinct vocabulary has distinct names |
| `Analytics.AllScannedFacts` | src/components/ResumeAnalytics.tsx:90-126 | after the three scans every item belongs to its own category's vocabulary with its count of mentions, and no name occurs twice |
| `Analytics.ThreeScansFacts` | src/components/ResumeAnalytics.tsx:90-126 | the same for any three vocabularies without common or repeated skills |
| `Analytics.DistinctSlices` | src/components/ResumeAnalytics.tsx:23-47 | the parts of a repeat-free concatenation are repeat-free and pairwise disjoint |
| `Analytics.NamesInDisjoint` | src/components/ResumeAnalytics.tsx:90-126 | items from disjoint vocabularies, each part with distinct names, have distinct names together |
| `Analytics.DefaultItem` | src/components/ResumeAnalytics.tsx:136-140 | the default at index i carries the i-th default name, count 5 − i, and is technical for the first two and soft after |
| `Analytics.PadStep` | src/components/ResumeAnalytics.tsx:134-142 | one step appends the default exactly when no item has its name; afterwards one has |
| `Analytics.PadFromPrefix` | src/components/ResumeAnalytics.tsx:132-143 | padding keeps the items in front and adds at most one item per remaining default |
| `Analytics.PadFromAdded` | src/components/ResumeAnalytics.tsx:135-141 | every added item is a default whose name no item had |
| `Analytics.PadFromNamed` | src/components/ResumeAnalytics.tsx:134-142 | after padding, every default name is carried by some item |
| `Analytics.PadFromDistinct` | src/components/ResumeAnalytics.tsx:134-142 | padding introduces no repeated name |
| `Analytics.DefaultSkillsDistinct` | src/components/ResumeAnalytics.tsx:133 | the five defaults are different |
| `Analytics.NamesPermutation` | src/components/ResumeAnalytics.tsx:129 | reordering items with distinct names keeps them distinct |
| `Analytics.NamesTake` | src/components/ResumeAnalytics.tsx:145 | names of a slice are the slice of the names |
| `Analytics.SortedFacts` | src/components/ResumeAnalytics.tsx:129 | sorting by count gives non-increasing counts, with names still distinct |
| `Analytics.PaddedFacts` | src/components/ResumeAnalytics.tsx:132-143 | fewer than five distinct sorted items become five to ten distinct items. The sorted ones stay in front, and every default is named, added only when missing |
| `Analytics.SkillsFromFacts` | src/components/ResumeAnalytics.tsx:129-145 | any scan with distinct names yields a list satisfying `ExtractedFrom` |
| `Analytics.SkillsFromFew` | src/components/ResumeAnalytics.tsx:132-145 | fewer than five: all sorted items, then the missing defaults, five to ten items |
| `Analytics.SkillsFromMany` | src/components/ResumeAnalytics.tsx:132-145 | five or more: the first fifteen by count |
| `Analytics.ExtractedFacts` | src/components/ResumeAnalytics.tsx:85-146 | `extractSkills` yields 5 to 15 items with distinct names, the scanned ones first by non-increasing count. The missing defaults complete fewer than five; otherwise it is the top fifteen |
| `Analytics.TiesKeepScanOrder` | src/components/ResumeAnalytics.tsx:129 | the sort is stable: items of equal count keep their scan order, technical before soft before domain |
| `Analytics.ScanInto` | src/components/ResumeAnalytics.tsx:90-100 | the loop appends exactly the scan of its vocabulary |
| `Analytics.PadDefaults` | src/components/ResumeAnalytics.tsx:134-142 | the loop leaves exactly the padded list |
| `Analytics.ExtractWith` | src/components/ResumeAnalytics.tsx:86-145 | the body computes the sorted, padded, sliced list of the three scans |
| `Analytics.ExtractSkills` | src/components/ResumeAnalytics.tsx:85-146 | returns `Extracted(text)`, which satisfies `ExtractedFrom` over the three scans |
| `Analytics.DigitsEnd` | src/components/ResumeAnalytics.tsx:54 | the digit run ends inside the text |
| `Analytics.FirstYearsMatch` | src/components/ResumeAnalytics.tsx:54-55 | the leftmost position where the years pattern matches, or the end |
| `Analytics.YearsCapture` | src/components/ResumeAnalytics.tsx:54-56 | no capture exactly when the pattern matches nowhere. Otherwise the capture is at the leftmost match, and group 1 is its non-empty digit run |
| `Analytics.DigitRun` | src/components/ResumeAnalytics.tsx:54-56 | group 1 is the digit run from the match start, non-empty, all digits |
| `Analytics.RolePattern` | src/components/ResumeAnalytics.tsx:72 | `.replace(/\s/g, '\\s')` keeps one atom per character |
| `Analytics.FirstMatchInText` | src/components/ResumeAnalytics.tsx:73-74 | the first match of a global alternation is a non-empty piece of the text |
| `Analytics.Ceiling` | src/components/ResumeAnalytics.tsx:64 | `Math.ceil`: the least integer not below x |
| `Analytics.ExtractExperienceMetrics` | src/components/ResumeAnalytics.tsx:50-82 | years = `parseInt` of group 1 when the pattern matches, else a fallback in [2, 9]. At least one company, companies ≤ years + 1, roles ≤ years, and the recent role is a listed role or a piece of the text |
| `Lists.DedupOrder` | src/utils/openaiUtils.ts:454 | `[...new Set(s)]` keeps the first element first and lists the first occurrences in order |
| `Lists.TakeDedupFirst` | src/utils/openaiUtils.ts:453-454 | `[...new Set(s)].slice(0, n)` lists first occurrences in order, and every value it keeps first occurs before every value of `s` it leaves out |
| `Lists.FilterOrder` | src/utils/openaiUtils.ts:429-431 | `filter` on a repeat-free list keeps the list's order |
| `Lists.SortBy` | src/components/ResumeAnalytics.tsx:129 | `sort` with a key comparator returns a sorted permutation |
| `Lists.SortByStable` | src/components/ResumeAnalytics.tsx:129 | the sort is stable for every key value |

## Left out

- Floating point arithmetic.
  - The average sentence length is compared in integers (`words > 25·d`), which is exact.
  - `Math.round` of the ATS score is stated in integers.
  - The relevance score is computed on exact reals, so it may differ from IEEE rounding at a `.5` boundary.
- Case folding covers ASCII letters only. Non-ASCII `toLowerCase`, Unicode case-insensitive matching and
  UTF-16 surrogate pairs are not modelled; a `char` stands for a UTF-16 code unit.
- Randomness, dates and time are parameters.
  - Each `Math.random()` draw, the date string and the day of the month are passed in.
  - `Math.random()` itself is a real in [0, 1), so the fallback role index and the relevance noise need
    that as a precondition.
  - A `sort(() => Math.random() - 0.5)` is a stable sort by an arbitrary rank. A comparator that is not
    consistent, and the engine's own algorithm for it, are not modelled.
- Retry loops consume a finite list of draws, where the source loops are unbounded: `EngineImproved.DrawSpread`,
  `EngineNew.PickCandidates` and `JobMatchNew.DrawImprovements`.
- EngineImproved.SelectSuggestions: promises five suggestions only when the draws do not run out, because the
  model cannot return from a retry loop that never stops.
- JobMatchNew.DrawImprovements: promises five improvements only when the draws do not run out, for the same
  reason.
- JobMatch.CompletedFacts: assumes at least five distinct general suggestions. The reference function
  `Completed` stops once no unused entry is left, where the source would loop forever. That cannot happen with
  the ten fixed suggestions.
- Engine.SelectRelevantSuggestions: requires a pool of at least three. The source is only ever called with its
  pool of twenty.
- The OpenAI calls (`getAIFeedback`, `getJobMatchAnalysis`), the JSON parsing of their replies, and the
  fallback to the mock functions on an error. These are network I/O.
- `pdfUtils.ts` (text extraction from PDF) and the React components' rendering, state updates and `setTimeout`
  delay. `AnalyzeAts` models the body of the timeout callback.
- `parseInt` is modelled as exact. Its loss of precision above 2^53 is not.
- Ats.FormattingResults: checks dates with the intended en dash (U+2013) instead of the garbled `â€“` at
  `src/components/ATSSimulator.tsx:43`, and runs the bullet test from a fresh `lastIndex` rather than the one
  the shared `/g` pattern keeps (lines 25 and 74). The code as written is modelled separately; see Findings.
- Ats.AnalyzeAts: inherits both corrections from `Ats.FormattingResults`, so on an en-dash year range, or on a
  second analysis of a text with a bullet, its verdict differs from the code as written; see Findings.
- Ats.OverallScore: modelled on integers. For the twelve keywords and five checks, JavaScript's float
  expression rounds the same way, but that agreement is argued, not proved.
- The code differs from the documented behaviour in three places; the model follows the code.
  - A blank job description falls back to the vocabulary selection rather than reporting an error.
  - The scores are not deterministic: they depend on the hash, the date and `Math.random()`.
  - The years fallback `Math.floor(Math.random() * 8) + 2` gives 2 to 9, although its comment says 2 to 10.

## Findings

| source | as written | input that shows it | evidently intended | confidence | as-written member | corrected member |
|---|---|---|---|---|---|---|
| src/components/ATSSimulator.tsx:43 | The date pattern's separator `â€“` is the UTF-8 bytes of an en dash read as Windows-1252, so the pattern looks for the three characters `â`, `€`, `“` | "2019–2021" (with a real en dash): no separator matches, so the date check fails | the separator `–` (U+2013), so that en-dash year ranges are dates | medium (not executed) | `Ats.EnDashRangeMissedAsWritten` | `Ats.EnDashRangeMatched` |
| src/components/ATSSimulator.tsx:25 | The 'Uncommon bullet points' pattern carries the `g` flag, and `FORMATTING_CHECKS` is a module constant, so `test` (line 74) resumes from the `lastIndex` the previous analysis left | "• x" analysed twice: the first run finds the bullet and fails the check, the second starts from index 2, misses it and passes | a stateless check (no `g` flag), giving every analysis the same verdict | high (not executed) | `Ats.SecondAnalysisMissesBullet` | `Ats.FreshBulletTest` |
