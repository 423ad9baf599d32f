/**
 * The ATS check of ATSSimulator.tsx: a whole-word check for twelve section
 * and contact keywords, a battery of five formatting checks, a weighted
 * score out of 100 and at most five distinct recommendations.
 */
module Ats {
  import opened Text
  import opened Lists

  // ---------------------------------------------------------------------------
  // The keyword check.

  /** `ATS_PARSE_KEYWORDS`. */
  const ParseKeywords: seq<string> := ["experience", "education", "skills", "projects", "contact", "email",
                                       "phone", "address", "summary", "objective", "awards", "certifications"]

  datatype KeywordResult = KeywordResult(keyword: string, found: bool)

  /** `new RegExp('\\b' + keyword + '\\b', 'i').test(resumeText)` for each keyword, in vocabulary order. */
  function KeywordResults(text: string): (rs: seq<KeywordResult>)
    ensures |rs| == 12
    ensures forall i :: 0 <= i < 12 ==> rs[i].keyword == ParseKeywords[i]
    ensures forall i :: 0 <= i < 12 ==> (rs[i].found <==> HasWholeWord(text, ParseKeywords[i]))
  {
    seq(|ParseKeywords|, i requires 0 <= i < |ParseKeywords| =>
      KeywordResult(ParseKeywords[i], HasWholeWord(text, ParseKeywords[i])))
  }

  /** `keywordResults.filter(k => k.found).length`: all of them exactly when every keyword is found. */
  function FoundCount(rs: seq<KeywordResult>): (n: nat)
    ensures n <= |rs|
    ensures n == |rs| <==> forall i :: 0 <= i < |rs| ==> rs[i].found
  {
    if |rs| == 0 then 0
    else
      var rest := FoundCount(rs[1..]);
      assert forall i :: 1 <= i < |rs| ==> rs[i] == rs[1..][i - 1];
      (if rs[0].found then 1 else 0) + rest
  }

  /** `keywordResults.filter(k => !k.found).map(k => k.keyword)`. */
  function MissingKeywords(rs: seq<KeywordResult>): (missing: seq<string>)
    ensures |missing| + FoundCount(rs) == |rs|
    ensures forall x :: x in missing <==> exists i :: 0 <= i < |rs| && !rs[i].found && rs[i].keyword == x
  {
    if |rs| == 0 then []
    else
      var rest := MissingKeywords(rs[1..]);
      assert forall i :: 1 <= i < |rs| ==> rs[i] == rs[1..][i - 1];
      assert forall x :: (exists i :: 1 <= i < |rs| && !rs[i].found && rs[i].keyword == x) ==> x in rest by {
        forall x | exists i :: 1 <= i < |rs| && !rs[i].found && rs[i].keyword == x ensures x in rest {
          var i :| 1 <= i < |rs| && !rs[i].found && rs[i].keyword == x;
          assert rs[1..][i - 1] == rs[i];
        }
      }
      (if rs[0].found then [] else [rs[0].keyword]) + rest
  }

  // ---------------------------------------------------------------------------
  // The five formatting checks (`FORMATTING_CHECKS`), each a `test` of its
  // regular expression against the whole text.

  datatype Check = ComplexTables | UncommonBullets | SectionHeaders | ContactInformation | DateFormats

  const Checks: seq<Check> := [ComplexTables, UncommonBullets, SectionHeaders, ContactInformation, DateFormats]

  /** `check.negative`: for these a match is a problem. */
  predicate Negative(c: Check) {
    c == ComplexTables || c == UncommonBullets
  }

  function Name(c: Check): string {
    match c
    case ComplexTables => "Complex tables"
    case UncommonBullets => "Uncommon bullet points"
    case SectionHeaders => "Proper section headers"
    case ContactInformation => "Contact information"
    case DateFormats => "Date formats"
  }

  /**
   * `check.message`. Each wording is written as its first word and the rest,
   * so that the proofs can read its first characters.
   */
  function Message(c: Check): string {
    match c
    case ComplexTables => "Tables " + "can confuse ATS systems. Use simple bullet points instead."
    case UncommonBullets => "Exotic " + "bullet points may not parse correctly. Use standard bullets."
    case SectionHeaders => "Clear " + "section headers help ATS categorize information correctly."
    case ContactInformation => "Contact " + "information is easily identifiable."
    case DateFormats => "Employment " + "dates are in a standard format that ATS can recognize."
  }

  /** `/\|\s*[-]+\s*\|/` at `i`: a bar, optional spaces, one or more hyphens, optional spaces, a bar. */
  predicate TableRuleAt(text: string, i: nat) {
    i < |text| && text[i] == '|'
    && var a := RunEnd(text, i + 1, IsSpace);
       var b := RunEnd(text, a, IsHyphen);
       var e := RunEnd(text, b, IsSpace);
       a < b && e < |text| && text[e] == '|'
  }

  predicate IsHyphen(c: char) { c == '-' }

  predicate HasTableRule(text: string) {
    exists i: nat :: i < |text| && TableRuleAt(text, i)
  }

  /** A character of `[^\w\s.,;:()-]`. */
  predicate IsBulletChar(c: char) {
    !IsWordChar(c) && !IsSpace(c) && c != '.' && c != ',' && c != ';' && c != ':' && c != '(' && c != ')' && c != '-'
  }

  /** `/[^\w\s.,;:()-][\s]+/` at `i`. */
  predicate BulletAt(text: string, i: nat) {
    i + 1 < |text| && IsBulletChar(text[i]) && IsSpace(text[i + 1])
  }

  predicate HasBullet(text: string) {
    exists i: nat :: i < |text| && BulletAt(text, i)
  }

  const HeaderWords: seq<string> := ["experience", "education", "skills", "projects"]

  /** A `\n` inside the run of `\s` that starts at `j`. */
  predicate NewlineInRun(text: string, j: nat)
    decreases |text| - j
  {
    j < |text| && IsSpace(text[j]) && (text[j] == '\n' || NewlineInRun(text, j + 1))
  }

  /** `[\s]*:?[\s]*\n` at `p`. */
  predicate HeaderEndAt(text: string, p: nat)
    requires p <= |text|
  {
    NewlineInRun(text, p)
    || var q := RunEnd(text, p, IsSpace);
       q < |text| && text[q] == ':' && NewlineInRun(text, q + 1)
  }

  /** `/(experience|education|skills|projects)[\s]*:?[\s]*\n/i`. */
  predicate HasSectionHeader(text: string) {
    exists i: nat, k :: i < |text| && 0 <= k < |HeaderWords| && MatchesAt(text, i, Literal(HeaderWords[k]))
      && HeaderEndAt(text, i + |HeaderWords[k]|)
  }

  predicate IsAsciiAlnum(c: char) { 'a' <= c <= 'z' || 'A' <= c <= 'Z' || IsDigit(c) }

  /** `[a-zA-Z0-9._-]`. */
  predicate IsAddressChar(c: char) { IsAsciiAlnum(c) || c == '.' || c == '_' || c == '-' }

  /** `[a-zA-Z0-9_-]`. */
  predicate IsDomainEndChar(c: char) { IsAsciiAlnum(c) || c == '_' || c == '-' }

  /**
   * `/([a-zA-Z0-9._-]+@[a-zA-Z0-9._-]+\.[a-zA-Z0-9_-]+)/i` around the `@` at
   * `at`: an address character before it; after it address characters up to
   * a dot at `j`, at least one, and a final-part character after the dot.
   */
  predicate EmailAt(text: string, at: nat) {
    0 < at < |text| && text[at] == '@' && IsAddressChar(text[at - 1])
    && exists j :: at + 2 <= j < |text| - 1 && DomainDotAt(text, at, j)
  }

  /** The dot at `j` ends the address characters after the `@` at `at` and is followed by a final-part character. */
  predicate DomainDotAt(text: string, at: nat, j: nat)
    requires at < j < |text| - 1
  {
    text[j] == '.' && IsDomainEndChar(text[j + 1]) && forall m :: at < m < j ==> IsAddressChar(text[m])
  }

  predicate HasEmail(text: string) {
    exists at: nat :: at < |text| && EmailAt(text, at)
  }

  /** `(19|20)\d{2}` at `i`. */
  predicate YearAt(text: string, i: nat) {
    i + 4 <= |text|
    && ((text[i] == '1' && text[i + 1] == '9') || (text[i] == '2' && text[i + 1] == '0'))
    && IsDigit(text[i + 2]) && IsDigit(text[i + 3])
  }

  /**
   * The separators of the date range: a hyphen, an en dash, or "to". The
   * source holds the en dash as the three characters its UTF-8 encoding
   * reads as in Windows-1252 (`AsWrittenRangeSeparators`).
   */
  const RangeSeparators: seq<string> := ["-", "\U{2013}", "to"]
  const AsWrittenRangeSeparators: seq<string> := ["-", "\U{E2}\U{20AC}\U{201C}", "to"]

  /** `(19|20)\d{2}\s*(sep)\s*(19|20)\d{2}` at `i`, for the separators `seps`. */
  predicate DateRangeAt(text: string, i: nat, seps: seq<string>) {
    YearAt(text, i)
    && var a := RunEnd(text, i + 4, IsSpace);
       exists k :: 0 <= k < |seps| && MatchesAt(text, a, Literal(seps[k]))
         && YearAt(text, RunEnd(text, a + |seps[k]|, IsSpace))
  }

  /** The date pattern, `/…|present|current|now/i`, for the separators `seps`. */
  predicate HasDatesWith(text: string, seps: seq<string>) {
    (exists i: nat :: i < |text| && DateRangeAt(text, i, seps))
    || ContainsCI(text, "present") || ContainsCI(text, "current") || ContainsCI(text, "now")
  }

  /** `check.regex.test(resumeText)`, every pattern searched from the start of the text. */
  predicate Matches(c: Check, text: string) {
    match c
    case ComplexTables => HasTableRule(text)
    case UncommonBullets => HasBullet(text)
    case SectionHeaders => HasSectionHeader(text)
    case ContactInformation => HasEmail(text)
    case DateFormats => HasDatesWith(text, RangeSeparators)
  }

  // ---------------------------------------------------------------------------
  // The date separator as written. The source's en dash went through a wrong
  // encoding, so an en-dashed range is not matched by it.

  /** A year range written with an en dash is missed by the separators as written. */
  lemma EnDashRangeMissedAsWritten()
    ensures var text := "2019\U{2013}2021";
      !HasDatesWith(text, AsWrittenRangeSeparators) && HasDatesWith(text, RangeSeparators)
  {
    var text := "2019\U{2013}2021";
    assert |text| == 9 && text[4] == '\U{2013}';
    assert RunEnd(text, 4, IsSpace) == 4;
    assert RunEnd(text, 5, IsSpace) == 5;
    assert MatchesAt(text, 4, Literal(RangeSeparators[1]));
    assert DateRangeAt(text, 0, RangeSeparators);
    forall i: nat | i < |text| ensures !DateRangeAt(text, i, AsWrittenRangeSeparators) {
      if YearAt(text, i) {
        assert i == 0 || i == 5;
        if i == 0 {
          var seps := AsWrittenRangeSeparators;
          assert seps[0][0] == '-' && seps[1][0] == '\U{E2}' && seps[2][0] == 't';
          NoSeparatorAt(text, 4, seps);
        } else {
          assert RunEnd(text, 9, IsSpace) == 9;
        }
      }
    }
    NotContained(text, "present");
    NotContained(text, "current");
    NotContained(text, "now");
  }

  /** No separator matches at `a` when its character differs from the first character of each one. */
  lemma NoSeparatorAt(text: string, a: nat, seps: seq<string>)
    requires a < |text|
    requires forall k :: 0 <= k < |seps| ==> |seps[k]| > 0 && LowerChar(seps[k][0]) != LowerChar(text[a])
    ensures forall k :: 0 <= k < |seps| ==> !MatchesAt(text, a, Literal(seps[k]))
  {
    forall k | 0 <= k < |seps| ensures !MatchesAt(text, a, Literal(seps[k])) {
      assert Literal(seps[k])[0] == Ch(seps[k][0]);
    }
  }

  /** A text without letters contains no word of letters. */
  lemma NotContained(text: string, needle: string)
    requires |needle| > 0 && 'a' <= needle[0] <= 'z'
    requires forall i :: 0 <= i < |text| ==> !('a' <= text[i] <= 'z') && !('A' <= text[i] <= 'Z')
    ensures !ContainsCI(text, needle)
  {
    forall i: nat | i <= |text| ensures !MatchesAt(text, i, Literal(needle)) {
      if i < |text| {
        assert !AtomMatches(Literal(needle)[0], text[i]);
      }
    }
  }

  /** Under the intended separators, every year range with an en dash is a date. */
  lemma EnDashRangeMatched(text: string, i: nat)
    requires i + 9 <= |text| && YearAt(text, i) && text[i + 4] == '\U{2013}' && YearAt(text, i + 5)
    ensures HasDatesWith(text, RangeSeparators)
  {
    assert RunEnd(text, i + 4, IsSpace) == i + 4;
    assert RunEnd(text, i + 5, IsSpace) == i + 5;
    assert MatchesAt(text, i + 4, Literal(RangeSeparators[1]));
    assert DateRangeAt(text, i, RangeSeparators);
  }

  // ---------------------------------------------------------------------------
  // The bullet pattern as written. It carries the `g` flag and lives in a
  // module-level constant, so `test` resumes at the end of the previous
  // match and a later analysis can miss a bullet an earlier one found.

  /** The first position at or after `from` where a bullet match starts, or `|text|` if none does. */
  function NextBullet(text: string, from: nat): (i: nat)
    requires from <= |text|
    ensures from <= i <= |text|
    ensures i < |text| ==> BulletAt(text, i)
    ensures forall j :: from <= j < i ==> !BulletAt(text, j)
    decreases |text| - from
  {
    if from == |text| || BulletAt(text, from) then from else NextBullet(text, from + 1)
  }

  /**
   * `test` of a global pattern whose `lastIndex` is `from`: the match found
   * and the new `lastIndex`, the end of the match (the `[\s]+` is greedy), or 0
   * when there is no match at or after `from`.
   */
  function StatefulBulletTest(text: string, from: nat): (r: (bool, nat))
    ensures r.0 ==> from < r.1 <= |text|
    ensures !r.0 ==> r.1 == 0
    ensures r.0 ==> HasBullet(text)
  {
    if from > |text| then (false, 0)
    else
      var i := NextBullet(text, from);
      if i < |text| then (true, RunEnd(text, i + 1, IsSpace)) else (false, 0)
  }

  /** The regular expression object `/[^\w\s.,;:()-][\s]+/g` with its `lastIndex`. */
  class BulletPattern {
    var lastIndex: nat

    constructor()
      ensures lastIndex == 0
    {
      lastIndex := 0;
    }

    /** `regex.test(text)`, which reads and updates `lastIndex`. */
    method Test(text: string) returns (matched: bool)
      modifies this
      ensures (matched, lastIndex) == StatefulBulletTest(text, old(lastIndex))
    {
      var r := StatefulBulletTest(text, lastIndex);
      matched := r.0;
      lastIndex := r.1;
    }
  }

  /** A fresh pattern agrees with the stateless `HasBullet`. */
  lemma FreshBulletTest(text: string)
    ensures StatefulBulletTest(text, 0).0 <==> HasBullet(text)
  {
    if HasBullet(text) {
      var j: nat :| j < |text| && BulletAt(text, j);
      assert NextBullet(text, 0) <= j;
    }
  }

  /** Two analyses of the same one-bullet text disagree: the second starts past its only bullet. */
  lemma SecondAnalysisMissesBullet()
    ensures var text := "\U{2022} x";
      StatefulBulletTest(text, 0) == (true, 2) && !StatefulBulletTest(text, 2).0 && HasBullet(text)
  {
    var text := "\U{2022} x";
    assert BulletAt(text, 0);
    assert NextBullet(text, 0) == 0;
    assert RunEnd(text, 2, IsSpace) == 2;
    assert !BulletAt(text, 2);
    assert NextBullet(text, 3) == 3;
    assert NextBullet(text, 2) == 3;
  }

  datatype CheckResult = CheckResult(check: Check, passed: bool)

  /** `FORMATTING_CHECKS.map(...)`: every check in order, passed when it matched or, for a negative check, when it did not. */
  function FormattingResults(text: string): (rs: seq<CheckResult>)
    ensures |rs| == 5
    ensures forall i :: 0 <= i < 5 ==> rs[i].check == Checks[i]
    ensures forall i :: 0 <= i < 5 ==> (rs[i].passed <==> (if Negative(Checks[i]) then !Matches(Checks[i], text) else Matches(Checks[i], text)))
  {
    seq(|Checks|, i requires 0 <= i < |Checks| =>
      CheckResult(Checks[i], if Negative(Checks[i]) then !Matches(Checks[i], text) else Matches(Checks[i], text)))
  }

  /** `formattingResults.filter(f => f.passed).length`: all of them exactly when every check passes. */
  function PassedCount(rs: seq<CheckResult>): (n: nat)
    ensures n <= |rs|
    ensures n == |rs| <==> forall i :: 0 <= i < |rs| ==> rs[i].passed
  {
    if |rs| == 0 then 0
    else
      var rest := PassedCount(rs[1..]);
      assert forall i :: 1 <= i < |rs| ==> rs[i] == rs[1..][i - 1];
      (if rs[0].passed then 1 else 0) + rest
  }

  /** A text with a `| --- |` table rule fails the 'Complex tables' check. */
  lemma DashedTableFails(text: string, i: nat)
    requires i + 7 <= |text| && text[i..i + 7] == "| --- |"
    ensures !FormattingResults(text)[0].passed
  {
    var w := text[i..i + 7];
    assert forall k :: 0 <= k < 7 ==> text[i + k] == w[k];
    DashedRuleAt(text, i);
  }

  /** The characters of `| --- |` at `i` make a table rule there. */
  lemma DashedRuleAt(text: string, i: nat)
    requires i + 7 <= |text|
    requires text[i] == '|' && text[i + 1] == ' ' && text[i + 2] == '-' && text[i + 3] == '-'
    requires text[i + 4] == '-' && text[i + 5] == ' ' && text[i + 6] == '|'
    ensures TableRuleAt(text, i)
  {
    assert RunEnd(text, i + 1, IsSpace) == i + 2 by {
      assert RunEnd(text, i + 2, IsSpace) == i + 2;
    }
    assert RunEnd(text, i + 2, IsHyphen) == i + 5 by {
      assert RunEnd(text, i + 5, IsHyphen) == i + 5;
    }
    assert RunEnd(text, i + 5, IsSpace) == i + 6 by {
      assert RunEnd(text, i + 6, IsSpace) == i + 6;
    }
  }

  // ---------------------------------------------------------------------------
  // The score.

  /**
   * `Math.round((found / 12 * 0.4 + passed / 5 * 0.6) * 100)`, that is the
   * integer nearest to `10·found/3 + 12·passed`: six times the score is
   * within 3 of `20·found + 72·passed`, strictly, so there is never a tie
   * to round.
   */
  function OverallScore(found: nat, passed: nat): (score: int)
    requires found <= 12 && passed <= 5
    ensures 0 <= score <= 100
    ensures 6 * score - 3 < 20 * found + 72 * passed < 6 * score + 3
    ensures score == 100 <==> found == 12 && passed == 5
  {
    (20 * found + 72 * passed + 3) / 6
  }

  /** More keywords found or more checks passed never lower the score. */
  lemma OverallScoreMonotone(found: nat, passed: nat, moreFound: nat, morePassed: nat)
    requires found <= moreFound <= 12 && passed <= morePassed <= 5
    ensures OverallScore(found, passed) <= OverallScore(moreFound, morePassed)
  {
    var s, t := OverallScore(found, passed), OverallScore(moreFound, morePassed);
    assert 6 * s - 3 < 6 * t + 3;
  }

  // ---------------------------------------------------------------------------
  // The recommendations.

  const HeaderPrefix: string := "Consider adding clear section headers for: "

  /** The recommendation naming the missing keywords. */
  function HeaderLine(missing: seq<string>): string {
    HeaderPrefix + Join(missing, ", ") + "."
  }

  /** The four generic tips, each written as its first word and the rest as `Message` is. */
  const Tips: seq<string> := [
    "Use " + "a clean, simple format with standard section headers.",
    "Ensure " + "your name and contact details are at the top of the resume.",
    "Avoid " + "images, graphics, and text boxes as ATS cannot read these.",
    "Use " + "standard fonts like Arial, Calibri, or Times New Roman."]

  /** The checks that failed, in check order. */
  function FailedChecks(rs: seq<CheckResult>): (cs: seq<Check>)
    ensures |cs| + PassedCount(rs) == |rs|
    ensures forall c :: c in cs <==> exists i :: 0 <= i < |rs| && !rs[i].passed && rs[i].check == c
  {
    if |rs| == 0 then []
    else
      var init := rs[..|rs| - 1];
      var rest := FailedChecks(init);
      PassedCountSnoc(rs);
      assert forall i :: 0 <= i < |init| ==> rs[i] == init[i];
      rest + (if rs[|rs| - 1].passed then [] else [rs[|rs| - 1].check])
  }

  /** The messages of the checks `cs`, in order. */
  function Messages(cs: seq<Check>): (ms: seq<string>)
    ensures |ms| == |cs|
  {
    seq(|cs|, i requires 0 <= i < |cs| => Message(cs[i]))
  }

  lemma {:induction false} PassedCountSnoc(rs: seq<CheckResult>)
    requires |rs| > 0
    ensures PassedCount(rs) == PassedCount(rs[..|rs| - 1]) + (if rs[|rs| - 1].passed then 1 else 0)
    decreases |rs|
  {
    if |rs| > 1 {
      PassedCountSnoc(rs[1..]);
      assert rs[1..][..|rs[1..]| - 1] == rs[..|rs| - 1][1..];
    }
  }

  /**
   * The recommendations before deduplication: the header line when a
   * keyword is missing, the failed checks' messages in check order, then the
   * four tips.
   */
  function RawRecommendations(keywords: seq<KeywordResult>, checks: seq<CheckResult>): seq<string> {
    var missing := MissingKeywords(keywords);
    (if |missing| > 0 then [HeaderLine(missing)] else []) + Messages(FailedChecks(checks)) + Tips
  }

  /** One more check adds its message to the failed messages exactly when it failed. */
  lemma FailedMessagesStep(checks: seq<CheckResult>, i: nat)
    requires i < |checks|
    ensures Messages(FailedChecks(checks[..i + 1]))
            == Messages(FailedChecks(checks[..i])) + (if checks[i].passed then [] else [Message(checks[i].check)])
  {
    assert checks[..i + 1][..i] == checks[..i];
    var failed := FailedChecks(checks[..i]);
    if !checks[i].passed {
      var c := checks[i].check;
      var longer := Messages(failed + [c]);
      assert forall k :: 0 <= k < |failed| ==> longer[k] == Messages(failed)[k];
      assert longer[|failed|] == Message(c);
    }
  }

  /** The pushes that build `recommendations`. */
  method BuildRecommendations(keywords: seq<KeywordResult>, checks: seq<CheckResult>) returns (recommendations: seq<string>)
    ensures recommendations == RawRecommendations(keywords, checks)
  {
    recommendations := [];
    var missing := MissingKeywords(keywords);
    if |missing| > 0 {
      recommendations := recommendations + [HeaderLine(missing)];
    }
    ghost var header := recommendations;
    var i := 0;
    while i < |checks|
      invariant 0 <= i <= |checks|
      invariant recommendations == header + Messages(FailedChecks(checks[..i]))
    {
      FailedMessagesStep(checks, i);
      AppendAfter(header, Messages(FailedChecks(checks[..i])), Messages(FailedChecks(checks[..i + 1])),
                  if checks[i].passed then [] else [Message(checks[i].check)]);
      if !checks[i].passed {
        recommendations := recommendations + [Message(checks[i].check)];
      }
      i := i + 1;
    }
    assert checks[..|checks|] == checks;
    recommendations := PushTips(recommendations);
  }

  /** The four pushes of the generic tips. */
  method PushTips(before: seq<string>) returns (after: seq<string>)
    ensures after == before + Tips
  {
    after := before + [Tips[0]];
    after := after + [Tips[1]];
    after := after + [Tips[2]];
    after := after + [Tips[3]];
  }

  /** `recommendations.filter((r, i, self) => self.indexOf(r) === i).slice(0, 5)`. */
  function FinalRecommendations(raw: seq<string>): (r: seq<string>)
    ensures |r| <= 5 && Distinct(r)
    ensures InFirstOccurrenceOrder(r, raw)
    ensures |r| == 5 || forall x :: x in raw ==> x in r
    ensures |raw| > 0 ==> |r| > 0 && r[0] == raw[0]
    ensures forall x, y :: x in r && y in raw && y !in r ==> IndexOf(raw, x) < IndexOf(raw, y)
  {
    DedupOrder(raw);
    TakeDedupFirst(raw, 5);
    var d := Dedup(raw);
    DistinctPrefix(d, |Take(d, 5)|);
    Take(d, 5)
  }

  /** No message or tip reads as a header line. */
  lemma NotHeaderLines()
    ensures forall c: Check :: !(HeaderPrefix <= Message(c))
    ensures forall k :: 0 <= k < |Tips| ==> !(HeaderPrefix <= Tips[k])
  {
    var p := HeaderPrefix;
    assert p[0] == 'C' && p[1] == 'o' && p[3] == 's';
    forall c: Check ensures !(HeaderPrefix <= Message(c)) {
      var m := Message(c);
      match c
      case ContactInformation => assert m[3] == 't';
      case SectionHeaders => assert m[1] == 'l';
      case _ => assert m[0] != 'C';
    }
    forall k | 0 <= k < |Tips| ensures !(HeaderPrefix <= Tips[k]) {
      assert Tips[k][0] != 'C';
    }
  }

  // ---------------------------------------------------------------------------
  // handleATSAnalysis

  datatype AtsResult = AtsResult(
    overallScore: int,
    keywordResults: seq<KeywordResult>,
    formattingResults: seq<CheckResult>,
    recommendations: seq<string>)

  /**
   * What `handleATSAnalysis` promises: twelve keyword results and five check
   * results as above, the score from their counts, and at most five distinct
   * recommendations, the first of them the header line exactly when a
   * keyword is missing.
   */
  ghost predicate AnalyzedAs(r: AtsResult, text: string) {
    r.keywordResults == KeywordResults(text)
    && r.formattingResults == FormattingResults(text)
    && r.overallScore == OverallScore(FoundCount(r.keywordResults), PassedCount(r.formattingResults))
    && r.recommendations == FinalRecommendations(RawRecommendations(r.keywordResults, r.formattingResults))
    && 1 <= |r.recommendations| <= 5 && Distinct(r.recommendations)
    && ((exists i :: 0 <= i < 12 && !r.keywordResults[i].found)
        <==> HeaderPrefix <= r.recommendations[0])
  }

  /** The body of `handleATSAnalysis` for the text `resumeText`, without the delay and the state updates. */
  method AnalyzeAts(text: string) returns (r: AtsResult)
    ensures AnalyzedAs(r, text)
    ensures 0 <= r.overallScore <= 100
    ensures r.overallScore == 100 <==>
              (forall i :: 0 <= i < 12 ==> r.keywordResults[i].found)
              && (forall i :: 0 <= i < 5 ==> r.formattingResults[i].passed)
  {
    var keywordResults := KeywordResults(text);
    var formattingResults := FormattingResults(text);
    var overallScore := OverallScore(FoundCount(keywordResults), PassedCount(formattingResults));
    var raw := BuildRecommendations(keywordResults, formattingResults);
    var recommendations := FinalRecommendations(raw);
    HeaderFirst(keywordResults, formattingResults);
    r := AtsResult(overallScore, keywordResults, formattingResults, recommendations);
  }

  /** The first recommendation is the header line exactly when some keyword is missing. */
  lemma HeaderFirst(keywords: seq<KeywordResult>, checks: seq<CheckResult>)
    ensures var r := FinalRecommendations(RawRecommendations(keywords, checks));
      |r| > 0 && ((exists i :: 0 <= i < |keywords| && !keywords[i].found) <==> HeaderPrefix <= r[0])
  {
    var missing := MissingKeywords(keywords);
    var raw := RawRecommendations(keywords, checks);
    var failed := FailedChecks(checks);
    NotHeaderLines();
    if |missing| > 0 {
      assert raw[0] == HeaderLine(missing);
      var x := missing[0];
      assert x in missing;
    } else {
      assert FoundCount(keywords) == |keywords|;
      if |failed| > 0 {
        assert raw[0] == Message(failed[0]);
      } else {
        assert raw[0] == Tips[0];
      }
    }
  }
}
