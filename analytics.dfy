/**
 * The skill and experience analytics of ResumeAnalytics.tsx: `extractSkills`
 * counts whole-word mentions of three skill vocabularies, sorts the found
 * skills by count (stably), pads a short list with five defaults and keeps
 * at most fifteen; `extractExperienceMetrics` reads the years of experience,
 * counts company and job-title mentions and picks the most recent role.
 */
module Analytics {
  import opened Text
  import opened Lists
  import opened Numbers

  // ---------------------------------------------------------------------------
  // The vocabularies, written in the groups of their source lines.

  const TechnicalFront: seq<string> := [
    "javascript", "typescript", "react", "angular", "vue", "node", "express",
    "python", "django", "flask", "java", "spring", "c#", ".net", "php", "laravel"]
  const TechnicalWeb: seq<string> := [
    "html", "css", "sass", "less", "tailwind", "bootstrap", "material ui", "jquery",
    "sql", "postgresql", "mysql", "mongodb", "firebase", "dynamodb", "redis"]
  const TechnicalOps: seq<string> := [
    "aws", "azure", "gcp", "docker", "kubernetes", "terraform", "jenkins", "git",
    "rest", "graphql", "redux", "webpack", "babel", "jest", "cypress", "selenium"]

  /** `TECHNICAL_SKILLS`. */
  const TechnicalSkills: seq<string> := TechnicalFront + TechnicalWeb + TechnicalOps

  /** `SOFT_SKILLS`. */
  const SoftSkills: seq<string> := [
    "leadership", "communication", "teamwork", "collaboration", "problem-solving",
    "critical thinking", "adaptability", "time management", "organization",
    "creativity", "attention to detail", "mentoring", "decision-making",
    "conflict resolution", "negotiation", "presentation", "project management"]

  const DomainIndustries: seq<string> := [
    "healthcare", "finance", "banking", "insurance", "e-commerce", "retail",
    "manufacturing", "logistics", "education", "government", "media"]
  const DomainFields: seq<string> := [
    "entertainment", "telecommunications", "automotive", "aerospace", "marketing",
    "sales", "human resources", "legal", "consulting", "research", "data science"]
  const DomainTechnology: seq<string> := [
    "machine learning", "ai", "blockchain", "iot", "mobile", "security", "devops"]

  /** `DOMAIN_SKILLS`. */
  const DomainSkills: seq<string> := DomainIndustries + DomainFields + DomainTechnology

  /** No skill is listed twice, within a vocabulary or across them. */
  lemma VocabulariesDistinct()
    ensures Distinct(TechnicalSkills + SoftSkills + DomainSkills)
  {
    GroupsDistinct();
    GroupsDisjoint();
    var f, w, o := TechnicalFront, TechnicalWeb, TechnicalOps;
    var s, i, d, t := SoftSkills, DomainIndustries, DomainFields, DomainTechnology;
    DistinctConcat(f, w);
    DisjointConcat(f, w, o);
    DistinctConcat(f + w, o);
    DisjointConcat(f, w, s);
    DisjointConcat(f + w, o, s);
    DistinctConcat(f + w + o, s);
    DisjointConcat(f, w, i);
    DisjointConcat(f + w, o, i);
    DisjointConcat(f + w + o, s, i);
    DistinctConcat(f + w + o + s, i);
    DisjointConcat(f, w, d);
    DisjointConcat(f + w, o, d);
    DisjointConcat(f + w + o, s, d);
    DisjointConcat(f + w + o + s, i, d);
    DistinctConcat(f + w + o + s + i, d);
    DisjointConcat(f, w, t);
    DisjointConcat(f + w, o, t);
    DisjointConcat(f + w + o, s, t);
    DisjointConcat(f + w + o + s, i, t);
    DisjointConcat(f + w + o + s + i, d, t);
    DistinctConcat(f + w + o + s + i + d, t);
    assert TechnicalSkills + SoftSkills + DomainSkills == f + w + o + s + i + d + t;
  }

  lemma GroupsDistinct()
    ensures Distinct(TechnicalFront) && Distinct(TechnicalWeb) && Distinct(TechnicalOps)
    ensures Distinct(SoftSkills) && Distinct(DomainIndustries) && Distinct(DomainFields) && Distinct(DomainTechnology)
  {
    TechnicalGroupsDistinct();
    SoftDistinct();
    DomainGroupsDistinct();
  }

  lemma TechnicalGroupsDistinct()
    ensures Distinct(TechnicalFront) && Distinct(TechnicalWeb) && Distinct(TechnicalOps)
  {
    var f, w, o := TechnicalFront, TechnicalWeb, TechnicalOps;
    assert Distinct(f);
    assert Distinct(w);
    assert Distinct(o);
  }

  lemma SoftDistinct()
    ensures Distinct(SoftSkills)
  {
    var s := SoftSkills;
    assert Distinct(s);
  }

  lemma DomainGroupsDistinct()
    ensures Distinct(DomainIndustries) && Distinct(DomainFields) && Distinct(DomainTechnology)
  {
    var i, d, t := DomainIndustries, DomainFields, DomainTechnology;
    assert Distinct(i);
    assert Distinct(d);
    assert Distinct(t);
  }

  /** The seven groups share no skill. */
  lemma GroupsDisjoint()
    ensures Disjoint(TechnicalFront, TechnicalWeb) && Disjoint(TechnicalFront, TechnicalOps) && Disjoint(TechnicalFront, SoftSkills)
    ensures Disjoint(TechnicalFront, DomainIndustries) && Disjoint(TechnicalFront, DomainFields) && Disjoint(TechnicalFront, DomainTechnology)
    ensures Disjoint(TechnicalWeb, TechnicalOps) && Disjoint(TechnicalWeb, SoftSkills) && Disjoint(TechnicalWeb, DomainIndustries)
    ensures Disjoint(TechnicalWeb, DomainFields) && Disjoint(TechnicalWeb, DomainTechnology) && Disjoint(TechnicalOps, SoftSkills)
    ensures Disjoint(TechnicalOps, DomainIndustries) && Disjoint(TechnicalOps, DomainFields) && Disjoint(TechnicalOps, DomainTechnology)
    ensures Disjoint(SoftSkills, DomainIndustries) && Disjoint(SoftSkills, DomainFields) && Disjoint(SoftSkills, DomainTechnology)
    ensures Disjoint(DomainIndustries, DomainFields) && Disjoint(DomainIndustries, DomainTechnology) && Disjoint(DomainFields, DomainTechnology)
  {
    FrontWebDisjoint();
    FrontOpsDisjoint();
    FrontSoftDisjoint();
    FrontIndustriesDisjoint();
    FrontFieldsDisjoint();
    FrontTechnologyDisjoint();
    WebOpsDisjoint();
    WebSoftDisjoint();
    WebIndustriesDisjoint();
    WebFieldsDisjoint();
    WebTechnologyDisjoint();
    OpsSoftDisjoint();
    OpsIndustriesDisjoint();
    OpsFieldsDisjoint();
    OpsTechnologyDisjoint();
    SoftIndustriesDisjoint();
    SoftFieldsDisjoint();
    SoftTechnologyDisjoint();
    IndustriesFieldsDisjoint();
    IndustriesTechnologyDisjoint();
    FieldsTechnologyDisjoint();
  }

  lemma FrontWebDisjoint()
    ensures Disjoint(TechnicalFront, TechnicalWeb)
  {
    var a, b := TechnicalFront, TechnicalWeb;
    assert forall x :: 0 <= x < |b| ==> b[x] !in a;
  }

  lemma FrontOpsDisjoint()
    ensures Disjoint(TechnicalFront, TechnicalOps)
  {
    var a, b := TechnicalFront, TechnicalOps;
    assert forall x :: 0 <= x < |b| ==> b[x] !in a;
  }

  lemma FrontSoftDisjoint()
    ensures Disjoint(TechnicalFront, SoftSkills)
  {
    var a, b := TechnicalFront, SoftSkills;
    assert forall x :: 0 <= x < |b| ==> b[x] !in a;
  }

  lemma FrontIndustriesDisjoint()
    ensures Disjoint(TechnicalFront, DomainIndustries)
  {
    var a, b := TechnicalFront, DomainIndustries;
    assert forall x :: 0 <= x < |b| ==> b[x] !in a;
  }

  lemma FrontFieldsDisjoint()
    ensures Disjoint(TechnicalFront, DomainFields)
  {
    var a, b := TechnicalFront, DomainFields;
    assert forall x :: 0 <= x < |b| ==> b[x] !in a;
  }

  lemma FrontTechnologyDisjoint()
    ensures Disjoint(TechnicalFront, DomainTechnology)
  {
    var a, b := TechnicalFront, DomainTechnology;
    assert forall x :: 0 <= x < |b| ==> b[x] !in a;
  }

  lemma WebOpsDisjoint()
    ensures Disjoint(TechnicalWeb, TechnicalOps)
  {
    var a, b := TechnicalWeb, TechnicalOps;
    assert forall x :: 0 <= x < |b| ==> b[x] !in a;
  }

  lemma WebSoftDisjoint()
    ensures Disjoint(TechnicalWeb, SoftSkills)
  {
    var a, b := TechnicalWeb, SoftSkills;
    assert forall x :: 0 <= x < |b| ==> b[x] !in a;
  }

  lemma WebIndustriesDisjoint()
    ensures Disjoint(TechnicalWeb, DomainIndustries)
  {
    var a, b := TechnicalWeb, DomainIndustries;
    assert forall x :: 0 <= x < |b| ==> b[x] !in a;
  }

  lemma WebFieldsDisjoint()
    ensures Disjoint(TechnicalWeb, DomainFields)
  {
    var a, b := TechnicalWeb, DomainFields;
    assert forall x :: 0 <= x < |b| ==> b[x] !in a;
  }

  lemma WebTechnologyDisjoint()
    ensures Disjoint(TechnicalWeb, DomainTechnology)
  {
    var a, b := TechnicalWeb, DomainTechnology;
    assert forall x :: 0 <= x < |b| ==> b[x] !in a;
  }

  lemma OpsSoftDisjoint()
    ensures Disjoint(TechnicalOps, SoftSkills)
  {
    var a, b := TechnicalOps, SoftSkills;
    assert forall x :: 0 <= x < |b| ==> b[x] !in a;
  }

  lemma OpsIndustriesDisjoint()
    ensures Disjoint(TechnicalOps, DomainIndustries)
  {
    var a, b := TechnicalOps, DomainIndustries;
    assert forall x :: 0 <= x < |b| ==> b[x] !in a;
  }

  lemma OpsFieldsDisjoint()
    ensures Disjoint(TechnicalOps, DomainFields)
  {
    var a, b := TechnicalOps, DomainFields;
    assert forall x :: 0 <= x < |b| ==> b[x] !in a;
  }

  lemma OpsTechnologyDisjoint()
    ensures Disjoint(TechnicalOps, DomainTechnology)
  {
    var a, b := TechnicalOps, DomainTechnology;
    assert forall x :: 0 <= x < |b| ==> b[x] !in a;
  }

  lemma SoftIndustriesDisjoint()
    ensures Disjoint(SoftSkills, DomainIndustries)
  {
    var a, b := SoftSkills, DomainIndustries;
    assert forall x :: 0 <= x < |b| ==> b[x] !in a;
  }

  lemma SoftFieldsDisjoint()
    ensures Disjoint(SoftSkills, DomainFields)
  {
    var a, b := SoftSkills, DomainFields;
    assert forall x :: 0 <= x < |b| ==> b[x] !in a;
  }

  lemma SoftTechnologyDisjoint()
    ensures Disjoint(SoftSkills, DomainTechnology)
  {
    var a, b := SoftSkills, DomainTechnology;
    assert forall x :: 0 <= x < |b| ==> b[x] !in a;
  }

  lemma IndustriesFieldsDisjoint()
    ensures Disjoint(DomainIndustries, DomainFields)
  {
    var a, b := DomainIndustries, DomainFields;
    assert forall x :: 0 <= x < |b| ==> b[x] !in a;
  }

  lemma IndustriesTechnologyDisjoint()
    ensures Disjoint(DomainIndustries, DomainTechnology)
  {
    var a, b := DomainIndustries, DomainTechnology;
    assert forall x :: 0 <= x < |b| ==> b[x] !in a;
  }

  lemma FieldsTechnologyDisjoint()
    ensures Disjoint(DomainFields, DomainTechnology)
  {
    var a, b := DomainFields, DomainTechnology;
    assert forall x :: 0 <= x < |b| ==> b[x] !in a;
  }

  // ---------------------------------------------------------------------------
  // Counting mentions.

  datatype Category = Technical | Soft | Domain

  datatype SkillItem = SkillItem(name: string, count: nat, category: Category)

  /**
   * A skill read as a regular expression. The skills are not escaped, so a
   * `.` (in `.net`) matches any character but a line terminator; with
   * `looseHyphen`, `skill.replace('-', '[\\s-]')` has turned the first hyphen
   * into a class that also matches white space.
   */
  function SkillSource(skill: string, looseHyphen: bool): (p: Pattern)
    ensures |p| == |skill|
  {
    if skill == [] then []
    else if looseHyphen && skill[0] == '-' then [SpaceOrHyphen] + SkillSource(skill[1..], false)
    else [if skill[0] == '.' then AnyChar else Ch(skill[0])] + SkillSource(skill[1..], looseHyphen)
  }

  /** The pattern a skill of `category` is searched with, between `\b` and `\b`. */
  function SkillPattern(skill: string, category: Category): Pattern {
    SkillSource(skill, category == Soft)
  }

  /** `(text.match(new RegExp('\\b' + pattern + '\\b', 'gi')) || []).length`. */
  function Mentions(text: string, skill: string, category: Category): nat {
    CountMatches(text, [SkillPattern(skill, category)], true)
  }

  function Names(items: seq<SkillItem>): (names: seq<string>)
    ensures |names| == |items|
    ensures forall k :: 0 <= k < |items| ==> names[k] == items[k].name
  {
    seq(|items|, k requires 0 <= k < |items| => items[k].name)
  }

  /** An item named `name` is among `items`: `items.some(s => s.name === name)`. */
  predicate HasName(items: seq<SkillItem>, name: string) {
    exists k :: 0 <= k < |items| && items[k].name == name
  }

  /**
   * What one `forEach` over `vocabulary` pushes: an item for each skill
   * mentioned at least once, in vocabulary order, with its count.
   */
  function Scanned(text: string, vocabulary: seq<string>, category: Category): (items: seq<SkillItem>)
    ensures |items| <= |vocabulary|
    decreases |vocabulary|
  {
    if |vocabulary| == 0 then []
    else
      var init := vocabulary[..|vocabulary| - 1];
      var skill := vocabulary[|vocabulary| - 1];
      var n := Mentions(text, skill, category);
      Scanned(text, init, category) + if n > 0 then [SkillItem(skill, n, category)] else []
  }

  /**
   * Every scanned item has its category, a count of at least one equal to
   * its number of mentions, and a name from the vocabulary; a skill of the
   * vocabulary is scanned exactly when it is mentioned; and a vocabulary
   * without repeats gives items without repeated names.
   */
  lemma ScannedFacts(text: string, vocabulary: seq<string>, category: Category)
    ensures var items := Scanned(text, vocabulary, category);
      (forall k :: 0 <= k < |items| ==>
         items[k].category == category && items[k].count >= 1 && items[k].name in vocabulary
         && items[k].count == Mentions(text, items[k].name, category))
      && (forall s :: s in vocabulary ==> (Mentions(text, s, category) > 0 <==> HasName(items, s)))
      && (Distinct(vocabulary) ==> Distinct(Names(items)))
  {
    ScannedItems(text, vocabulary, category);
    ScannedComplete(text, vocabulary, category);
    if Distinct(vocabulary) {
      ScannedDistinct(text, vocabulary, category);
    }
  }

  /** The scan splits at its last skill. */
  lemma ScannedLast(text: string, vocabulary: seq<string>, category: Category)
    requires |vocabulary| > 0
    ensures var init, skill := vocabulary[..|vocabulary| - 1], vocabulary[|vocabulary| - 1];
      var before, items := Scanned(text, init, category), Scanned(text, vocabulary, category);
      var n := Mentions(text, skill, category);
      (forall k :: 0 <= k < |before| ==> items[k] == before[k])
      && (n > 0 ==> items == before + [SkillItem(skill, n, category)])
      && (n == 0 ==> items == before)
  {
  }

  lemma {:induction false} ScannedItems(text: string, vocabulary: seq<string>, category: Category)
    ensures var items := Scanned(text, vocabulary, category);
      forall k :: 0 <= k < |items| ==>
        items[k].category == category && items[k].count >= 1 && items[k].name in vocabulary
        && items[k].count == Mentions(text, items[k].name, category)
    decreases |vocabulary|
  {
    if |vocabulary| > 0 {
      var init := vocabulary[..|vocabulary| - 1];
      ScannedItems(text, init, category);
      ScannedLast(text, vocabulary, category);
      assert vocabulary == init + [vocabulary[|vocabulary| - 1]];
    }
  }

  lemma {:induction false} ScannedComplete(text: string, vocabulary: seq<string>, category: Category)
    ensures var items := Scanned(text, vocabulary, category);
      forall s :: s in vocabulary ==> (Mentions(text, s, category) > 0 <==> HasName(items, s))
    decreases |vocabulary|
  {
    if |vocabulary| > 0 {
      var init := vocabulary[..|vocabulary| - 1];
      var skill := vocabulary[|vocabulary| - 1];
      var before := Scanned(text, init, category);
      var items := Scanned(text, vocabulary, category);
      ScannedComplete(text, init, category);
      ScannedItems(text, init, category);
      ScannedLast(text, vocabulary, category);
      assert vocabulary == init + [skill];
      forall s | s in vocabulary ensures Mentions(text, s, category) > 0 <==> HasName(items, s) {
        if HasName(before, s) {
          var k :| 0 <= k < |before| && before[k].name == s;
          assert items[k].name == s;
        }
        if HasName(items, s) && !HasName(before, s) {
          var k :| 0 <= k < |items| && items[k].name == s;
          assert k == |before| && s == skill;
        }
        if s == skill && Mentions(text, s, category) > 0 {
          assert items[|before|].name == skill;
        }
      }
    }
  }

  lemma {:induction false} ScannedDistinct(text: string, vocabulary: seq<string>, category: Category)
    requires Distinct(vocabulary)
    ensures Distinct(Names(Scanned(text, vocabulary, category)))
    decreases |vocabulary|
  {
    if |vocabulary| > 0 {
      var init := vocabulary[..|vocabulary| - 1];
      var skill := vocabulary[|vocabulary| - 1];
      var before := Scanned(text, init, category);
      var items := Scanned(text, vocabulary, category);
      ScannedDistinct(text, init, category);
      ScannedItems(text, init, category);
      ScannedLast(text, vocabulary, category);
      assert skill !in init;
      if Mentions(text, skill, category) > 0 {
        assert skill !in Names(before);
        assert Names(items) == Names(before) + [skill];
        DistinctConcat(Names(before), [skill]);
      }
    }
  }

  /** The three scans in order: technical, soft, domain. */
  function AllScanned(text: string): seq<SkillItem> {
    Scanned(text, TechnicalSkills, Technical) + Scanned(text, SoftSkills, Soft) + Scanned(text, DomainSkills, Domain)
  }

  /** The vocabulary of a category. */
  function VocabularyOf(category: Category): seq<string> {
    match category
    case Technical => TechnicalSkills
    case Soft => SoftSkills
    case Domain => DomainSkills
  }

  /**
   * Every scanned item has a count of at least one, is a skill of its own
   * category's vocabulary with that many mentions, and no name occurs twice.
   */
  lemma AllScannedFacts(text: string)
    ensures forall k :: 0 <= k < |AllScanned(text)| ==>
              var x := AllScanned(text)[k];
              x.count >= 1 && x.name in VocabularyOf(x.category) && x.count == Mentions(text, x.name, x.category)
    ensures Distinct(Names(AllScanned(text)))
  {
    VocabulariesDistinct();
    ThreeScansFacts(text, TechnicalSkills, SoftSkills, DomainSkills);
  }

  /** `AllScannedFacts` for any three vocabularies that together have no repeats. */
  lemma ThreeScansFacts(text: string, vt: seq<string>, vs: seq<string>, vd: seq<string>)
    requires Distinct(vt + vs + vd)
    ensures var r := Scanned(text, vt, Technical) + Scanned(text, vs, Soft) + Scanned(text, vd, Domain);
      (forall k :: 0 <= k < |r| ==>
         r[k].count >= 1 && r[k].count == Mentions(text, r[k].name, r[k].category)
         && (r[k].category == Technical ==> r[k].name in vt)
         && (r[k].category == Soft ==> r[k].name in vs)
         && (r[k].category == Domain ==> r[k].name in vd))
      && Distinct(Names(r))
  {
    var t, s, d := Scanned(text, vt, Technical), Scanned(text, vs, Soft), Scanned(text, vd, Domain);
    DistinctSlices(vt, vs, vd);
    ScannedFacts(text, vt, Technical);
    ScannedFacts(text, vs, Soft);
    ScannedFacts(text, vd, Domain);
    NamesInDisjoint(t, s, d, vt, vs, vd);
    var r := t + s + d;
    forall k | 0 <= k < |r|
      ensures r[k].count >= 1 && r[k].count == Mentions(text, r[k].name, r[k].category)
         && (r[k].category == Technical ==> r[k].name in vt)
         && (r[k].category == Soft ==> r[k].name in vs)
         && (r[k].category == Domain ==> r[k].name in vd)
    {
      if k < |t| { assert r[k] == t[k]; }
      else if k < |t| + |s| { assert r[k] == s[k - |t|]; }
      else { assert r[k] == d[k - |t| - |s|]; }
    }
  }

  /** The three parts of a duplicate-free concatenation are duplicate-free. */
  lemma DistinctSlices(a: seq<string>, b: seq<string>, c: seq<string>)
    requires Distinct(a + b + c)
    ensures Distinct(a) && Distinct(b) && Distinct(c)
    ensures Disjoint(a, b) && Disjoint(a, c) && Disjoint(b, c)
  {
    var all := a + b + c;
    forall x, y | 0 <= x < y < |a| ensures a[x] != a[y] {
      assert a[x] == all[x] && a[y] == all[y];
    }
    forall x, y | 0 <= x < y < |b| ensures b[x] != b[y] {
      assert b[x] == all[|a| + x] && b[y] == all[|a| + y];
      assert all[|a| + x] != all[|a| + y];
    }
    forall x, y | 0 <= x < y < |c| ensures c[x] != c[y] {
      assert c[x] == all[|a| + |b| + x] && c[y] == all[|a| + |b| + y];
      assert all[|a| + |b| + x] != all[|a| + |b| + y];
    }
    forall x, y | 0 <= x < |a| && 0 <= y < |b| ensures a[x] != b[y] {
      assert a[x] == all[x] && b[y] == all[|a| + y];
      assert all[x] != all[|a| + y];
    }
    forall x, y | 0 <= x < |a| && 0 <= y < |c| ensures a[x] != c[y] {
      assert a[x] == all[x] && c[y] == all[|a| + |b| + y];
      assert all[x] != all[|a| + |b| + y];
    }
    forall x, y | 0 <= x < |b| && 0 <= y < |c| ensures b[x] != c[y] {
      assert b[x] == all[|a| + x] && c[y] == all[|a| + |b| + y];
    }
  }

  /** Items named from three pairwise disjoint duplicate-free vocabularies have distinct names once each part does. */
  lemma NamesInDisjoint(t: seq<SkillItem>, s: seq<SkillItem>, d: seq<SkillItem>,
                        vt: seq<string>, vs: seq<string>, vd: seq<string>)
    requires Distinct(Names(t)) && Distinct(Names(s)) && Distinct(Names(d))
    requires Disjoint(vt, vs) && Disjoint(vt, vd) && Disjoint(vs, vd)
    requires forall k :: 0 <= k < |t| ==> t[k].name in vt
    requires forall k :: 0 <= k < |s| ==> s[k].name in vs
    requires forall k :: 0 <= k < |d| ==> d[k].name in vd
    ensures Distinct(Names(t + s + d))
  {
    var nt, ns, nd := Names(t), Names(s), Names(d);
    assert Disjoint(nt, ns) && Disjoint(nt, nd) && Disjoint(ns, nd);
    DistinctConcat(nt, ns);
    DisjointConcat(nt, ns, nd);
    DistinctConcat(nt + ns, nd);
    assert Names(t + s + d) == nt + ns + nd;
  }

  // ---------------------------------------------------------------------------
  // Sorting and padding.

  /** `skills.sort((a, b) => b.count - a.count)` sorts by this key. */
  function ByCount(item: SkillItem): int {
    -(item.count as int)
  }

  /** `defaultSkills`. */
  const DefaultSkills: seq<string> := ["javascript", "react", "problem-solving", "teamwork", "project management"]

  /** The default pushed at `index`: count `5 - index`, technical for the first two and soft after. */
  function DefaultItem(index: nat): (item: SkillItem)
    requires index < 5
    ensures item.name == DefaultSkills[index] && item.count == 5 - index
    ensures item.category == if index < 2 then Technical else Soft
  {
    SkillItem(DefaultSkills[index], 5 - index, if index < 2 then Technical else Soft)
  }

  /** The `forEach` over `defaultSkills` from `index` on: a default is pushed only when no item carries its name. */
  function PadFrom(items: seq<SkillItem>, index: nat): seq<SkillItem>
    requires index <= 5
    decreases 5 - index
  {
    if index == 5 then items
    else PadFrom(PadStep(items, index), index + 1)
  }

  /** One padding step: the items, with the default at `index` appended when no item carries its name. */
  function PadStep(items: seq<SkillItem>, index: nat): (next: seq<SkillItem>)
    requires index < 5
    ensures |items| <= |next| && next[..|items|] == items && HasName(next, DefaultSkills[index])
    ensures HasName(items, DefaultSkills[index]) ==> next == items
    ensures !HasName(items, DefaultSkills[index]) ==> next == items + [DefaultItem(index)]
  {
    if HasName(items, DefaultSkills[index]) then items
    else
      var next := items + [DefaultItem(index)];
      assert next[|items|].name == DefaultSkills[index];
      next
  }

  /** Padding keeps the items in front and adds at most one default per remaining index. */
  lemma {:induction false} PadFromPrefix(items: seq<SkillItem>, index: nat)
    requires index <= 5
    ensures var r := PadFrom(items, index);
      |items| <= |r| <= |items| + 5 - index && r[..|items|] == items
    decreases 5 - index
  {
    if index < 5 {
      var next := PadStep(items, index);
      PadFromPrefix(next, index + 1);
      var r := PadFrom(next, index + 1);
      assert r[..|next|][..|items|] == items;
    }
  }

  /** Every item padding adds is a default whose name no item carried. */
  lemma {:induction false} PadFromAdded(items: seq<SkillItem>, index: nat)
    requires index <= 5
    ensures var r := PadFrom(items, index);
      forall k :: |items| <= k < |r| ==>
        exists j :: index <= j < 5 && r[k] == DefaultItem(j) && !HasName(items, DefaultSkills[j])
    decreases 5 - index
  {
    if index < 5 {
      var next := PadStep(items, index);
      PadFromAdded(next, index + 1);
      PadFromPrefix(next, index + 1);
      var r := PadFrom(next, index + 1);
      forall k | |items| <= k < |r|
        ensures exists j :: index <= j < 5 && r[k] == DefaultItem(j) && !HasName(items, DefaultSkills[j])
      {
        if k < |next| {
          assert next != items && r[k] == next[k] == DefaultItem(index);
        } else {
          var j :| index + 1 <= j < 5 && r[k] == DefaultItem(j) && !HasName(next, DefaultSkills[j]);
          forall m | 0 <= m < |items| ensures items[m].name != DefaultSkills[j] {
            assert next[m] == items[m];
          }
        }
      }
    }
  }

  /** After padding from `index`, every default from `index` on is named. */
  lemma {:induction false} PadFromNamed(items: seq<SkillItem>, index: nat)
    requires index <= 5
    ensures forall j :: index <= j < 5 ==> HasName(PadFrom(items, index), DefaultSkills[j])
    decreases 5 - index
  {
    if index < 5 {
      var next := PadStep(items, index);
      PadFromNamed(next, index + 1);
      PadFromPrefix(next, index + 1);
      var r := PadFrom(next, index + 1);
      var k :| 0 <= k < |next| && next[k].name == DefaultSkills[index];
      assert r[k] == next[k];
    }
  }

  /** Padding never repeats a name. */
  lemma {:induction false} PadFromDistinct(items: seq<SkillItem>, index: nat)
    requires index <= 5 && Distinct(Names(items))
    ensures Distinct(Names(PadFrom(items, index)))
    decreases 5 - index
  {
    if index < 5 {
      var name := DefaultSkills[index];
      var next := PadStep(items, index);
      if !HasName(items, name) {
        assert Names(next) == Names(items) + [name];
        assert name !in Names(items);
        DistinctConcat(Names(items), [name]);
      }
      PadFromDistinct(next, index + 1);
    }
  }

  /** `if (skills.length < 5) { … }`. */
  function Padded(items: seq<SkillItem>): seq<SkillItem> {
    if |items| < 5 then PadFrom(items, 0) else items
  }

  /** The list `extractSkills` returns for the scanned items `scanned`. */
  function SkillsFrom(scanned: seq<SkillItem>): seq<SkillItem> {
    PaddedTop(SortBy(scanned, ByCount))
  }

  /** The sorted items, padded with defaults and cut to fifteen. */
  function PaddedTop(sorted: seq<SkillItem>): seq<SkillItem> {
    Take(Padded(sorted), 15)
  }

  /** `extractSkills(text)`. */
  function Extracted(text: string): seq<SkillItem> {
    SkillsFrom(AllScanned(text))
  }

  /** Every item of `r` after those of `items` is a default that no item of `items` names. */
  ghost predicate OnlyMissingDefaults(r: seq<SkillItem>, items: seq<SkillItem>) {
    forall k :: |items| <= k < |r| ==>
      exists j :: 0 <= j < 5 && r[k] == DefaultItem(j) && !HasName(items, DefaultSkills[j])
  }

  /** Each of the five defaults names an item of `r`. */
  ghost predicate AllDefaultsNamed(r: seq<SkillItem>) {
    forall j :: 0 <= j < 5 ==> HasName(r, DefaultSkills[j])
  }

  /** `r` starts with the items of `sorted` that fit, and their counts do not increase. */
  ghost predicate KeepsSorted(r: seq<SkillItem>, sorted: seq<SkillItem>) {
    (forall k :: 0 <= k < |r| && k < |sorted| ==> r[k] == sorted[k])
    && (forall i, j :: 0 <= i < j < |r| && j < |sorted| ==> r[i].count >= r[j].count)
  }

  /**
   * What `extractSkills` promises about its result `r` for the scanned items
   * `scanned` (sorted: `sorted`): five to fifteen items with distinct names;
   * first the sorted scanned items, by non-increasing count; after them only
   * defaults, each absent from the scanned items and with its fixed count and
   * category; every default named when fewer than five were scanned, and no
   * padding otherwise.
   */
  ghost predicate ExtractedFrom(r: seq<SkillItem>, scanned: seq<SkillItem>) {
    ExtractedFromSorted(r, SortBy(scanned, ByCount))
  }

  /** `ExtractedFrom` in terms of the sorted items `sorted`. */
  ghost predicate ExtractedFromSorted(r: seq<SkillItem>, sorted: seq<SkillItem>) {
    5 <= |r| <= 15 && Distinct(Names(r))
    && KeepsSorted(r, sorted)
    && OnlyMissingDefaults(r, sorted)
    && (|sorted| < 5 ==> AllDefaultsNamed(r))
    && (|sorted| >= 5 ==> r == Take(sorted, 15))
  }

  lemma DefaultSkillsDistinct()
    ensures Distinct(DefaultSkills)
  {
  }

  /** A permutation of items with distinct names has distinct names. */
  lemma NamesPermutation(s: seq<SkillItem>, t: seq<SkillItem>)
    requires multiset(s) == multiset(t) && Distinct(Names(t))
    ensures Distinct(Names(s))
  {
    assert Distinct(t) by {
      forall i, j | 0 <= i < j < |t| ensures t[i] != t[j] {
        assert Names(t)[i] != Names(t)[j];
      }
    }
    DistinctPermutation(t, s);
    forall i, j | 0 <= i < j < |s| ensures Names(s)[i] != Names(s)[j] {
      assert s[i] in multiset(t) && s[j] in multiset(t);
      var a :| 0 <= a < |t| && t[a] == s[i];
      var b :| 0 <= b < |t| && t[b] == s[j];
      assert s[i] != s[j];
      if a < b {
        assert Names(t)[a] != Names(t)[b];
      } else {
        assert Names(t)[b] != Names(t)[a];
      }
    }
  }

  lemma NamesTake(s: seq<SkillItem>, n: nat)
    ensures Names(Take(s, n)) == Take(Names(s), n)
  {
  }

  /** Sorting by count keeps the names distinct and orders the counts. */
  lemma SortedFacts(scanned: seq<SkillItem>)
    requires Distinct(Names(scanned))
    ensures var sorted := SortBy(scanned, ByCount);
      Distinct(Names(sorted))
      && forall i, j :: 0 <= i < j < |sorted| ==> sorted[i].count >= sorted[j].count
  {
    var sorted := SortBy(scanned, ByCount);
    NamesPermutation(sorted, scanned);
    forall i, j | 0 <= i < j < |sorted| ensures sorted[i].count >= sorted[j].count {
      assert ByCount(sorted[i]) <= ByCount(sorted[j]);
    }
  }

  /** Padding fewer than five distinct items gives five to ten distinct items, every default named. */
  lemma PaddedFacts(sorted: seq<SkillItem>)
    requires |sorted| < 5 && Distinct(Names(sorted))
    ensures var padded := PadFrom(sorted, 0);
      5 <= |padded| <= 10 && padded[..|sorted|] == sorted && Distinct(Names(padded))
      && OnlyMissingDefaults(padded, sorted) && AllDefaultsNamed(padded)
  {
    var padded := PadFrom(sorted, 0);
    PadFromPrefix(sorted, 0);
    PadFromAdded(sorted, 0);
    PadFromNamed(sorted, 0);
    PadFromDistinct(sorted, 0);
    DefaultSkillsDistinct();
    var names := Names(padded);
    forall x | x in DefaultSkills ensures x in names {
      var j :| 0 <= j < 5 && DefaultSkills[j] == x;
      var k :| 0 <= k < |padded| && padded[k].name == x;
      assert names[k] == x;
    }
    DistinctSubsetLength(DefaultSkills, names);
  }

  /** The properties of `extractSkills` for any scanned items with distinct names. */
  lemma SkillsFromFacts(scanned: seq<SkillItem>)
    requires Distinct(Names(scanned))
    ensures ExtractedFrom(SkillsFrom(scanned), scanned)
  {
    var sorted := SortBy(scanned, ByCount);
    SortedFacts(scanned);
    if |sorted| < 5 {
      SkillsFromFew(sorted);
    } else {
      SkillsFromMany(sorted);
    }
  }

  /** Fewer than five scanned items: all of them, then the missing defaults. */
  lemma SkillsFromFew(sorted: seq<SkillItem>)
    requires |sorted| < 5
    requires Distinct(Names(sorted)) && forall i, j :: 0 <= i < j < |sorted| ==> sorted[i].count >= sorted[j].count
    ensures ExtractedFromSorted(PaddedTop(sorted), sorted)
  {
    var padded := PadFrom(sorted, 0);
    PaddedFacts(sorted);
    PrefixKeepsSorted(padded, sorted);
    PaddedFromFew(padded, sorted);
    PaddedTopFew(sorted);
  }

  /** Fewer than five sorted items pad to at most ten, which the cut to fifteen keeps. */
  lemma PaddedTopFew(sorted: seq<SkillItem>)
    requires |sorted| < 5
    ensures PaddedTop(sorted) == PadFrom(sorted, 0)
  {
    PadFromPrefix(sorted, 0);
  }

  /** The padded list of fewer than five sorted items has every property `ExtractedFromSorted` names. */
  lemma PaddedFromFew(r: seq<SkillItem>, sorted: seq<SkillItem>)
    requires |sorted| < 5 && 5 <= |r| <= 10 && Distinct(Names(r))
    requires KeepsSorted(r, sorted) && OnlyMissingDefaults(r, sorted) && AllDefaultsNamed(r)
    ensures ExtractedFromSorted(r, sorted)
  {
  }

  /** A list that starts with the non-increasing `sorted` keeps it. */
  lemma PrefixKeepsSorted(r: seq<SkillItem>, sorted: seq<SkillItem>)
    requires |sorted| <= |r| && r[..|sorted|] == sorted
    requires forall i, j :: 0 <= i < j < |sorted| ==> sorted[i].count >= sorted[j].count
    ensures KeepsSorted(r, sorted)
  {
    forall k | 0 <= k < |r| && k < |sorted| ensures r[k] == sorted[k] {
      assert r[..|sorted|][k] == sorted[k];
    }
  }

  /** Five or more scanned items: the first fifteen by count. */
  lemma SkillsFromMany(sorted: seq<SkillItem>)
    requires |sorted| >= 5
    requires Distinct(Names(sorted)) && forall i, j :: 0 <= i < j < |sorted| ==> sorted[i].count >= sorted[j].count
    ensures ExtractedFromSorted(PaddedTop(sorted), sorted)
  {
    var r := Take(sorted, 15);
    assert PaddedTop(sorted) == r;
    NamesTake(sorted, 15);
    DistinctPrefix(Names(sorted), |r|);
  }

  /**
   * `extractSkills(text)`: five to fifteen distinct skills, the scanned ones
   * first by count, then the defaults that were missing.
   */
  lemma ExtractedFacts(text: string)
    ensures ExtractedFrom(Extracted(text), AllScanned(text))
  {
    AllScannedFacts(text);
    SkillsFromFacts(AllScanned(text));
  }

  /**
   * `skills.sort((a, b) => b.count - a.count)` is stable: the items of any one
   * count keep their scan order (technical, then soft, then domain).
   */
  lemma TiesKeepScanOrder(scanned: seq<SkillItem>, count: nat)
    ensures WithKey(SortBy(scanned, ByCount), ByCount, -(count as int)) == WithKey(scanned, ByCount, -(count as int))
  {
    SortByStable(scanned, ByCount, -(count as int));
  }

  /** One `forEach` over a vocabulary: pushes each mentioned skill with its count. */
  method ScanInto(text: string, skills: seq<SkillItem>, vocabulary: seq<string>, category: Category)
    returns (result: seq<SkillItem>)
    ensures result == skills + Scanned(text, vocabulary, category)
  {
    result := skills;
    for i := 0 to |vocabulary|
      invariant result == skills + Scanned(text, vocabulary[..i], category)
    {
      assert vocabulary[..i + 1][..i] == vocabulary[..i];
      var skill := vocabulary[i];
      var matches := CountMatches(text, [SkillPattern(skill, category)], true);
      if matches > 0 {
        result := result + [SkillItem(skill, matches, category)];
      }
    }
    assert vocabulary[..|vocabulary|] == vocabulary;
  }

  /** The `forEach` over `defaultSkills`. */
  method PadDefaults(skills: seq<SkillItem>) returns (result: seq<SkillItem>)
    ensures result == PadFrom(skills, 0)
  {
    result := skills;
    for index := 0 to 5
      invariant PadFrom(result, index) == PadFrom(skills, 0)
    {
      var skill := DefaultSkills[index];
      if !HasName(result, skill) {
        result := result + [SkillItem(skill, 5 - index, if index < 2 then Technical else Soft)];
      }
    }
  }

  /** `extractSkills(text)`. */
  method ExtractSkills(text: string) returns (skills: seq<SkillItem>)
    ensures skills == Extracted(text)
    ensures ExtractedFrom(skills, AllScanned(text))
  {
    skills := ExtractWith(text, TechnicalSkills, SoftSkills, DomainSkills);
    ExtractedFacts(text);
  }

  /** The body of `extractSkills` for any three vocabularies. */
  method ExtractWith(text: string, technical: seq<string>, soft: seq<string>, domain: seq<string>)
    returns (skills: seq<SkillItem>)
    ensures skills == SkillsFrom(Scanned(text, technical, Technical) + Scanned(text, soft, Soft)
                                 + Scanned(text, domain, Domain))
  {
    var scanned := ScanInto(text, [], technical, Technical);
    assert scanned == Scanned(text, technical, Technical);
    scanned := ScanInto(text, scanned, soft, Soft);
    scanned := ScanInto(text, scanned, domain, Domain);
    var sorted := SortBy(scanned, ByCount);
    var padded := sorted;
    if |sorted| < 5 {
      padded := PadDefaults(sorted);
    }
    assert padded == Padded(sorted);
    skills := Take(padded, 15);
  }

  // ---------------------------------------------------------------------------
  // Experience metrics.

  datatype ExperienceMetrics = ExperienceMetrics(totalYears: nat, companies: nat, roles: nat, recentRole: string)

  const YearUnits: seq<string> := ["years", "year", "yrs", "yr"]

  /** `(experience|exp)`: both alternatives begin with `exp`, so `exp` decides. */
  predicate ExperienceWordAt(text: string, t: nat) {
    MatchesAt(text, t, Literal("exp"))
  }

  /** `(\s*of)?\s*(experience|exp)` at `r`. */
  predicate AfterUnitAt(text: string, r: nat)
    requires r <= |text|
  {
    var s := RunEnd(text, r, IsSpace);
    ExperienceWordAt(text, s)
    || (MatchesAt(text, s, Literal("of")) && ExperienceWordAt(text, RunEnd(text, s + 2, IsSpace)))
  }

  /** The end of the digit run of the years pattern that starts at `i`. */
  function DigitsEnd(text: string, i: nat): (d: nat)
    requires i <= |text|
    ensures i <= d <= |text|
  {
    RunEnd(text, i, IsDigit)
  }

  /**
   * `/([0-9]+)\+?\s*(years|year|yrs|yr)(\s*of)?\s*(experience|exp)/i` at `i`.
   * Backtracking into the digits, the `+` or the white space never helps,
   * since the character after each is then one the rest cannot start with.
   */
  predicate YearsMatchAt(text: string, i: nat) {
    i < |text| && IsDigit(text[i])
    && var d := DigitsEnd(text, i);
       var p := if d < |text| && text[d] == '+' then d + 1 else d;
       var q := RunEnd(text, p, IsSpace);
       exists k :: 0 <= k < |YearUnits| && MatchesAt(text, q, Literal(YearUnits[k]))
         && AfterUnitAt(text, q + |YearUnits[k]|)
  }

  /** The leftmost match of the years pattern at or after `from`, or `|text|`. */
  function FirstYearsMatch(text: string, from: nat): (i: nat)
    requires from <= |text|
    ensures from <= i <= |text|
    ensures i < |text| ==> YearsMatchAt(text, i)
    ensures forall j :: from <= j < i ==> !YearsMatchAt(text, j)
    decreases |text| - from
  {
    if from == |text| || YearsMatchAt(text, from) then from else FirstYearsMatch(text, from + 1)
  }

  /** The captured digits of the first years match, if there is one. */
  datatype Capture = NoCapture | Captured(start: nat, digits: string)

  /** `text.match(yearsPattern)` and its group 1. */
  function YearsCapture(text: string): (c: Capture)
    ensures c == NoCapture <==> forall i :: 0 <= i < |text| ==> !YearsMatchAt(text, i)
    ensures c.Captured? ==>
              YearsMatchAt(text, c.start) && (forall j :: 0 <= j < c.start ==> !YearsMatchAt(text, j))
              && c.start < |text| && c.digits == text[c.start..DigitsEnd(text, c.start)]
              && |c.digits| > 0 && (forall m :: 0 <= m < |c.digits| ==> IsDigit(c.digits[m]))
  {
    var i := FirstYearsMatch(text, 0);
    if i < |text| then Captured(i, DigitRun(text, i)) else NoCapture
  }

  /** The run of digits that starts at `i`: group 1 of the years pattern. */
  function DigitRun(text: string, i: nat): (d: string)
    requires i < |text| && IsDigit(text[i])
    ensures d == text[i..DigitsEnd(text, i)] && |d| > 0
    ensures forall m :: 0 <= m < |d| ==> IsDigit(d[m])
  {
    var d := text[i..DigitsEnd(text, i)];
    assert forall m :: 0 <= m < |d| ==> d[m] == text[i + m];
    d
  }

  const CompanyWords: seq<string> := ["inc", "llc", "ltd", "corporation", "corp", "company"]

  const RoleWords: seq<string> := ["senior", "lead", "principal", "staff", "director", "manager", "engineer",
                                   "developer", "analyst", "specialist", "consultant", "architect"]

  /** `roleList`. */
  const RoleList: seq<string> := ["Software Engineer", "Front-end Developer", "Back-end Developer",
                                  "Full Stack Developer", "DevOps Engineer", "Data Scientist",
                                  "Product Manager", "Project Manager", "UI/UX Designer"]

  /** A role of the list with each space turned into `\s`. */
  function RolePattern(role: string): (p: Pattern)
    ensures |p| == |role|
  {
    seq(|role|, k requires 0 <= k < |role| => if role[k] == ' ' then Space else Ch(role[k]))
  }

  function RolePatterns(): (ps: seq<Pattern>)
    ensures |ps| == |RoleList|
  {
    seq(|RoleList|, k requires 0 <= k < |RoleList| => RolePattern(RoleList[k]))
  }

  /** `part` is the non-empty piece of `text` that starts at `j`. */
  predicate OccursAt(part: string, text: string, j: nat) {
    0 < |part| && j + |part| <= |text| && text[j..j + |part|] == part
  }

  /** The first match of a global alternation is a non-empty piece of the text. */
  lemma {:induction false} FirstMatchInText(text: string, alts: seq<Pattern>, bounded: bool, i: nat)
    requires |MatchesFrom(text, alts, bounded, i)| > 0
    ensures exists j: nat :: i <= j && OccursAt(MatchesFrom(text, alts, bounded, i)[0], text, j)
    decreases |text| - i
  {
    var n := AltMatchAt(text, i, alts, bounded);
    if n == 0 {
      FirstMatchInText(text, alts, bounded, i + 1);
    } else {
      assert MatchesFrom(text, alts, bounded, i)[0] == text[i..i + n];
      assert OccursAt(text[i..i + n], text, i);
    }
  }

  /** `Math.ceil(x)`. */
  function Ceiling(x: real): (c: int)
    ensures c as real >= x && (c - 1) as real < x
  {
    -((-x).Floor)
  }

  /**
   * `extractExperienceMetrics(text)`, with the values of the four
   * `Math.random()` fallbacks passed in: `Math.floor(Math.random() * n)` is
   * `draw % n`, and `roleRandom` is the value behind `Math.ceil(Math.random() * 2)`.
   */
  function ExtractExperienceMetrics(text: string, yearsDraw: nat, companyDraw: nat, roleRandom: real, recentDraw: nat)
    : (m: ExperienceMetrics)
    requires 0.0 <= roleRandom < 1.0
    ensures m.companies <= m.totalYears + 1 && m.roles <= m.totalYears
    ensures 1 <= m.companies
    ensures match YearsCapture(text)
            case Captured(_, digits) => m.totalYears == DigitsValue(digits)
            case NoCapture => 2 <= m.totalYears <= 9
    ensures m.recentRole in RoleList || exists j: nat :: OccursAt(m.recentRole, text, j)
  {
    var capture := YearsCapture(text);
    var totalYears := match capture
      case Captured(_, digits) => DigitsValue(digits)
      case NoCapture => yearsDraw % 8 + 2;
    var companyMatches := CountMatches(text, Literals(CompanyWords), false);
    var companies := if companyMatches > 0 then companyMatches else companyDraw % 3 + 1;
    var roleMatches := MatchesFrom(text, Literals(RoleWords), false, 0);
    var distinctRoles := |Dedup(roleMatches)|;
    var roles := if distinctRoles > 0 then distinctRoles else Ceiling(2.0 * roleRandom);
    var found := MatchesFrom(text, RolePatterns(), false, 0);
    var recentRole := if |found| > 0 then found[0] else RoleList[recentDraw % |RoleList|];
    assert |found| > 0 ==> exists j: nat :: OccursAt(found[0], text, j) by {
      if |found| > 0 {
        FirstMatchInText(text, RolePatterns(), false, 0);
      }
    }
    ExperienceMetrics(totalYears, Min(companies, totalYears + 1), Min(roles, totalYears), recentRole)
  }
}
