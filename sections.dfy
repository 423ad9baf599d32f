/**
 * The `sectionFeedback` dictionary: a JavaScript object whose keys keep their
 * insertion order (none of the engine's keys is an array index). Assigning
 * `sections[k] = v` replaces the value of an existing key in place and
 * appends a new key at the end; reading an absent key gives `undefined`,
 * which the engine only ever tests for truthiness, so `Lookup` returns ""
 * for it.
 */
module Sections {
  import opened Text
  import opened Lists

  type Entries = seq<(string, string)>

  function Keys(e: Entries): (ks: seq<string>)
    ensures |ks| == |e|
    ensures forall i :: 0 <= i < |e| ==> ks[i] == e[i].0
  {
    seq(|e|, i requires 0 <= i < |e| => e[i].0)
  }

  predicate UniqueKeys(e: Entries) {
    Distinct(Keys(e))
  }

  predicate HasKey(e: Entries, k: string) {
    k in Keys(e)
  }

  /** `sections[k]`, with "" for an absent key. */
  function Lookup(e: Entries, k: string): string {
    if e == [] then ""
    else if e[|e| - 1].0 == k then e[|e| - 1].1
    else Lookup(e[..|e| - 1], k)
  }

  /** `sections[k]` is truthy. */
  predicate Has(e: Entries, k: string) {
    Lookup(e, k) != ""
  }

  /** `sections[k] = v`. */
  function Put(e: Entries, k: string, v: string): (r: Entries)
    ensures Lookup(r, k) == v
    ensures forall k' :: k' != k ==> Lookup(r, k') == Lookup(e, k')
    ensures HasKey(e, k) ==> Keys(r) == Keys(e)
    ensures !HasKey(e, k) ==> r == e + [(k, v)]
    ensures !HasKey(e, k) ==> Keys(r) == Keys(e) + [k]
    ensures UniqueKeys(e) ==> UniqueKeys(r)
  {
    if HasKey(e, k) then
      var r := seq(|e|, i requires 0 <= i < |e| => if e[i].0 == k then (k, v) else e[i]);
      PutLookup(e, k, v, r);
      assert Keys(r) == Keys(e);
      r
    else
      var r := e + [(k, v)];
      assert r[..|r| - 1] == e;
      assert Keys(r) == Keys(e) + [k];
      assert UniqueKeys(e) ==> Distinct(Keys(e) + [k]) by {
        if UniqueKeys(e) { DistinctConcat(Keys(e), [k]); }
      }
      r
  }

  lemma {:induction false} PutLookup(e: Entries, k: string, v: string, r: Entries)
    requires HasKey(e, k) && |r| == |e|
    requires forall i :: 0 <= i < |e| ==> r[i] == if e[i].0 == k then (k, v) else e[i]
    ensures Lookup(r, k) == v
    ensures forall k' :: k' != k ==> Lookup(r, k') == Lookup(e, k')
  {
    var n := |e|;
    var e', r' := e[..n - 1], r[..n - 1];
    if e[n - 1].0 == k {
      LookupUnchanged(e', r', k);
    } else {
      assert k in Keys(e');
      PutLookup(e', k, v, r');
    }
  }

  lemma {:induction false} LookupUnchanged(e: Entries, r: Entries, k: string)
    requires |r| == |e|
    requires forall i :: 0 <= i < |e| ==> r[i] == if e[i].0 == k then (k, r[i].1) else e[i]
    ensures forall k' :: k' != k ==> Lookup(r, k') == Lookup(e, k')
  {
    if e != [] {
      var n := |e|;
      LookupUnchanged(e[..n - 1], r[..n - 1], k);
    }
  }

  lemma {:induction false} LookupPresent(e: Entries, k: string)
    requires Lookup(e, k) != ""
    ensures HasKey(e, k)
  {
    if e[|e| - 1].0 != k {
      LookupPresent(e[..|e| - 1], k);
      assert Keys(e[..|e| - 1]) == Keys(e)[..|e| - 1];
    }
  }

  /** Some key equals `name` under ASCII case folding (`key.toLowerCase() === name.toLowerCase()`). */
  predicate HasKeyCI(e: Entries, name: string) {
    exists i :: 0 <= i < |e| && Lower(e[i].0) == Lower(name)
  }

  /** Appending an entry keeps every case-insensitive key match and adds one for the new key. */
  lemma HasKeyCIAppend(e: Entries, k: string, v: string)
    ensures forall name :: HasKeyCI(e, name) ==> HasKeyCI(e + [(k, v)], name)
    ensures HasKeyCI(e + [(k, v)], k)
  {
    var r := e + [(k, v)];
    assert r[|e|] == (k, v);
    forall name | HasKeyCI(e, name) ensures HasKeyCI(r, name) {
      var j :| 0 <= j < |e| && Lower(e[j].0) == Lower(name);
      assert r[j] == e[j];
    }
  }

  /** No entry from `lo` on equals an earlier key up to case. */
  predicate FreshFrom(e: Entries, lo: nat) {
    forall j :: lo <= j < |e| ==> !HasKeyCI(e[..j], e[j].0)
  }

  lemma FreshFromAppend(e: Entries, lo: nat, k: string, v: string)
    requires FreshFrom(e, lo) && !HasKeyCI(e, k)
    ensures FreshFrom(e + [(k, v)], lo)
  {
    var r := e + [(k, v)];
    forall j | lo <= j < |r| ensures !HasKeyCI(r[..j], r[j].0) {
      if j < |e| {
        assert r[..j] == e[..j];
      } else {
        assert r[..j] == e;
      }
    }
  }

  const SummaryKey := "Professional Summary"
  const ExperienceKey := "Work Experience"
  const SkillsKey := "Skills"
  const EducationKey := "Education"
  const ProjectsKey := "Projects"
  const CertificationsKey := "Certifications"
  const TechnicalSkillsKey := "Technical Skills"

  /** The four keys every analysed résumé's feedback carries. */
  predicate HasCanonicalKeys(e: Entries) {
    Has(e, SummaryKey) && Has(e, ExperienceKey) && Has(e, SkillsKey) && Has(e, EducationKey)
  }
}
