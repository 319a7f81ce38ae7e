/** Medicine names out of the named entities found in the prescription text
    (`extract_medicines`). The entity recogniser itself is a parameter: the model starts
    from the entities it reports, in document order. */
module Medicines {
  /** A named entity: its text and its label (`tag`). */
  datatype Span = Span(text: string, tag: string)

  /** The label taken to mark a medicine name. */
  const OrgLabel: string := "ORG"

  const NoMedicinesDetected: string := "No medicines detected"

  predicate IsOrg(e: Span) {
    e.tag == OrgLabel
  }

  /** The texts of the `ORG` entities, in order. */
  function OrgTexts(ents: seq<Span>): (r: seq<string>)
    ensures |r| <= |ents|
    decreases |ents|
  {
    if ents == [] then []
    else (if IsOrg(ents[0]) then [ents[0].text] else []) + OrgTexts(ents[1..])
  }

  /** Filtering a concatenation filters each part. */
  lemma {:induction false} OrgTextsAppend(a: seq<Span>, b: seq<Span>)
    ensures OrgTexts(a + b) == OrgTexts(a) + OrgTexts(b)
    decreases |a|
  {
    if a == [] {
      assert a + b == b;
    } else {
      var head := if IsOrg(a[0]) then [a[0].text] else [];
      assert (a + b)[0] == a[0];
      assert (a + b)[1..] == a[1..] + b;
      assert OrgTexts(a + b) == head + OrgTexts(a[1..] + b);
      OrgTextsAppend(a[1..], b);
      assert head + (OrgTexts(a[1..]) + OrgTexts(b)) == (head + OrgTexts(a[1..])) + OrgTexts(b);
    }
  }

  /** A text is kept exactly when some `ORG` entity carries it. */
  lemma {:induction false} OrgTextsMembers(ents: seq<Span>, t: string)
    ensures t in OrgTexts(ents) <==> exists k :: 0 <= k < |ents| && IsOrg(ents[k]) && ents[k].text == t
    decreases |ents|
  {
    if ents != [] {
      OrgTextsMembers(ents[1..], t);
      assert forall k :: 1 <= k < |ents| ==> ents[k] == ents[1..][k - 1];
      if t in OrgTexts(ents[1..]) {
        var k :| 0 <= k < |ents[1..]| && IsOrg(ents[1..][k]) && ents[1..][k].text == t;
        assert ents[k + 1] == ents[1..][k];
      }
    }
  }

  /** An empty result means that no entity is labelled `ORG`. */
  lemma {:induction false} OrgTextsEmpty(ents: seq<Span>)
    ensures OrgTexts(ents) == [] <==> forall k :: 0 <= k < |ents| ==> !IsOrg(ents[k])
    decreases |ents|
  {
    if ents != [] {
      OrgTextsEmpty(ents[1..]);
      assert forall k :: 1 <= k < |ents| ==> ents[k] == ents[1..][k - 1];
    }
  }

  /** `extract_medicines`: the `ORG` texts, or the single sentinel when there are none. */
  function ExtractMedicines(ents: seq<Span>): (r: seq<string>)
    ensures r != []
  {
    var names := OrgTexts(ents);
    if names == [] then [NoMedicinesDetected] else names
  }

  /** Both outcomes of `extract_medicines`. */
  lemma ExtractMedicinesCases(ents: seq<Span>)
    ensures (forall k :: 0 <= k < |ents| ==> !IsOrg(ents[k])) ==> ExtractMedicines(ents) == [NoMedicinesDetected]
    ensures (exists k :: 0 <= k < |ents| && IsOrg(ents[k])) ==> ExtractMedicines(ents) == OrgTexts(ents)
    ensures forall t :: t in ExtractMedicines(ents) ==>
      t == NoMedicinesDetected || exists k :: 0 <= k < |ents| && IsOrg(ents[k]) && ents[k].text == t
  {
    OrgTextsEmpty(ents);
    forall t | t in OrgTexts(ents)
      ensures exists k :: 0 <= k < |ents| && IsOrg(ents[k]) && ents[k].text == t
    {
      OrgTextsMembers(ents, t);
    }
  }
}
