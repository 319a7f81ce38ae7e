/** The structured order (`generate_order`): the stripped prescription text, the matched
    medicines and the dosage and frequency annotations, assembled as one JSON object. */
module Orders {
  import opened Wrappers
  import opened Dicts
  import opened Text
  import opened Inventory
  import opened Matcher
  import opened Medicines
  import opened Annotations

  /** The JSON values an order is made of. */
  datatype Json = Str(str: string) | List(items: seq<Json>) | Object(members: seq<(string, Json)>)

  const TextKey: string := "Extracted Prescription Text"
  const MedicinesKey: string := "Identified Medicines"
  const AnnotationsKey: string := "Dosage & Frequency"
  const DosageKey: string := "Dosage"
  const FrequencyKey: string := "Frequency"

  /** The parts an order is assembled from. */
  datatype Order = Order(text: string, medicines: seq<(string, string)>, annotations: DosageFrequency)

  /** A list of strings as a JSON list. */
  function Strings(xs: seq<string>): (r: seq<Json>)
    ensures |r| == |xs|
    ensures forall i :: 0 <= i < |xs| ==> r[i] == Str(xs[i])
  {
    seq(|xs|, i requires 0 <= i < |xs| => Str(xs[i]))
  }

  /** A dictionary of strings as the members of a JSON object, in insertion order. */
  function StringMembers(entries: seq<(string, string)>): (r: seq<(string, Json)>)
    ensures |r| == |entries|
    ensures forall i :: 0 <= i < |entries| ==> r[i] == (entries[i].0, Str(entries[i].1))
  {
    seq(|entries|, i requires 0 <= i < |entries| => (entries[i].0, Str(entries[i].1)))
  }

  /** The `order` dictionary: three members in a fixed order, the last one nested. */
  function AssembleOrder(o: Order): (r: Json)
    ensures r.Object? && |r.members| == 3
    ensures r.members[0] == (TextKey, Str(o.text))
    ensures r.members[1].0 == MedicinesKey && r.members[2].0 == AnnotationsKey
  {
    Object([
      (TextKey, Str(o.text)),
      (MedicinesKey, Object(StringMembers(o.medicines))),
      (AnnotationsKey, Object([
        (DosageKey, List(Strings(o.annotations.dosage))),
        (FrequencyKey, List(Strings(o.annotations.frequency)))]))])
  }

  /** Reads back a JSON list of strings. */
  function ReadStrings(items: seq<Json>): (r: Option<seq<string>>)
    ensures r.Some? ==> |r.value| == |items|
    decreases |items|
  {
    if items == [] then Some([])
    else if !items[0].Str? then None
    else
      match ReadStrings(items[1..])
      case Some(rest) => Some([items[0].str] + rest)
      case None => None
  }

  /** Reads back object members whose values are strings. */
  function ReadStringMembers(members: seq<(string, Json)>): (r: Option<seq<(string, string)>>)
    ensures r.Some? ==> |r.value| == |members|
    decreases |members|
  {
    if members == [] then Some([])
    else if !members[0].1.Str? then None
    else
      match ReadStringMembers(members[1..])
      case Some(rest) => Some([(members[0].0, members[0].1.str)] + rest)
      case None => None
  }

  /** Reads an order back out of its JSON object. */
  function ReadOrder(j: Json): Option<Order> {
    if !j.Object? || |j.members| != 3 then None
    else
      var (k0, text) := j.members[0];
      var (k1, meds) := j.members[1];
      var (k2, ann) := j.members[2];
      if k0 != TextKey || !text.Str? || k1 != MedicinesKey || !meds.Object? || k2 != AnnotationsKey then None
      else if !ann.Object? || |ann.members| != 2 || ann.members[0].0 != DosageKey || ann.members[1].0 != FrequencyKey then None
      else if !ann.members[0].1.List? || !ann.members[1].1.List? then None
      else
        match (ReadStringMembers(meds.members), ReadStrings(ann.members[0].1.items), ReadStrings(ann.members[1].1.items))
        case (Some(m), Some(d), Some(f)) => Some(Order(text.str, m, DosageFrequency(d, f)))
        case _ => None
  }

  lemma {:induction false} ReadStringsRoundTrip(xs: seq<string>)
    ensures ReadStrings(Strings(xs)) == Some(xs)
    decreases |xs|
  {
    if xs != [] {
      assert Strings(xs)[1..] == Strings(xs[1..]);
      ReadStringsRoundTrip(xs[1..]);
      assert xs == [xs[0]] + xs[1..];
    }
  }

  lemma {:induction false} ReadStringMembersRoundTrip(entries: seq<(string, string)>)
    ensures ReadStringMembers(StringMembers(entries)) == Some(entries)
    decreases |entries|
  {
    if entries != [] {
      assert StringMembers(entries)[1..] == StringMembers(entries[1..]);
      ReadStringMembersRoundTrip(entries[1..]);
      assert entries == [entries[0]] + entries[1..];
    }
  }

  /** Every order is read back from its JSON object unchanged. */
  lemma ReadAssembleRoundTrip(o: Order)
    ensures ReadOrder(AssembleOrder(o)) == Some(o)
  {
    ReadStringMembersRoundTrip(o.medicines);
    ReadStringsRoundTrip(o.annotations.dosage);
    ReadStringsRoundTrip(o.annotations.frequency);
  }

  /** The order for a stripped text, as the pipeline composes it. */
  function OrderFor(text: string, ents: seq<Span>, score: Scorer): Order {
    Order(text, FromPairs(Resolutions(score, Catalog(), ExtractMedicines(ents))), ExtractDosageFrequency(text))
  }

  /** `generate_order`: strips the recognised text, reads the medicines from the entities the
      recogniser reports for it, matches them against the catalog and annotates the text. */
  method GenerateOrder(ocr: string, ner: string -> seq<Span>, score: Scorer) returns (order: Json)
    ensures ReadOrder(order) == Some(OrderFor(Strip(ocr), ner(Strip(ocr)), score))
    ensures order.members[0] == (TextKey, Str(Strip(ocr)))
  {
    var text := Strip(ocr);
    var medicines := ExtractMedicines(ner(text));
    var matched := MatchInventory(score, Catalog(), medicines);
    var annotations := ExtractDosageFrequency(text);
    var o := Order(text, matched, annotations);
    order := AssembleOrder(o);
    ReadAssembleRoundTrip(o);
  }

  /** "Paracetamol", the first name of the inventory, is matched to itself and reported as
      "In stock: 500", by any scorer that gives an exact name 100. */
  lemma ParacetamolInStock(score: Scorer)
    requires score("Paracetamol", "Paracetamol") == 100
    ensures Resolve(score, Catalog(), "Paracetamol") == ("Paracetamol", "In stock: 500")
  {
    CatalogFirst();
    FirstNameResolves(score, Catalog());
    InStockFiveHundred();
  }

  /** Without any `ORG` entity the order lists exactly one medicine: the sentinel, not
      available, unless it resembles a catalog name. */
  lemma NoEntityOneMedicine(score: Scorer, catalog: Dict<nat>, ents: seq<Span>)
    requires forall k :: 0 <= k < |ents| ==> !IsOrg(ents[k])
    ensures |FromPairs(Resolutions(score, catalog, ExtractMedicines(ents)))| == 1
    ensures var matched := FromPairs(Resolutions(score, catalog, ExtractMedicines(ents)));
      matched[0] == Resolve(score, catalog, NoMedicinesDetected)
  {
    ExtractMedicinesCases(ents);
    assert ExtractMedicines(ents) == [NoMedicinesDetected];
    var pairs := Resolutions(score, catalog, [NoMedicinesDetected]);
    assert pairs == [Resolve(score, catalog, NoMedicinesDetected)];
    assert pairs[..0] == [];
  }
}
