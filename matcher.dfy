/** Matching the medicine names found in a prescription against the inventory.

    The fuzzy scorer (fuzzywuzzy's default weighted ratio) is a parameter: any total function
    from a (query, choice) pair to a score between 0 and 100. What is modelled exactly is how
    `process.extractOne` uses those scores: it keeps the choices whose score reaches the cutoff,
    in list order, and returns the first of them with the largest score (Python's `max` keeps
    the first of equal maxima), or nothing when no choice reaches the cutoff. */
module Matcher {
  import opened Wrappers
  import opened Dicts

  type Score = s: int | 0 <= s <= 100

  type Scorer = (string, string) -> Score

  /** The `score_cutoff` passed by `match_inventory`. */
  const MatchCutoff: Score := 80

  /** The choices that reach the cutoff, with their scores, in list order. */
  function Candidates(score: Scorer, query: string, choices: seq<string>, cutoff: int): (r: seq<(string, Score)>)
    ensures forall p :: p in r ==> p.0 in choices && p.1 == score(query, p.0) && p.1 >= cutoff
    ensures forall c :: c in choices && score(query, c) >= cutoff ==> (c, score(query, c)) in r
    decreases |choices|
  {
    if choices == [] then []
    else
      var rest := Candidates(score, query, choices[1..], cutoff);
      assert forall c :: c in choices[1..] ==> c in choices;
      if score(query, choices[0]) >= cutoff then [(choices[0], score(query, choices[0]))] + rest
      else rest
  }

  /** Python's `max(pairs, key=lambda p: p[1])`: the first pair with the largest score. */
  function FirstMax(pairs: seq<(string, Score)>): (r: (string, Score))
    requires pairs != []
    ensures r in pairs
    ensures forall p :: p in pairs ==> p.1 <= r.1
    decreases |pairs|
  {
    if |pairs| == 1 then pairs[0]
    else
      var best := FirstMax(pairs[1..]);
      assert forall p :: p in pairs[1..] ==> p in pairs;
      assert forall p :: p in pairs ==> p == pairs[0] || p in pairs[1..];
      if pairs[0].1 >= best.1 then pairs[0] else best
  }

  /** `process.extractOne(query, choices, score_cutoff=cutoff)`. */
  function ExtractOne(score: Scorer, query: string, choices: seq<string>, cutoff: int): (r: Option<(string, Score)>)
    ensures r.None? <==> forall c :: c in choices ==> score(query, c) < cutoff
    ensures r.Some? ==> r.value.0 in choices && r.value.1 == score(query, r.value.0) && r.value.1 >= cutoff
    ensures r.Some? ==> forall c :: c in choices ==> score(query, c) <= r.value.1
  {
    var candidates := Candidates(score, query, choices, cutoff);
    if candidates == [] then None
    else
      assert candidates[0] in candidates;
      Some(FirstMax(candidates))
  }

  /** Index `i` holds the first of the best-scoring choices. */
  ghost predicate FirstBest(score: Scorer, query: string, choices: seq<string>, i: int) {
    0 <= i < |choices| &&
    (forall j :: 0 <= j < |choices| ==> score(query, choices[j]) <= score(query, choices[i])) &&
    (forall j :: 0 <= j < i ==> score(query, choices[j]) < score(query, choices[i]))
  }

  /** The first best-scoring choice, found the way `max` scans a list. */
  function BestIndex(score: Scorer, query: string, choices: seq<string>): (b: nat)
    requires choices != []
    ensures FirstBest(score, query, choices, b)
    decreases |choices|
  {
    if |choices| == 1 then 0
    else
      var rest := choices[1..];
      var b := BestIndex(score, query, rest) + 1;
      assert forall j :: 0 < j < |choices| ==> choices[j] == rest[j - 1];
      if score(query, choices[0]) >= score(query, choices[b]) then 0 else b
  }

  /** The reference definition: the first best choice overall, kept when it reaches the cutoff. */
  function BestAboveCutoff(score: Scorer, query: string, choices: seq<string>, cutoff: int): Option<(string, Score)> {
    if choices == [] then None
    else
      var b := BestIndex(score, query, choices);
      if score(query, choices[b]) >= cutoff then Some((choices[b], score(query, choices[b]))) else None
  }

  /** Filtering by the cutoff and then taking the first maximum picks the same choice as taking
      the first maximum of all choices and then applying the cutoff: among equally scored choices
      the one listed first wins either way. */
  lemma {:induction false} ExtractOneIsBestAboveCutoff(score: Scorer, query: string, choices: seq<string>, cutoff: int)
    ensures ExtractOne(score, query, choices, cutoff) == BestAboveCutoff(score, query, choices, cutoff)
    decreases |choices|
  {
    if |choices| > 1 {
      var rest := choices[1..];
      var head := (choices[0], score(query, choices[0]));
      var tail := Candidates(score, query, rest, cutoff);
      ExtractOneIsBestAboveCutoff(score, query, rest, cutoff);
      var b' := BestIndex(score, query, rest);
      assert choices[b' + 1] == rest[b'];
      if head.1 >= cutoff {
        assert Candidates(score, query, choices, cutoff) == [head] + tail;
        if tail != [] {
          assert ([head] + tail)[1..] == tail;
        }
      }
    }
  }

  /** The cutoff only decides whether the first best choice is kept, never which one it is:
      lowering the cutoff keeps a match, raising it keeps a miss. */
  lemma ExtractOneCutoff(score: Scorer, query: string, choices: seq<string>, low: int, high: int)
    requires low <= high
    ensures ExtractOne(score, query, choices, high).Some? ==>
      ExtractOne(score, query, choices, low) == ExtractOne(score, query, choices, high)
    ensures ExtractOne(score, query, choices, low).None? ==> ExtractOne(score, query, choices, high).None?
  {
    ExtractOneIsBestAboveCutoff(score, query, choices, low);
    ExtractOneIsBestAboveCutoff(score, query, choices, high);
  }

  /** A query that scores 100 against itself, and is itself a choice, is matched with score 100. */
  lemma ExactNameMatches(score: Scorer, query: string, choices: seq<string>)
    requires query in choices && score(query, query) == 100
    ensures ExtractOne(score, query, choices, MatchCutoff).Some?
    ensures ExtractOne(score, query, choices, MatchCutoff).value.1 == 100
  {
  }

  /** Python's `str()` of a non-negative integer: its decimal digits, without leading zeros. */
  function Decimal(n: nat): (r: string)
    ensures |r| >= 1
    ensures forall i :: 0 <= i < |r| ==> '0' <= r[i] <= '9'
    ensures r[0] == '0' ==> n == 0
    decreases n
  {
    if n < 10 then [DigitChar(n)] else Decimal(n / 10) + [DigitChar(n % 10)]
  }

  function DigitChar(d: nat): (c: char)
    requires d < 10
    ensures '0' <= c <= '9' && c as int - '0' as int == d
  {
    ('0' as int + d) as char
  }

  /** The number a string of decimal digits denotes. */
  function DecimalValue(s: string): nat
    requires forall i :: 0 <= i < |s| ==> '0' <= s[i] <= '9'
    decreases |s|
  {
    if s == [] then 0
    else 10 * DecimalValue(s[..|s| - 1]) + (s[|s| - 1] as int - '0' as int)
  }

  /** The rendered stock reads back as the stock. */
  lemma {:induction false} DecimalRoundTrip(n: nat)
    ensures DecimalValue(Decimal(n)) == n
    decreases n
  {
    if n >= 10 {
      DecimalRoundTrip(n / 10);
      var s := Decimal(n);
      assert s[..|s| - 1] == Decimal(n / 10);
    }
  }

  /** How `match_inventory` resolves one medicine name: the best inventory name with its stock,
      or the name as written with "Not Available". */
  function Resolve(score: Scorer, catalog: Dict<nat>, med: string): (r: (string, string))
    ensures r.0 in KeySet(catalog) || r.0 == med
  {
    match ExtractOne(score, med, Keys(catalog), MatchCutoff)
    case Some((name, _)) => (name, InStock(Get(catalog, name).value))
    case None => (med, NotAvailable)
  }

  function InStock(stock: nat): string {
    "In stock: " + Decimal(stock)
  }

  const NotAvailable: string := "Not Available"

  /** A medicine name is either matched, to the first best inventory name scoring at least 80 and
      that name's stock, or left as written with "Not Available" when no name scores 80. */
  lemma ResolveCases(score: Scorer, catalog: Dict<nat>, med: string)
    ensures var r := Resolve(score, catalog, med);
      (r.0 in KeySet(catalog) && r.1 == InStock(Get(catalog, r.0).value) &&
       score(med, r.0) >= MatchCutoff &&
       r.0 == Keys(catalog)[BestIndex(score, med, Keys(catalog))])
      ||
      (r == (med, NotAvailable) && forall n :: n in KeySet(catalog) ==> score(med, n) < MatchCutoff)
  {
    ExtractOneIsBestAboveCutoff(score, med, Keys(catalog), MatchCutoff);
  }

  /** An inventory name queried exactly, when no other inventory name also scores 100 against it,
      is matched to itself and its own stock. */
  lemma ExactNameResolves(score: Scorer, catalog: Dict<nat>, q: string)
    requires q in KeySet(catalog) && score(q, q) == 100
    requires forall c :: c in KeySet(catalog) && c != q ==> score(q, c) < 100
    ensures Resolve(score, catalog, q) == (q, InStock(Get(catalog, q).value))
  {
    ExactNameMatches(score, q, Keys(catalog));
  }

  /** The first inventory name queried exactly is matched to itself and its own stock, whatever
      the later names score: among equal scores the first name listed wins. */
  lemma FirstNameResolves(score: Scorer, catalog: Dict<nat>)
    requires catalog != [] && score(catalog[0].0, catalog[0].0) == 100
    ensures Resolve(score, catalog, catalog[0].0) == (catalog[0].0, InStock(catalog[0].1))
  {
    var q := catalog[0].0;
    var names := Keys(catalog);
    ExtractOneIsBestAboveCutoff(score, q, names, MatchCutoff);
    var b := BestIndex(score, q, names);
    assert names[0] == q;
    assert b == 0;
    GetOfEntry(catalog, 0);
  }

  /** "In stock: ..." and "Not Available" never coincide, so a value tells a match from a miss. */
  lemma InStockIsNotNotAvailable(stock: nat)
    ensures InStock(stock) != NotAvailable
  {
    assert InStock(stock)[0] == 'I' && NotAvailable[0] == 'N';
  }

  /** The stock can be read back from an "In stock: ..." value. */
  lemma InStockRoundTrip(stock: nat)
    ensures |InStock(stock)| > 10 && InStock(stock)[..10] == "In stock: "
    ensures DecimalValue(InStock(stock)[10..]) == stock
  {
    assert InStock(stock)[10..] == Decimal(stock);
    DecimalRoundTrip(stock);
  }

  /** A stock of 500 is rendered as "In stock: 500". */
  lemma InStockFiveHundred()
    ensures InStock(500) == "In stock: 500"
  {
    assert Decimal(500) == "500";
  }

  /** The assignments `match_inventory` makes, one per medicine name, in order. */
  function Resolutions(score: Scorer, catalog: Dict<nat>, medicines: seq<string>): (r: seq<(string, string)>)
    ensures |r| == |medicines|
    ensures forall i :: 0 <= i < |r| ==> r[i] == Resolve(score, catalog, medicines[i])
  {
    seq(|medicines|, i requires 0 <= i < |medicines| => Resolve(score, catalog, medicines[i]))
  }

  /** One more medicine name is one more assignment. */
  lemma ResolutionsSnoc(score: Scorer, catalog: Dict<nat>, medicines: seq<string>, i: nat)
    requires i < |medicines|
    ensures Resolutions(score, catalog, medicines[..i + 1]) ==
      Resolutions(score, catalog, medicines[..i]) + [Resolve(score, catalog, medicines[i])]
  {
  }

  /** `match_inventory(medicines)` against the inventory `catalog`. */
  method MatchInventory(score: Scorer, catalog: Dict<nat>, medicines: seq<string>) returns (matched: Dict<string>)
    ensures matched == FromPairs(Resolutions(score, catalog, medicines))
  {
    matched := [];
    for i := 0 to |medicines|
      invariant matched == FromPairs(Resolutions(score, catalog, medicines[..i]))
    {
      var (key, value) := Resolve(score, catalog, medicines[i]);
      ResolutionsSnoc(score, catalog, medicines, i);
      FromPairsSnoc(Resolutions(score, catalog, medicines[..i]), key, value);
      matched := Put(matched, key, value);
    }
    assert medicines[..|medicines|] == medicines;
  }

  /** Every medicine name leaves an entry: under its best inventory name or under itself. */
  lemma MatchedCovers(score: Scorer, catalog: Dict<nat>, medicines: seq<string>, i: nat)
    requires i < |medicines|
    ensures Resolve(score, catalog, medicines[i]).0 in KeySet(FromPairs(Resolutions(score, catalog, medicines)))
  {
    var res := Resolutions(score, catalog, medicines);
    FromPairsKeySet(res);
    assert Keys(res)[i] == res[i].0;
  }

  /** Every entry comes from some medicine name: an inventory name with its stock, or
      an unmatched name with "Not Available". */
  lemma MatchedEntries(score: Scorer, catalog: Dict<nat>, medicines: seq<string>, k: string)
    ensures var matched := FromPairs(Resolutions(score, catalog, medicines));
      Get(matched, k).Some? ==>
        exists i :: 0 <= i < |medicines| && Resolve(score, catalog, medicines[i]) == (k, Get(matched, k).value)
  {
    var res := Resolutions(score, catalog, medicines);
    FromPairsGet(res, k);
  }

  /** The matched dict has at most one entry per medicine name: repeated matches share one. */
  lemma MatchedSize(score: Scorer, catalog: Dict<nat>, medicines: seq<string>)
    ensures |FromPairs(Resolutions(score, catalog, medicines))| <= |medicines|
  {
    var res := Resolutions(score, catalog, medicines);
    FromPairsSize(res);
    KeySetSize(res);
  }

  /** Entries appear in the order their keys were first produced. */
  lemma MatchedOrder(score: Scorer, catalog: Dict<nat>, medicines: seq<string>)
    ensures Keys(FromPairs(Resolutions(score, catalog, medicines))) ==
      Dedup(Keys(Resolutions(score, catalog, medicines)))
  {
    FromPairsKeys(Resolutions(score, catalog, medicines));
  }
}
