/** Dosage and frequency annotations: `re.findall` of the two patterns of
    `extract_dosage_frequency`, written as scanners.

    At each position a scanner reports where the match starting there ends, if one does.
    Neither pattern can match at one position in two ways: a run of digits is always taken
    whole (what follows it is never a digit), and any two alternative words differ within their
    first two characters. So the backtracking order of the regular expression never matters,
    and each scanner is proved to accept exactly the language of its pattern. The languages are
    stated on a span `s[p..e]` of the text (`DosageBetween`, `FrequencyBetween`) and on a
    standalone token (`IsDosage`, `IsFrequency`). */
module Annotations {
  import opened Wrappers
  import opened Text

  /** `w` is written in `s` at position `p`. */
  predicate LiteralAt(s: string, p: nat, w: string) {
    p + |w| <= |s| && forall m :: 0 <= m < |w| ==> s[p + m] == w[m]
  }

  /** Positions `p` to `q` of `s` hold digits. */
  predicate DigitsBetween(s: string, p: nat, q: nat) {
    p <= q <= |s| && forall m :: p <= m < q ==> IsDigit(s[m])
  }

  function DigitsEnd(s: string, p: nat): (q: nat)
    requires p <= |s|
    ensures p <= q && DigitsBetween(s, p, q)
    ensures q < |s| ==> !IsDigit(s[q])
    decreases |s| - p
  {
    if p < |s| && IsDigit(s[p]) then DigitsEnd(s, p + 1) else p
  }

  lemma DigitsEndAt(s: string, p: nat, q: nat)
    requires DigitsBetween(s, p, q) && (q < |s| ==> !IsDigit(s[q]))
    ensures DigitsEnd(s, p) == q
  {
  }

  /** The index of the first of `words` written at `p`. */
  function FirstLiteralAt(s: string, p: nat, words: seq<string>): (r: Option<nat>)
    ensures r.Some? ==> r.value < |words| && LiteralAt(s, p, words[r.value])
    ensures r.Some? ==> forall k :: 0 <= k < r.value ==> !LiteralAt(s, p, words[k])
    ensures r.None? <==> forall k :: 0 <= k < |words| ==> !LiteralAt(s, p, words[k])
    decreases |words|
  {
    if words == [] then None
    else if LiteralAt(s, p, words[0]) then Some(0)
    else
      match FirstLiteralAt(s, p, words[1..])
      case Some(k) => Some(k + 1)
      case None =>
        assert forall k :: 0 < k < |words| ==> words[k] == words[1..][k - 1];
        None
  }

  predicate ApartEarly(a: string, b: string) {
    |a| > 0 && |b| > 0 && (a[0] != b[0] || (|a| > 1 && |b| > 1 && a[1] != b[1]))
  }

  predicate Distinguishable(words: seq<string>) {
    forall i, j :: 0 <= i < j < |words| ==> ApartEarly(words[i], words[j])
  }

  /** Two words that differ early are never written at the same place. */
  lemma ApartNotBoth(s: string, p: nat, a: string, b: string)
    requires ApartEarly(a, b)
    ensures !(LiteralAt(s, p, a) && LiteralAt(s, p, b))
  {
  }

  /** With distinguishable words, the alternation picks the only word written at `p`. */
  lemma {:induction false} FirstLiteralAtIs(s: string, p: nat, words: seq<string>, k: nat)
    requires Distinguishable(words) && k < |words| && LiteralAt(s, p, words[k])
    ensures FirstLiteralAt(s, p, words) == Some(k)
    decreases |words|
  {
    if k > 0 {
      ApartNotBoth(s, p, words[0], words[k]);
      assert words[1..][k - 1] == words[k];
      FirstLiteralAtIs(s, p, words[1..], k - 1);
    }
  }

  predicate UnitsShape(units: seq<string>) {
    Distinguishable(units) && forall k :: 0 <= k < |units| ==> |units[k]| > 0 && 'a' <= units[k][0] <= 'z'
  }

  function MatchQuantityAt(s: string, p: nat, units: seq<string>): (r: Option<nat>)
    requires p <= |s| && UnitsShape(units)
    ensures r.Some? ==> p < r.value <= |s|
  {
    var q := DigitsEnd(s, p);
    if q == p then None
    else
      var u := if q < |s| && IsSpace(s[q]) then q + 1 else q;
      match FirstLiteralAt(s, u, units)
      case Some(k) => Some(u + |units[k]|)
      case None => None
  }

  /** Between `p` and `e`: digits up to `i`, at most one whitespace character, and unit `k` from `j`. */
  predicate QuantitySplit(s: string, p: nat, e: nat, units: seq<string>, i: nat, j: nat, k: nat) {
    p < i <= j <= e <= |s| && DigitsBetween(s, p, i) && (j == i || (j == i + 1 && IsSpace(s[i]))) &&
    k < |units| && LiteralAt(s, j, units[k]) && e == j + |units[k]|
  }

  lemma QuantitySound(s: string, p: nat, e: nat, units: seq<string>)
    requires p <= e <= |s| && UnitsShape(units) && MatchQuantityAt(s, p, units) == Some(e)
    ensures exists i: nat, j: nat, k: nat :: QuantitySplit(s, p, e, units, i, j, k)
  {
    var q := DigitsEnd(s, p);
    var u := if q < |s| && IsSpace(s[q]) then q + 1 else q;
    var k := FirstLiteralAt(s, u, units).value;
    assert QuantitySplit(s, p, e, units, q, u, k);
  }

  lemma QuantityComplete(s: string, p: nat, e: nat, units: seq<string>, i: nat, j: nat, k: nat)
    requires e <= |s| && UnitsShape(units) && QuantitySplit(s, p, e, units, i, j, k)
    ensures MatchQuantityAt(s, p, units) == Some(e)
  {
    assert s[j] == units[k][0];
    DigitsEndAt(s, p, i);
    FirstLiteralAtIs(s, j, units, k);
  }

  const DosageUnits: seq<string> := ["mg", "ml", "g", "tablets", "capsules"]

  lemma DosageUnitsShape()
    ensures UnitsShape(DosageUnits)
  {
    assert DosageUnits[0][0] == 'm' && DosageUnits[1][0] == 'm' && DosageUnits[2][0] == 'g';
    assert DosageUnits[3][0] == 't' && DosageUnits[4][0] == 'c';
    assert DosageUnits[0][1] == 'g' && DosageUnits[1][1] == 'l';
  }

  function MatchDosageAt(s: string, p: nat): (r: Option<nat>)
    requires p <= |s|
    ensures r.Some? ==> p < r.value <= |s|
  {
    DosageUnitsShape();
    MatchQuantityAt(s, p, DosageUnits)
  }

  ghost predicate DosageBetween(s: string, p: nat, e: nat) {
    exists i: nat, j: nat, k: nat :: QuantitySplit(s, p, e, DosageUnits, i, j, k)
  }

  lemma DosageMatchIsDosage(s: string, p: nat, e: nat)
    requires p <= e <= |s|
    ensures MatchDosageAt(s, p) == Some(e) <==> DosageBetween(s, p, e)
  {
    DosageUnitsShape();
    if MatchDosageAt(s, p) == Some(e) {
      QuantitySound(s, p, e, DosageUnits);
    }
    if DosageBetween(s, p, e) {
      var i: nat, j: nat, k: nat :| QuantitySplit(s, p, e, DosageUnits, i, j, k);
      QuantityComplete(s, p, e, DosageUnits, i, j, k);
    }
  }

  predicate EveryHoursBetween(s: string, p: nat, e: nat) {
    p + 13 <= e <= |s| && LiteralAt(s, p, "every") && IsSpace(s[p + 5]) && DigitsBetween(s, p + 6, e - 6) &&
    IsSpace(s[e - 6]) && LiteralAt(s, e - 5, "hours")
  }

  function MatchEveryHoursAt(s: string, p: nat): (r: Option<nat>)
    requires p <= |s|
    ensures r.Some? ==> p < r.value <= |s|
  {
    if LiteralAt(s, p, "every") && p + 5 < |s| && IsSpace(s[p + 5]) then
      var q := DigitsEnd(s, p + 6);
      if q > p + 6 && q < |s| && IsSpace(s[q]) && LiteralAt(s, q + 1, "hours") then Some(q + 6) else None
    else None
  }

  lemma EveryHoursMatchIsEveryHours(s: string, p: nat, e: nat)
    requires p <= e <= |s|
    ensures MatchEveryHoursAt(s, p) == Some(e) <==> EveryHoursBetween(s, p, e)
  {
    if EveryHoursBetween(s, p, e) {
      DigitsEndAt(s, p + 6, e - 6);
    }
  }

  predicate WordsShape(words: seq<string>) {
    Distinguishable(words) && forall k :: 0 <= k < |words| ==> |words[k]| > 0 && words[k][0] != 'e'
  }

  function MatchWordOrEveryAt(s: string, p: nat, words: seq<string>): (r: Option<nat>)
    requires p <= |s| && WordsShape(words)
    ensures r.Some? ==> p < r.value <= |s|
  {
    match FirstLiteralAt(s, p, words)
    case Some(k) => Some(p + |words[k]|)
    case None => MatchEveryHoursAt(s, p)
  }

  predicate WordBetween(s: string, p: nat, e: nat, words: seq<string>, k: nat) {
    k < |words| && LiteralAt(s, p, words[k]) && e == p + |words[k]|
  }

  lemma WordOrEveryMatch(s: string, p: nat, e: nat, words: seq<string>)
    requires p <= e <= |s| && WordsShape(words)
    ensures MatchWordOrEveryAt(s, p, words) == Some(e) <==>
      (exists k: nat :: WordBetween(s, p, e, words, k)) || EveryHoursBetween(s, p, e)
  {
    EveryHoursMatchIsEveryHours(s, p, e);
    var first := FirstLiteralAt(s, p, words);
    if first.Some? {
      assert WordBetween(s, p, p + |words[first.value]|, words, first.value);
      assert !EveryHoursBetween(s, p, e) by {
        assert s[p + 0] == words[first.value][0] != 'e';
        assert "every"[0] == 'e';
      }
      if exists k: nat :: WordBetween(s, p, e, words, k) {
        var k: nat :| WordBetween(s, p, e, words, k);
        FirstLiteralAtIs(s, p, words, k);
      }
    } else {
      assert forall k: nat :: !WordBetween(s, p, e, words, k);
    }
  }

  const FrequencyWords: seq<string> := ["once", "twice", "thrice", "daily", "weekly", "morning", "night"]

  lemma FrequencyWordsShape()
    ensures WordsShape(FrequencyWords)
  {
    assert FrequencyWords[0][0] == 'o' && FrequencyWords[1][0] == 't' && FrequencyWords[2][0] == 't';
    assert FrequencyWords[3][0] == 'd' && FrequencyWords[4][0] == 'w' && FrequencyWords[5][0] == 'm';
    assert FrequencyWords[6][0] == 'n';
    assert FrequencyWords[1][1] == 'w' && FrequencyWords[2][1] == 'h';
  }

  function MatchFrequencyAt(s: string, p: nat): (r: Option<nat>)
    requires p <= |s|
    ensures r.Some? ==> p < r.value <= |s|
  {
    FrequencyWordsShape();
    MatchWordOrEveryAt(s, p, FrequencyWords)
  }

  ghost predicate FrequencyBetween(s: string, p: nat, e: nat) {
    (exists k: nat :: WordBetween(s, p, e, FrequencyWords, k)) || EveryHoursBetween(s, p, e)
  }

  lemma FrequencyMatchIsFrequency(s: string, p: nat, e: nat)
    requires p <= e <= |s|
    ensures MatchFrequencyAt(s, p) == Some(e) <==> FrequencyBetween(s, p, e)
  {
    FrequencyWordsShape();
    WordOrEveryMatch(s, p, e, FrequencyWords);
  }

  ghost predicate IsDosage(t: string) {
    DosageBetween(t, 0, |t|)
  }

  ghost predicate IsFrequency(t: string) {
    FrequencyBetween(t, 0, |t|)
  }

  lemma DosageText(s: string, p: nat, e: nat)
    requires p <= e <= |s| && DosageBetween(s, p, e)
    ensures IsDosage(s[p..e])
  {
    var t := s[p..e];
    var i: nat, j: nat, k: nat :| QuantitySplit(s, p, e, DosageUnits, i, j, k);
    assert QuantitySplit(t, 0, |t|, DosageUnits, i - p, j - p, k);
  }

  lemma FrequencyText(s: string, p: nat, e: nat)
    requires p <= e <= |s| && FrequencyBetween(s, p, e)
    ensures IsFrequency(s[p..e])
  {
    var t := s[p..e];
    if exists k: nat :: WordBetween(s, p, e, FrequencyWords, k) {
      var k: nat :| WordBetween(s, p, e, FrequencyWords, k);
      assert WordBetween(t, 0, |t|, FrequencyWords, k);
    } else {
      assert EveryHoursBetween(t, 0, |t|);
    }
  }

  type Scanner = (string, nat) -> Option<nat>

  ghost predicate Advances(scan: Scanner, s: string) {
    forall q: nat :: q <= |s| && scan(s, q).Some? ==> q < scan(s, q).value <= |s|
  }

  /** Position `q` lies within one of the spans. */
  ghost predicate Covered(spans: seq<(nat, nat)>, q: nat) {
    exists k :: 0 <= k < |spans| && spans[k].0 <= q < spans[k].1
  }

  /** The spans of the matches `findall` reports scanning `s` from `p`, leftmost first, going
      on after the end of each match. */
  function FindAll(scan: Scanner, s: string, p: nat): (r: seq<(nat, nat)>)
    requires p <= |s| && Advances(scan, s)
    ensures forall k :: 0 <= k < |r| ==> p <= r[k].0 < r[k].1 <= |s|
    decreases |s| - p
  {
    if p == |s| then []
    else
      match scan(s, p)
      case Some(e) => [(p, e)] + FindAll(scan, s, e)
      case None => FindAll(scan, s, p + 1)
  }

  /** Each span found is a match. */
  lemma {:induction false} FindAllMatches(scan: Scanner, s: string, p: nat)
    requires p <= |s| && Advances(scan, s)
    ensures forall k :: 0 <= k < |FindAll(scan, s, p)| ==>
      scan(s, FindAll(scan, s, p)[k].0) == Some(FindAll(scan, s, p)[k].1)
    decreases |s| - p
  {
    if p < |s| {
      match scan(s, p)
      case Some(e) =>
        FindAllMatches(scan, s, e);
        var r := FindAll(scan, s, p);
        assert forall k :: 0 < k < |r| ==> r[k] == FindAll(scan, s, e)[k - 1];
      case None =>
        FindAllMatches(scan, s, p + 1);
        assert FindAll(scan, s, p) == FindAll(scan, s, p + 1);
    }
  }

  /** The spans come in order and do not overlap. */
  lemma {:induction false} FindAllOrdered(scan: Scanner, s: string, p: nat)
    requires p <= |s| && Advances(scan, s)
    ensures forall k, k' :: 0 <= k < k' < |FindAll(scan, s, p)| ==>
      FindAll(scan, s, p)[k].1 <= FindAll(scan, s, p)[k'].0
    decreases |s| - p
  {
    if p < |s| {
      match scan(s, p)
      case Some(e) =>
        FindAllOrdered(scan, s, e);
        var r := FindAll(scan, s, p);
        assert forall k :: 0 < k < |r| ==> r[k] == FindAll(scan, s, e)[k - 1];
      case None =>
        FindAllOrdered(scan, s, p + 1);
        assert FindAll(scan, s, p) == FindAll(scan, s, p + 1);
    }
  }

  /** No match is skipped: every match starting at or after `p` starts inside a span found. */
  lemma {:induction false} FindAllLeftmost(scan: Scanner, s: string, p: nat)
    requires p <= |s| && Advances(scan, s)
    ensures forall q: nat :: p <= q <= |s| && scan(s, q).Some? ==> Covered(FindAll(scan, s, p), q)
    decreases |s| - p
  {
    if p < |s| {
      var r := FindAll(scan, s, p);
      match scan(s, p)
      case Some(e) =>
        var rest := FindAll(scan, s, e);
        FindAllLeftmost(scan, s, e);
        forall q: nat | p <= q <= |s| && scan(s, q).Some? ensures Covered(r, q) {
          if q < e {
            assert r[0].0 <= q < r[0].1;
          } else {
            var k :| 0 <= k < |rest| && rest[k].0 <= q < rest[k].1;
            assert r[k + 1] == rest[k];
          }
        }
      case None =>
        FindAllLeftmost(scan, s, p + 1);
    }
  }

  function ScanDosage(s: string, p: nat): Option<nat> {
    if p <= |s| then MatchDosageAt(s, p) else None
  }

  function ScanFrequency(s: string, p: nat): Option<nat> {
    if p <= |s| then MatchFrequencyAt(s, p) else None
  }

  lemma ScannersAdvance(s: string)
    ensures Advances(ScanDosage, s) && Advances(ScanFrequency, s)
  {
  }

  function Texts(s: string, spans: seq<(nat, nat)>): (r: seq<string>)
    requires forall k :: 0 <= k < |spans| ==> spans[k].0 <= spans[k].1 <= |s|
    ensures |r| == |spans|
    ensures forall k :: 0 <= k < |r| ==> r[k] == s[spans[k].0..spans[k].1]
  {
    seq(|spans|, k requires 0 <= k < |spans| => s[spans[k].0..spans[k].1])
  }

  const NotSpecified: string := "Not specified"

  lemma NotSpecifiedIsNoToken()
    ensures !IsDosage(NotSpecified) && !IsFrequency(NotSpecified)
  {
    assert !IsDigit(NotSpecified[0]);
    assert !LiteralAt(NotSpecified, 0, "every") by { assert NotSpecified[0] != "every"[0]; }
    assert forall k: nat :: k < |FrequencyWords| ==> !LiteralAt(NotSpecified, 0, FrequencyWords[k]) by {
      FrequencyWordsShape();
      assert NotSpecified[0] == 'N';
    }
  }

  /** `findall` finds nothing exactly when no match starts anywhere. */
  lemma FindAllEmpty(scan: Scanner, s: string)
    requires Advances(scan, s)
    ensures FindAll(scan, s, 0) == [] <==> NoMatch(scan, s)
  {
    var r := FindAll(scan, s, 0);
    FindAllMatches(scan, s, 0);
    FindAllLeftmost(scan, s, 0);
    if r != [] {
      assert scan(s, r[0].0).Some?;
    } else {
      assert forall q: nat :: !Covered(r, q);
    }
  }

  /** The dosages found, as written. */
  function DosageTokens(text: string): seq<string> {
    ScannersAdvance(text);
    Texts(text, FindAll(ScanDosage, text, 0))
  }

  /** The frequencies found, as written. */
  function FrequencyTokens(text: string): seq<string> {
    ScannersAdvance(text);
    Texts(text, FindAll(ScanFrequency, text, 0))
  }

  lemma DosageTokensAreDosages(text: string)
    ensures forall k :: 0 <= k < |DosageTokens(text)| ==> IsDosage(DosageTokens(text)[k])
  {
    ScannersAdvance(text);
    var spans := FindAll(ScanDosage, text, 0);
    FindAllMatches(ScanDosage, text, 0);
    forall k | 0 <= k < |spans| ensures IsDosage(DosageTokens(text)[k]) {
      DosageMatchIsDosage(text, spans[k].0, spans[k].1);
      DosageText(text, spans[k].0, spans[k].1);
    }
  }

  lemma FrequencyTokensAreFrequencies(text: string)
    ensures forall k :: 0 <= k < |FrequencyTokens(text)| ==> IsFrequency(FrequencyTokens(text)[k])
  {
    ScannersAdvance(text);
    var spans := FindAll(ScanFrequency, text, 0);
    FindAllMatches(ScanFrequency, text, 0);
    forall k | 0 <= k < |spans| ensures IsFrequency(FrequencyTokens(text)[k]) {
      FrequencyMatchIsFrequency(text, spans[k].0, spans[k].1);
      FrequencyText(text, spans[k].0, spans[k].1);
    }
  }

  /** No match of the pattern starts anywhere in `s`. */
  ghost predicate NoMatch(scan: Scanner, s: string) {
    forall q: nat :: q <= |s| ==> scan(s, q).None?
  }

  /** A token list, or the sentinel list when it is empty. */
  function OrNotSpecified(tokens: seq<string>): (r: seq<string>)
    ensures r != []
  {
    if tokens == [] then [NotSpecified] else tokens
  }

  datatype DosageFrequency = DosageFrequency(dosage: seq<string>, frequency: seq<string>)

  function ExtractDosageFrequency(text: string): (r: DosageFrequency)
    ensures r.dosage != [] && r.frequency != []
  {
    DosageFrequency(OrNotSpecified(DosageTokens(text)), OrNotSpecified(FrequencyTokens(text)))
  }

  /** "Not specified" stands for the dosages exactly when the text has none; otherwise the list
      holds the dosages as written. */
  lemma DosageSentinel(text: string)
    ensures var r := ExtractDosageFrequency(text).dosage;
      (r == [NotSpecified] <==> NoMatch(ScanDosage, text)) &&
      (r != [NotSpecified] ==> r == DosageTokens(text))
  {
    NotSpecifiedIsNoToken();
    ScannersAdvance(text);
    FindAllEmpty(ScanDosage, text);
    DosageTokensAreDosages(text);
    var dosage := DosageTokens(text);
    assert dosage != [] ==> IsDosage(dosage[0]);
  }

  lemma FrequencySentinel(text: string)
    ensures var r := ExtractDosageFrequency(text).frequency;
      (r == [NotSpecified] <==> NoMatch(ScanFrequency, text)) &&
      (r != [NotSpecified] ==> r == FrequencyTokens(text))
  {
    NotSpecifiedIsNoToken();
    ScannersAdvance(text);
    FindAllEmpty(ScanFrequency, text);
    FrequencyTokensAreFrequencies(text);
    var frequency := FrequencyTokens(text);
    assert frequency != [] ==> IsFrequency(frequency[0]);
  }

  /** A position where no match starts is passed over. */
  lemma FindAllSkip(scan: Scanner, s: string, p: nat)
    requires p < |s| && Advances(scan, s) && scan(s, p).None?
    ensures FindAll(scan, s, p) == FindAll(scan, s, p + 1)
  {
  }

  /** A run of positions where no match starts is passed over, one position at a time. */
  lemma {:induction false} FindAllSkips(scan: Scanner, s: string, p: nat, q: nat)
    requires p <= q <= |s| && Advances(scan, s)
    requires forall r: nat :: p <= r < q ==> scan(s, r).None?
    ensures FindAll(scan, s, p) == FindAll(scan, s, q)
    decreases q - p
  {
    if p < q {
      FindAllSkip(scan, s, p);
      FindAllSkips(scan, s, p + 1, q);
    }
  }

  /** A match is reported, and the scan goes on from its end. */
  lemma FindAllTakes(scan: Scanner, s: string, p: nat, e: nat)
    requires p < |s| && Advances(scan, s) && scan(s, p) == Some(e)
    ensures FindAll(scan, s, p) == [(p, e)] + FindAll(scan, s, e)
  {
  }

  /** A dosage starts with a digit. */
  lemma NoDigitNoDosage(s: string, p: nat)
    requires p <= |s| && (p < |s| ==> !IsDigit(s[p]))
    ensures ScanDosage(s, p) == None
  {
  }

  /** No frequency starts where no alternative is written. */
  lemma NoLiteralNoFrequency(s: string, p: nat)
    requires p <= |s| && !LiteralAt(s, p, "every")
    requires forall k :: 0 <= k < |FrequencyWords| ==> !LiteralAt(s, p, FrequencyWords[k])
    ensures ScanFrequency(s, p) == None
  {
  }

  /** The characters a frequency can start with. */
  predicate FrequencyInitial(c: char) {
    c == 'o' || c == 't' || c == 'd' || c == 'w' || c == 'm' || c == 'n' || c == 'e'
  }

  /** No frequency starts at a character that begins no alternative, nor at the end of `s`. */
  lemma NoInitialsNoFrequency(s: string)
    ensures forall r: nat :: r <= |s| && (r < |s| ==> !FrequencyInitial(s[r])) ==> ScanFrequency(s, r).None?
  {
    assert FrequencyWords[0][0] == 'o' && FrequencyWords[1][0] == 't' && FrequencyWords[2][0] == 't';
    assert FrequencyWords[3][0] == 'd' && FrequencyWords[4][0] == 'w' && FrequencyWords[5][0] == 'm';
    assert FrequencyWords[6][0] == 'n';
    forall r: nat | r <= |s| && (r < |s| ==> !FrequencyInitial(s[r])) ensures ScanFrequency(s, r).None? {
      forall k | 0 <= k < |FrequencyWords| ensures !LiteralAt(s, r, FrequencyWords[k]) {
        if r < |s| && |FrequencyWords[k]| > 0 {
          assert s[r + 0] != FrequencyWords[k][0];
        }
      }
      if r < |s| {
        assert s[r + 0] != "every"[0];
      }
      NoLiteralNoFrequency(s, r);
    }
  }

  /** Characters that no frequency starts with are passed over. */
  lemma FrequencySkips(s: string, p: nat, q: nat)
    requires p <= q <= |s| && Advances(ScanFrequency, s)
    requires forall r :: p <= r < q ==> !FrequencyInitial(s[r])
    ensures FindAll(ScanFrequency, s, p) == FindAll(ScanFrequency, s, q)
  {
    NoInitialsNoFrequency(s);
    FindAllSkips(ScanFrequency, s, p, q);
  }
}
