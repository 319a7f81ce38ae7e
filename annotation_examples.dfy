/** Worked examples of `extract_dosage_frequency`: what its two patterns accept, and the
    complete result for a few prescription texts. */
module AnnotationExamples {
  import opened Wrappers
  import opened Text
  import opened Annotations

  /** Dosages are kept as written: with or without the space. */
  lemma DosageAsWritten()
    ensures IsDosage("500mg") && IsDosage("500 mg")
  {
    assert QuantitySplit("500mg", 0, 5, DosageUnits, 3, 3, 0);
    assert QuantitySplit("500 mg", 0, 6, DosageUnits, 3, 4, 0);
  }

  /** The number of a dosage is any run of digits: zero and leading zeros are accepted. */
  lemma DosageAnyDigits()
    ensures IsDosage("0 mg") && IsDosage("007mg")
  {
    assert QuantitySplit("0 mg", 0, 4, DosageUnits, 1, 2, 0);
    assert QuantitySplit("007mg", 0, 5, DosageUnits, 3, 3, 0);
  }

  lemma EveryEightHours()
    ensures IsFrequency("every 8 hours")
  {
    assert EveryHoursBetween("every 8 hours", 0, 13);
  }

  // "Take 500 mg twice daily"

  const Take: string := "Take 500 mg twice daily"

  lemma TakeNoDigits()
    ensures forall q :: 0 <= q < 5 ==> !IsDigit(Take[q])
    ensures forall q :: 11 <= q < 23 ==> !IsDigit(Take[q])
  {
  }

  lemma TakeDosageHead()
    requires Advances(ScanDosage, Take)
    ensures FindAll(ScanDosage, Take, 0) == FindAll(ScanDosage, Take, 5)
  {
    TakeNoDigits();
    FindAllSkips(ScanDosage, Take, 0, 5);
  }

  lemma TakeDosageMatch()
    ensures ScanDosage(Take, 5) == Some(11)
  {
    assert QuantitySplit(Take, 5, 11, DosageUnits, 8, 9, 0);
    DosageMatchIsDosage(Take, 5, 11);
  }

  lemma TakeDosageTail()
    requires Advances(ScanDosage, Take)
    ensures FindAll(ScanDosage, Take, 11) == []
  {
    TakeNoDigits();
    FindAllSkips(ScanDosage, Take, 11, 23);
  }

  lemma TakeDosageSpans()
    requires Advances(ScanDosage, Take)
    ensures FindAll(ScanDosage, Take, 0) == [(5, 11)]
  {
    TakeDosageHead();
    TakeDosageMatch();
    FindAllTakes(ScanDosage, Take, 5, 11);
    TakeDosageTail();
  }

  lemma TakeInitials()
    ensures forall r :: 0 <= r < 3 ==> !FrequencyInitial(Take[r])
    ensures forall r :: 4 <= r < 9 ==> !FrequencyInitial(Take[r])
    ensures forall r :: 10 <= r < 12 ==> !FrequencyInitial(Take[r])
    ensures !FrequencyInitial(Take[17])
  {
  }

  /** An `e` not followed by `v` starts no frequency: no word starts with `e`, and "every" does not fit. */
  lemma NoFrequencyAtE(s: string, p: nat)
    requires p < |s| && s[p] == 'e' && (p + 1 < |s| ==> s[p + 1] != 'v')
    ensures ScanFrequency(s, p) == None
  {
    FrequencyWordsShape();
    assert !LiteralAt(s, p, "every") by {
      if p + 5 <= |s| {
        assert s[p + 1] != "every"[1];
      }
    }
  }

  /** An `m` followed by `g` starts no frequency: it could only begin "morning". */
  lemma NoFrequencyAtMg(s: string, p: nat)
    requires p + 1 < |s| && s[p] == 'm' && s[p + 1] == 'g'
    ensures ScanFrequency(s, p) == None
  {
    FrequencyWordsShape();
    forall k | 0 <= k < |FrequencyWords| ensures !LiteralAt(s, p, FrequencyWords[k]) {
      if k == 5 {
        assert s[p + 1] != FrequencyWords[5][1];
      } else {
        assert FrequencyWords[k][0] != 'm';
        assert s[p + 0] != FrequencyWords[k][0];
      }
    }
    assert s[p + 0] != "every"[0];
    NoLiteralNoFrequency(s, p);
  }

  /** A `w` not followed by `e` starts no frequency: it could only begin "weekly". */
  lemma NoFrequencyAtW(s: string, p: nat)
    requires p + 1 < |s| && s[p] == 'w' && s[p + 1] != 'e'
    ensures ScanFrequency(s, p) == None
  {
    FrequencyWordsShape();
    forall k | 0 <= k < |FrequencyWords| ensures !LiteralAt(s, p, FrequencyWords[k]) {
      if k == 4 {
        assert s[p + 1] != FrequencyWords[4][1];
      } else {
        assert FrequencyWords[k][0] != 'w';
        assert s[p + 0] != FrequencyWords[k][0];
      }
    }
    assert s[p + 0] != "every"[0];
    NoLiteralNoFrequency(s, p);
  }

  lemma TakeFrequencyMatches()
    ensures ScanFrequency(Take, 12) == Some(17) && ScanFrequency(Take, 18) == Some(23)
  {
    assert WordBetween(Take, 12, 17, FrequencyWords, 1);
    assert WordBetween(Take, 18, 23, FrequencyWords, 3);
    FrequencyMatchIsFrequency(Take, 12, 17);
    FrequencyMatchIsFrequency(Take, 18, 23);
  }

  /** The `e` of "Take" is passed over. */
  lemma TakeSkipE()
    requires Advances(ScanFrequency, Take)
    ensures FindAll(ScanFrequency, Take, 3) == FindAll(ScanFrequency, Take, 4)
  {
    NoFrequencyAtE(Take, 3);
    FindAllSkip(ScanFrequency, Take, 3);
  }

  /** The `m` of "mg" is passed over. */
  lemma TakeSkipMg()
    requires Advances(ScanFrequency, Take)
    ensures FindAll(ScanFrequency, Take, 9) == FindAll(ScanFrequency, Take, 10)
  {
    NoFrequencyAtMg(Take, 9);
    FindAllSkip(ScanFrequency, Take, 9);
  }

  lemma TakeFrequencyHead()
    requires Advances(ScanFrequency, Take)
    ensures FindAll(ScanFrequency, Take, 0) == FindAll(ScanFrequency, Take, 12)
  {
    TakeInitials();
    FrequencySkips(Take, 0, 3);
    TakeSkipE();
    FrequencySkips(Take, 4, 9);
    TakeSkipMg();
    FrequencySkips(Take, 10, 12);
  }

  lemma TakeFrequencyGap()
    requires Advances(ScanFrequency, Take)
    ensures FindAll(ScanFrequency, Take, 17) == FindAll(ScanFrequency, Take, 18)
  {
    TakeInitials();
    FrequencySkips(Take, 17, 18);
  }

  lemma TakeFrequencySpans()
    requires Advances(ScanFrequency, Take)
    ensures FindAll(ScanFrequency, Take, 0) == [(12, 17), (18, 23)]
  {
    TakeFrequencyHead();
    TakeFrequencyMatches();
    TakeFrequencyGap();
    FindAllTakes(ScanFrequency, Take, 12, 17);
    FindAllTakes(ScanFrequency, Take, 18, 23);
  }

  lemma TakeTexts()
    ensures Texts(Take, [(5, 11)]) == ["500 mg"]
    ensures Texts(Take, [(12, 17), (18, 23)]) == ["twice", "daily"]
  {
    assert Take[5..11] == "500 mg";
    assert Take[12..17] == "twice";
    assert Take[18..23] == "daily";
  }

  /** One dosage and two frequencies, in the order they are written. */
  lemma TakeFiveHundredTwiceDaily()
    ensures ExtractDosageFrequency(Take) == DosageFrequency(["500 mg"], ["twice", "daily"])
  {
    ScannersAdvance(Take);
    TakeDosageSpans();
    TakeFrequencySpans();
    TakeTexts();
  }

  // "5  mg": two spaces between the number and the unit

  const TwoSpaces: string := "5  mg"

  lemma TwoSpacesNotADosage(e: nat)
    ensures !DosageBetween(TwoSpaces, 0, e)
  {
    var t := TwoSpaces;
    forall i: nat, j: nat, k: nat ensures !QuantitySplit(t, 0, e, DosageUnits, i, j, k) {
      if 0 < i && DigitsBetween(t, 0, i) {
        assert !IsDigit(t[1]);
        assert i == 1;
        if (j == 1 || j == 2) && k < |DosageUnits| {
          assert t[j] == ' ';
          DosageUnitsShape();
          assert j + 0 < |t| ==> DosageUnits[k][0] != t[j + 0];
        }
      }
    }
  }

  lemma TwoSpacesNoStart()
    ensures ScanDosage(TwoSpaces, 0).None?
  {
    var r := ScanDosage(TwoSpaces, 0);
    if r.Some? {
      DosageMatchIsDosage(TwoSpaces, 0, r.value);
      TwoSpacesNotADosage(r.value);
    }
  }

  lemma TwoSpacesNoMatch()
    ensures NoMatch(ScanDosage, TwoSpaces)
  {
    TwoSpacesNoStart();
    forall q: nat | 0 < q <= |TwoSpaces| ensures ScanDosage(TwoSpaces, q).None? {
      assert q < |TwoSpaces| ==> !IsDigit(TwoSpaces[q]);
      NoDigitNoDosage(TwoSpaces, q);
    }
  }

  /** No dosage is found at all. */
  lemma TwoSpacesNoDosage()
    ensures ExtractDosageFrequency(TwoSpaces).dosage == [NotSpecified]
  {
    TwoSpacesNoMatch();
    DosageSentinel(TwoSpaces);
  }

  // "Twice": frequencies are matched case-sensitively

  const Capitalised: string := "Twice"

  lemma CapitalisedNotAFrequency()
    ensures !IsFrequency(Capitalised)
  {
    var t := Capitalised;
    FrequencyWordsShape();
    forall k: nat ensures !WordBetween(t, 0, |t|, FrequencyWords, k) {
      assert t[0] == 'T';
      if k < |FrequencyWords| && LiteralAt(t, 0, FrequencyWords[k]) {
        assert t[0 + 0] == FrequencyWords[k][0];
      }
    }
  }

  lemma CapitalisedNoMatch()
    ensures NoMatch(ScanFrequency, Capitalised)
  {
    var t := Capitalised;
    NoFrequencyAtW(t, 1);
    NoFrequencyAtE(t, 4);
    NoInitialsNoFrequency(t);
    forall q: nat | q <= |t| && q != 1 && q != 4 ensures ScanFrequency(t, q).None? {
      assert q < |t| ==> !FrequencyInitial(t[q]);
    }
  }

  /** No frequency is found at all. */
  lemma CapitalisedNoFrequency()
    ensures ExtractDosageFrequency(Capitalised).frequency == [NotSpecified]
  {
    CapitalisedNoMatch();
    FrequencySentinel(Capitalised);
  }
}
