# PharmacistAssistant order logic in Dafny

The program in `app.py` turns a photographed prescription into a structured order. It reads the
text off the image (OCR), finds medicine names among the named entities of a language model,
matches each against a seeded inventory with a fuzzy string scorer, pulls dosages and
frequencies out of the text with two regular expressions, and assembles the order as JSON.

This project models the deterministic part of that pipeline. OCR, the entity recogniser and the
fuzzy scorer are parameters:

- `Dicts`: Python's insertion-ordered `dict`, together with dict displays. A repeated key keeps its first position and takes its last value.
- `Inventory`: the seed inventory `inventory_data`, 110 literal pairs that give 109 names, because "Duloxetine" is written twice.
- `Medicines`: `extract_medicines`. It keeps the `ORG` entities, or returns the sentinel "No medicines detected".
- `Matcher`: `process.extractOne` with cutoff 80 over an abstract scorer, and `match_inventory`, written as a loop that fills a dict.
- `Text`: Python whitespace and `str.strip()`.
- `Annotations`: `extract_dosage_frequency`. The two patterns are hand-written scanners, each proved to accept exactly the pattern's language. `re.findall` is a leftmost, non-overlapping scan, and "Not specified" is the sentinel.
- `AnnotationExamples`: concrete prescriptions and their complete annotations.
- `Orders`: the order object of `generate_order`, its read-back, and the pipeline as a method.

## Model

| member | source | states |
|---|---|---|
| Dicts.Get | app.py:88 | a key has a value exactly when it is in the dict, and the value is that key's entry |
| Dicts.FromPairs | app.py:14-66 | the dict display as assignments left to right; what it holds is stated by FromPairsKeySet, FromPairsGet and FromPairsKeys |
| Dicts.Put | app.py:89-91 | assigning a present key keeps the key order, a new key is appended, the key then maps to the new value and every other key is unchanged |
| Dicts.IndexOf | app.py:88 | finds the first and only entry for a key, or reports the key absent |
| Dicts.FromPairsKeySet | app.py:14-66 | a dict display holds exactly the keys it mentions |
| Dicts.FromPairsGet | app.py:14-66 | a key missing from the display has no value; a present key has the value of its last pair |
| Dicts.GetOfLastWrite | app.py:14-66 | the value stored under a key is the one its last pair gives |
| Dicts.LastWriteUnique | app.py:14-66 | a key has only one last write |
| Dicts.FromPairsKeys | app.py:14-66 | keys come out in first-occurrence order, with repetitions dropped |
| Dicts.FromPairsSize | app.py:14-66 | a display has one entry per distinct key |
| Dicts.Dedup | app.py:14-66 | the first-occurrence list has no repeats and the same members as its input |
| Dicts.LastWriteOfAppend | app.py:14-66 | pairs written later that do not mention a key leave its last write unchanged |
| Dicts.LastWriteOfPrepend | app.py:14-66 | pairs written earlier do not affect a key's last write |
| Dicts.FromPairsFirst | app.py:14-66 | the first key of a non-empty display is the key of its first pair |
| Inventory.CatalogSize | app.py:14-66 | the display writes 110 pairs and the inventory has 109 names |
| Inventory.SeedPairs | app.py:14-66 | the 110 pairs of the display in the order written; counted by CatalogSize |
| Inventory.Catalog | app.py:14-66 | `inventory_data`, the display folded into a dict; its contents are stated by CatalogSize, CatalogParacetamol, CatalogDuloxetine and CatalogFirst |
| Inventory.CatalogFirst | app.py:16 | the first entry of the inventory is "Paracetamol" with 500 |
| Inventory.CatalogDuloxetine | app.py:36-56 | "Duloxetine", written with 260 and later with 410, has stock 410 |
| Inventory.CatalogParacetamol | app.py:16 | "Paracetamol", written once, has stock 500 |
| Inventory.SeedNames | app.py:14-66 | the names in the display are the union of its fifteen categories |
| Medicines.OrgTextsAppend | app.py:78 | filtering the entities of two concatenated lists gives the two filtered lists concatenated |
| Medicines.OrgTexts | app.py:78 | the texts of the `ORG` entities in document order, never more than there are entities; characterised by OrgTextsMembers, OrgTextsEmpty and OrgTextsAppend |
| Medicines.OrgTextsMembers | app.py:78 | a text is kept exactly when some entity labelled `ORG` carries it |
| Medicines.OrgTextsEmpty | app.py:78-79 | nothing is kept exactly when no entity is labelled `ORG` |
| Medicines.ExtractMedicines | app.py:79 | the result is never empty |
| Medicines.ExtractMedicinesCases | app.py:78-79 | without `ORG` entities the result is exactly the sentinel; otherwise it is the `ORG` texts in order; every result is the sentinel or an `ORG` text |
| Matcher.Candidates | app.py:85 | exactly the choices whose score reaches the cutoff are kept, with their scores |
| Matcher.FirstMax | app.py:85 | the pick is one of the candidates, and no candidate scores higher |
| Matcher.ExtractOne | app.py:85-86 | nothing is found exactly when every choice scores below the cutoff; otherwise the result is a choice with its own score, at least the cutoff and no lower than any other choice's |
| Matcher.BestIndex | app.py:85 | the index of the first choice with the largest score |
| Matcher.ExtractOneIsBestAboveCutoff | app.py:85 | filtering then taking the first maximum equals taking the first overall best and checking it against the cutoff |
| Matcher.ExtractOneCutoff | app.py:85-86 | a match under a higher cutoff is the same match under a lower one, so raising the cutoff never turns a miss into a match |
| Matcher.ExactNameMatches | app.py:85 | a query that is an inventory name is matched at score 100, provided the scorer gives identical strings 100 |
| Matcher.ExactNameResolves | app.py:85-89 | an inventory name queried exactly, when no other inventory name also scores 100 against it, resolves to itself with "In stock: " and its own stock |
| Matcher.FirstNameResolves | app.py:85-89 | the first inventory name queried exactly resolves to itself and its stock whatever the other names score, since the first of equal maxima wins |
| Matcher.Decimal | app.py:89 | the decimal rendering of a stock is a non-empty digit string with no leading zero |
| Matcher.DecimalRoundTrip | app.py:89 | reading the decimal rendering back gives the stock |
| Matcher.Resolve | app.py:85-91 | an entry is keyed by an inventory name or by the medicine name as written |
| Matcher.InStock | app.py:89 | the match value `f"In stock: {stock}"`; it differs from "Not Available" of app.py:91 (InStockIsNotNotAvailable) and reads back as the stock (InStockRoundTrip) |
| Matcher.InStockFiveHundred | app.py:89 | a stock of 500 renders as "In stock: 500" |
| Matcher.ResolveCases | app.py:85-91 | either the key is the first best inventory name with score at least 80 and the value is "In stock: " and its stock, or the entry is the name as written with "Not Available" and every inventory name scores below 80 |
| Matcher.InStockIsNotNotAvailable | app.py:89-91 | a match value never equals the miss value |
| Matcher.InStockRoundTrip | app.py:89 | a match value is "In stock: " followed by a number that reads back as the stock |
| Matcher.Resolutions | app.py:84-91 | one assignment per medicine name, in order |
| Matcher.MatchInventory | app.py:82-92 | the loop leaves the dict built by the per-name assignments in order (invariant: the dict of the names processed so far) |
| Matcher.MatchedCovers | app.py:83-92 | every medicine name leaves an entry under its resolved key |
| Matcher.MatchedEntries | app.py:83-92 | every entry is the resolution of some medicine name |
| Matcher.MatchedSize | app.py:83-92 | there are at most as many entries as medicine names |
| Matcher.MatchedOrder | app.py:83-92 | entries are ordered by the first medicine name that produced their key |
| Text.LeadingSpace | app.py:73 | counts the whitespace prefix, which stops before a non-space |
| Text.TrailingSpace | app.py:73 | finds where the whitespace suffix starts, just after a non-space |
| Text.Strip | app.py:73 | the result is a slice of the input with only whitespace cut off either end, and neither of its ends is whitespace |
| Text.StripTrimmed | app.py:73 | text with no whitespace at either end is unchanged |
| Text.StripIdempotent | app.py:73 | stripping twice is stripping once |
| Text.IsSpace | app.py:73 | Python's whitespace set for `str.strip()` and `\s` in `str` patterns, used by Strip and the two scanners |
| Text.IsDigit | app.py:96-97 | `\d`, taken as the ASCII digits, used by DigitsEnd |
| Annotations.DigitsEnd | app.py:96 | `\d+` is taken whole: digits up to the result, and no digit at it |
| Annotations.DigitsEndAt | app.py:96 | a maximal digit run ends only where its digits stop |
| Annotations.FirstLiteralAt | app.py:96-97 | an ordered alternation finds an alternative written at a position with none of the earlier alternatives written there, or reports that none is |
| Annotations.FirstLiteralAtIs | app.py:96-97 | when alternatives differ within two characters, the alternation finds the one alternative that is written there |
| Annotations.ApartNotBoth | app.py:96-97 | two alternatives that differ early are never written at the same place |
| Annotations.MatchQuantityAt | app.py:96 | a match starting at a position ends after it |
| Annotations.QuantitySound | app.py:96 | whatever the scanner matches is digits, at most one whitespace character and a unit |
| Annotations.QuantityComplete | app.py:96 | every such span is what the scanner matches |
| Annotations.MatchDosageAt | app.py:96 | the dosage pattern tried at one position: a match ends after its start; its language is stated by DosageMatchIsDosage |
| Annotations.DosageUnitsShape | app.py:96 | the units start with lowercase letters and differ within two characters |
| Annotations.DosageMatchIsDosage | app.py:96 | the dosage scanner matches a span exactly when the span is a dosage |
| Annotations.EveryHoursMatchIsEveryHours | app.py:97 | the scanner for "every N hours" matches a span exactly when the span is one |
| Annotations.MatchEveryHoursAt | app.py:97 | the "every N hours" alternative tried at one position: a match ends after its start; its language is stated by EveryHoursMatchIsEveryHours |
| Annotations.MatchWordOrEveryAt | app.py:97 | a match starting at a position ends after it |
| Annotations.WordOrEveryMatch | app.py:97 | the scanner matches a span exactly when the span is an alternative word or "every N hours" |
| Annotations.FrequencyWordsShape | app.py:97 | no frequency word starts with `e`, and any two words differ within two characters |
| Annotations.MatchFrequencyAt | app.py:97 | the frequency pattern tried at one position: a match ends after its start; its language is stated by FrequencyMatchIsFrequency |
| Annotations.FrequencyMatchIsFrequency | app.py:97 | the frequency scanner matches a span exactly when the span is a frequency |
| Annotations.DosageText | app.py:103 | a dosage span, cut out of the text, is a dosage token |
| Annotations.FrequencyText | app.py:104 | a frequency span, cut out of the text, is a frequency token |
| Annotations.FindAll | app.py:99-100 | every span found lies inside the text, from the scan's start onwards |
| Annotations.FindAllMatches | app.py:99-100 | every span found is a match at its start |
| Annotations.FindAllOrdered | app.py:99-100 | spans come left to right and do not overlap |
| Annotations.FindAllLeftmost | app.py:99-100 | no match is skipped: every position where a match starts lies inside a span found |
| Annotations.FindAllEmpty | app.py:99-100 | nothing is found exactly when no match starts anywhere |
| Annotations.ScanDosage | app.py:99 | the dosage pattern as a scanner over the whole text (ScannersAdvance, DosageMatchIsDosage) |
| Annotations.ScanFrequency | app.py:100 | the frequency pattern as a scanner over the whole text (ScannersAdvance, FrequencyMatchIsFrequency) |
| Annotations.ScannersAdvance | app.py:99-100 | a match of either scanner ends after its start and within the text |
| Annotations.FindAllSkips | app.py:99-100 | a run of positions where no match starts is passed over, by repeating the single-position step |
| Annotations.FindAllTakes | app.py:99-100 | a match is reported and the scan resumes at its end |
| Annotations.NoDigitNoDosage | app.py:96 | no dosage starts at a non-digit |
| Annotations.FindAllSkip | app.py:99-100 | a position where no match starts is passed over |
| Annotations.NoLiteralNoFrequency | app.py:97 | no frequency starts where none of the alternatives is written |
| Annotations.NoInitialsNoFrequency | app.py:97 | no frequency starts at the end of the text, nor anywhere at a character that begins no alternative |
| Annotations.FrequencySkips | app.py:100 | the frequency scan passes over characters that begin no alternative |
| Annotations.Texts | app.py:103-104 | the tokens are the text's substrings at the spans found |
| Annotations.NotSpecifiedIsNoToken | app.py:103-104 | the sentinel itself is neither a dosage nor a frequency |
| Annotations.DosageTokens | app.py:99-103 | `[d[0] for d in re.findall(...)]`; stated by DosageTokensAreDosages and DosageSentinel |
| Annotations.FrequencyTokens | app.py:100-104 | `re.findall(...)` of the frequency pattern; stated by FrequencyTokensAreFrequencies and FrequencySentinel |
| Annotations.DosageTokensAreDosages | app.py:99-103 | every dosage token is a dosage as written |
| Annotations.FrequencyTokensAreFrequencies | app.py:100-104 | every frequency token is a frequency as written |
| Annotations.OrNotSpecified | app.py:103-104 | the list is never empty |
| Annotations.ExtractDosageFrequency | app.py:102-105 | both lists are non-empty |
| Annotations.DosageSentinel | app.py:103 | the dosages are the sentinel exactly when no dosage occurs anywhere; otherwise they are the tokens found |
| Annotations.FrequencySentinel | app.py:104 | the frequencies are the sentinel exactly when no frequency occurs anywhere; otherwise they are the tokens found |
| AnnotationExamples.DosageAsWritten | app.py:96 | "500mg" and "500 mg" are both dosages |
| AnnotationExamples.DosageAnyDigits | app.py:96 | "0 mg" and "007mg" are both dosages: the number is any run of digits |
| AnnotationExamples.EveryEightHours | app.py:97 | "every 8 hours" is a frequency |
| AnnotationExamples.TakeFiveHundredTwiceDaily | app.py:95-105 | "Take 500 mg twice daily" gives dosages ["500 mg"] and frequencies ["twice", "daily"] |
| AnnotationExamples.TwoSpacesNotADosage | app.py:96 | no span of "5  mg" from its start is a dosage |
| AnnotationExamples.TwoSpacesNoDosage | app.py:96-103 | "5  mg", with two spaces, gives the dosage sentinel |
| AnnotationExamples.CapitalisedNotAFrequency | app.py:97 | "Twice" is not a frequency |
| AnnotationExamples.CapitalisedNoFrequency | app.py:100-104 | "Twice" gives the frequency sentinel, because the scan is case-sensitive |
| Orders.Strings | app.py:102-105 | a string list becomes a JSON list of the same strings |
| Orders.StringMembers | app.py:116 | the matched dict becomes object members with the same keys, order and strings |
| Orders.AssembleOrder | app.py:114-118 | the order has exactly three members: the text first, then the matches, then the annotations |
| Orders.ReadStrings | app.py:102-105 | a list read back has as many strings as it has items |
| Orders.ReadStringMembers | app.py:116 | members read back are as many as those written |
| Orders.ReadStringsRoundTrip | app.py:102-105 | a string list written as JSON reads back unchanged |
| Orders.ReadStringMembersRoundTrip | app.py:116 | the matched dict written as members reads back unchanged |
| Orders.ReadAssembleRoundTrip | app.py:114-118 | every order reads back unchanged from its JSON object |
| Orders.ReadOrder | app.py:114-118 | the inverse of AssembleOrder (ReadAssembleRoundTrip) |
| Orders.OrderFor | app.py:108-118 | the order the pipeline composes from the stripped text; GenerateOrder is proved to produce it |
| Orders.GenerateOrder | app.py:108-120 | the object holds the stripped text, the inventory matches of the `ORG` entities recognised in it, and its annotations, and it reads back as that order |
| Orders.NoEntityOneMedicine | app.py:79-92 | with no `ORG` entity, the order lists exactly one medicine: the sentinel's resolution |
| Orders.ParacetamolInStock | app.py:85-89 | "Paracetamol" resolves to ("Paracetamol", "In stock: 500") for any scorer that gives an exact name 100 |

## Left out

- OCR (`pytesseract.image_to_string`): an external engine working on an image. `GenerateOrder` takes its output as a string, so `extract_text` is modelled only as `Text.Strip`.
- Named-entity recognition (`spacy.load`, `nlp(text)`): a trained model. `GenerateOrder` takes it as a function from text to entities.
- The fuzzy scorer (fuzzywuzzy's `WRatio` with its default string preprocessing): the library is not part of this model and scores with floating point. The model takes any function into 0..100. `Matcher.ExactNameMatches` requires that identical strings score 100. Tie-breaking follows `max`, which keeps the first best.
- The pandas DataFrame: the model keeps a single dict. The row lookup `inventory_df[...]["Stock"].values[0]` is the dict's value for the name, because the names are unique.
- `json.dumps` with `indent=4`: text formatting and escaping are not modelled. `Orders` models the JSON value and its member order.
- The Gradio user interface and `launch()`.
- `\d` stands for ASCII digits only. Python's `str` patterns also accept other Unicode decimal digits. `\s` and `strip()` are modelled with Python's full whitespace set.
- Matcher.ExactNameMatches: it proves a score of 100 only when the scorer gives identical strings 100, because the scorer is abstract. It does not say that the match is the query itself: another inventory name may also score 100 and be listed earlier. `Matcher.ExactNameResolves` gives the query's own name and stock when no other name ties at 100, and `Matcher.FirstNameResolves` does so for the first inventory name whatever the other names score.
- Orders.NoEntityOneMedicine: the code reports the sentinel "No medicines detected" as "Not Available" only if the scorer keeps it below 80 against every inventory name. The lemma proves that there is one entry and that it is the sentinel's resolution.
- The code and its design notes disagree in four places, and the model follows the code:
  - Frequencies are matched case-sensitively, since no flag is passed to `re.findall`. `AnnotationExamples.CapitalisedNoFrequency` shows this.
  - Repeated matches collapse into one dict entry rather than being listed twice. `Matcher.MatchedSize` shows this.
  - The design notes say the matcher returns an empty mapping for the "No medicines detected" sentinel. `match_inventory` (app.py:83-92) treats the sentinel like any other name and stores one entry for it. `Orders.NoEntityOneMedicine` shows this.
  - The design notes describe the dosage number as a positive integer. `\d+` (app.py:96) accepts any run of digits, including "0" and leading zeros. `AnnotationExamples.DosageAnyDigits` shows this.
