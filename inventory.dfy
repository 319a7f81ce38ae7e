/** The seed inventory of app.py: a dict display of (medicine name, stock) pairs in fifteen
    commented categories. The display names "Duloxetine" twice, with 260 under mental health and
    410 under pain management; as in any dict display, the later value is the one kept and the
    key keeps the position of its first occurrence. */
module Inventory {
  import opened Wrappers
  import opened Dicts

  // Painkillers & Fever (app.py:16-17)
  const PainkillersAndFever: seq<(string, nat)> := [
    ("Paracetamol", 500), ("Ibuprofen", 400), ("Aspirin", 300), ("Diclofenac", 250), ("Naproxen", 200),
    ("Tramadol", 150), ("Celecoxib", 180), ("Codeine", 120), ("Morphine", 80), ("Fentanyl", 60)
  ]

  // Antibiotics (app.py:20-21)
  const Antibiotics: seq<(string, nat)> := [
    ("Amoxicillin", 300), ("Azithromycin", 250), ("Ciprofloxacin", 220), ("Doxycycline", 180), ("Clarithromycin", 200),
    ("Metronidazole", 190), ("Rifampicin", 160), ("Cephalexin", 140), ("Erythromycin", 170), ("Vancomycin", 100)
  ]

  // Antidiabetics (app.py:24-25)
  const Antidiabetics: seq<(string, nat)> := [
    ("Metformin", 350), ("Glimepiride", 200), ("Sitagliptin", 180), ("Pioglitazone", 150), ("Insulin", 300),
    ("Liraglutide", 130), ("Canagliflozin", 140), ("Dapagliflozin", 120), ("Acarbose", 110), ("Gliclazide", 100)
  ]

  // Blood Pressure & Heart (app.py:28-29)
  const BloodPressureAndHeart: seq<(string, nat)> := [
    ("Losartan", 400), ("Amlodipine", 380), ("Metoprolol", 350), ("Enalapril", 340), ("Ramipril", 300),
    ("Atenolol", 290), ("Carvedilol", 270), ("Hydrochlorothiazide", 260), ("Verapamil", 250), ("Furosemide", 220)
  ]

  // Cholesterol (app.py:32)
  const Cholesterol: seq<(string, nat)> := [
    ("Atorvastatin", 450), ("Simvastatin", 400), ("Rosuvastatin", 380), ("Pravastatin", 360), ("Ezetimibe", 300)
  ]

  // Mental Health & CNS (app.py:35-36)
  const MentalHealthAndCns: seq<(string, nat)> := [
    ("Sertraline", 320), ("Fluoxetine", 310), ("Citalopram", 290), ("Escitalopram", 280), ("Venlafaxine", 270),
    ("Duloxetine", 260), ("Bupropion", 250), ("Risperidone", 240), ("Olanzapine", 230), ("Quetiapine", 220)
  ]

  // Asthma & COPD (app.py:39-40)
  const AsthmaAndCopd: seq<(string, nat)> := [
    ("Salbutamol", 500), ("Montelukast", 480), ("Budesonide", 460), ("Tiotropium", 440), ("Ipratropium", 420),
    ("Fluticasone", 400), ("Mometasone", 380), ("Theophylline", 360), ("Prednisone", 340), ("Dexamethasone", 320)
  ]

  // Stomach & Digestion (app.py:43-44)
  const StomachAndDigestion: seq<(string, nat)> := [
    ("Omeprazole", 450), ("Esomeprazole", 430), ("Pantoprazole", 420), ("Ranitidine", 400), ("Famotidine", 380),
    ("Domperidone", 350), ("Metoclopramide", 320), ("Loperamide", 300), ("Ondansetron", 280), ("Sucralfate", 260)
  ]

  // Thyroid & Hormones (app.py:47)
  const ThyroidAndHormones: seq<(string, nat)> := [
    ("Levothyroxine", 500), ("Liothyronine", 480), ("Methimazole", 450), ("Propylthiouracil", 430), ("Hydrocortisone", 400)
  ]

  // Immunosuppressants (app.py:50)
  const Immunosuppressants: seq<(string, nat)> := [
    ("Cyclosporine", 300), ("Tacrolimus", 280), ("Azathioprine", 260), ("Mycophenolate", 250), ("Methotrexate", 230)
  ]

  // Blood Thinners & Anti-Clotting (app.py:53)
  const BloodThinners: seq<(string, nat)> := [
    ("Warfarin", 400), ("Clopidogrel", 380), ("Dabigatran", 360), ("Apixaban", 340), ("Rivaroxaban", 320)
  ]

  // Pain Management & Neuropathy (app.py:56)
  const PainManagement: seq<(string, nat)> := [
    ("Gabapentin", 500), ("Pregabalin", 480), ("Amitriptyline", 450), ("Nortriptyline", 430), ("Duloxetine", 410)
  ]

  // Anti-Allergy (app.py:59)
  const AntiAllergy: seq<(string, nat)> := [
    ("Cetirizine", 500), ("Loratadine", 480), ("Fexofenadine", 460), ("Diphenhydramine", 440), ("Chlorpheniramine", 420)
  ]

  // Anti-Seizure (app.py:62)
  const AntiSeizure: seq<(string, nat)> := [
    ("Levetiracetam", 500), ("Valproic Acid", 480), ("Carbamazepine", 460), ("Lamotrigine", 440), ("Phenytoin", 420)
  ]

  // Eye Care (app.py:65)
  const EyeCare: seq<(string, nat)> := [
    ("Latanoprost", 500), ("Timolol", 480), ("Brimonidine", 460), ("Dorzolamide", 440), ("Bimatoprost", 420)
  ]

  /** The pairs of the display, in the order they are written. */
  function SeedPairs(): seq<(string, nat)> {
    PainkillersAndFever
    + Antibiotics
    + Antidiabetics
    + BloodPressureAndHeart
    + Cholesterol
    + MentalHealthAndCns
    + AsthmaAndCopd
    + StomachAndDigestion
    + ThyroidAndHormones
    + Immunosuppressants
    + BloodThinners
    + PainManagement
    + AntiAllergy
    + AntiSeizure
    + EyeCare
  }

  /** `inventory_data`; `inventory_df` lists the same names in the same order. */
  function Catalog(): Dict<nat> {
    FromPairs(SeedPairs())
  }

  /* The names are counted one category at a time: each category's names are checked against
     each other and against those of every earlier category, block by block (a check against all
     110 names at once is too large for the solver). Only "Duloxetine" is repeated. */

  lemma {:induction false} PainkillersAndFeverCounted()
    ensures |KeySet(PainkillersAndFever)| == 10
  {
    assert UniqueKeys(PainkillersAndFever);
    UniqueKeysCard(PainkillersAndFever);
  }

  lemma AntibioticsNamesNew()
    ensures UniqueKeys(Antibiotics)
    ensures KeySet(Antibiotics) !! KeySet(PainkillersAndFever)
  {
  }

  lemma {:induction false} AntibioticsCounted()
    ensures |KeySet(PainkillersAndFever) + KeySet(Antibiotics)| == 20
  {
    PainkillersAndFeverCounted();
    AntibioticsNamesNew();
    AddCategory(KeySet(PainkillersAndFever), Antibiotics, {});
  }

  lemma AntidiabeticsNamesNew()
    ensures UniqueKeys(Antidiabetics)
    ensures KeySet(Antidiabetics) !! KeySet(PainkillersAndFever)
    ensures KeySet(Antidiabetics) !! KeySet(Antibiotics)
  {
  }

  lemma {:induction false} AntidiabeticsCounted()
    ensures |KeySet(PainkillersAndFever) + KeySet(Antibiotics) + KeySet(Antidiabetics)| == 30
  {
    AntibioticsCounted();
    AntidiabeticsNamesNew();
    AddCategory(KeySet(PainkillersAndFever) + KeySet(Antibiotics), Antidiabetics, {});
  }

  lemma BloodPressureAndHeartNamesNew()
    ensures UniqueKeys(BloodPressureAndHeart)
    ensures KeySet(BloodPressureAndHeart) !! KeySet(PainkillersAndFever)
    ensures KeySet(BloodPressureAndHeart) !! KeySet(Antibiotics)
    ensures KeySet(BloodPressureAndHeart) !! KeySet(Antidiabetics)
  {
  }

  lemma {:induction false} BloodPressureAndHeartCounted()
    ensures |KeySet(PainkillersAndFever) + KeySet(Antibiotics) + KeySet(Antidiabetics) + KeySet(BloodPressureAndHeart)| == 40
  {
    AntidiabeticsCounted();
    BloodPressureAndHeartNamesNew();
    AddCategory(KeySet(PainkillersAndFever) + KeySet(Antibiotics) + KeySet(Antidiabetics), BloodPressureAndHeart, {});
  }

  lemma CholesterolNamesNew()
    ensures UniqueKeys(Cholesterol)
    ensures KeySet(Cholesterol) !! KeySet(PainkillersAndFever)
    ensures KeySet(Cholesterol) !! KeySet(Antibiotics)
    ensures KeySet(Cholesterol) !! KeySet(Antidiabetics)
    ensures KeySet(Cholesterol) !! KeySet(BloodPressureAndHeart)
  {
  }

  lemma {:induction false} CholesterolCounted()
    ensures |KeySet(PainkillersAndFever) + KeySet(Antibiotics) + KeySet(Antidiabetics) + KeySet(BloodPressureAndHeart) + KeySet(Cholesterol)| == 45
  {
    BloodPressureAndHeartCounted();
    CholesterolNamesNew();
    AddCategory(KeySet(PainkillersAndFever) + KeySet(Antibiotics) + KeySet(Antidiabetics) + KeySet(BloodPressureAndHeart), Cholesterol, {});
  }

  lemma MentalHealthAndCnsApartFromFirstFive()
    ensures KeySet(MentalHealthAndCns) !! KeySet(PainkillersAndFever)
    ensures KeySet(MentalHealthAndCns) !! KeySet(Antibiotics)
    ensures KeySet(MentalHealthAndCns) !! KeySet(Antidiabetics)
    ensures KeySet(MentalHealthAndCns) !! KeySet(BloodPressureAndHeart)
    ensures KeySet(MentalHealthAndCns) !! KeySet(Cholesterol)
  {
  }

  lemma MentalHealthAndCnsNamesNew()
    ensures UniqueKeys(MentalHealthAndCns)
  {
  }

  lemma {:induction false} MentalHealthAndCnsCounted()
    ensures |KeySet(PainkillersAndFever) + KeySet(Antibiotics) + KeySet(Antidiabetics) + KeySet(BloodPressureAndHeart) + KeySet(Cholesterol) + KeySet(MentalHealthAndCns)| == 55
  {
    CholesterolCounted();
    MentalHealthAndCnsApartFromFirstFive();
    MentalHealthAndCnsNamesNew();
    AddCategory(KeySet(PainkillersAndFever) + KeySet(Antibiotics) + KeySet(Antidiabetics) + KeySet(BloodPressureAndHeart) + KeySet(Cholesterol), MentalHealthAndCns, {});
  }

  lemma AsthmaAndCopdApartFromFirstFive()
    ensures KeySet(AsthmaAndCopd) !! KeySet(PainkillersAndFever)
    ensures KeySet(AsthmaAndCopd) !! KeySet(Antibiotics)
    ensures KeySet(AsthmaAndCopd) !! KeySet(Antidiabetics)
    ensures KeySet(AsthmaAndCopd) !! KeySet(BloodPressureAndHeart)
    ensures KeySet(AsthmaAndCopd) !! KeySet(Cholesterol)
  {
  }

  lemma AsthmaAndCopdNamesNew()
    ensures UniqueKeys(AsthmaAndCopd)
    ensures KeySet(AsthmaAndCopd) !! KeySet(MentalHealthAndCns)
  {
  }

  lemma {:induction false} AsthmaAndCopdCounted()
    ensures |KeySet(PainkillersAndFever) + KeySet(Antibiotics) + KeySet(Antidiabetics) + KeySet(BloodPressureAndHeart) + KeySet(Cholesterol) + KeySet(MentalHealthAndCns) + KeySet(AsthmaAndCopd)| == 65
  {
    MentalHealthAndCnsCounted();
    AsthmaAndCopdApartFromFirstFive();
    AsthmaAndCopdNamesNew();
    AddCategory(KeySet(PainkillersAndFever) + KeySet(Antibiotics) + KeySet(Antidiabetics) + KeySet(BloodPressureAndHeart) + KeySet(Cholesterol) + KeySet(MentalHealthAndCns), AsthmaAndCopd, {});
  }

  lemma StomachAndDigestionApartFromFirstFive()
    ensures KeySet(StomachAndDigestion) !! KeySet(PainkillersAndFever)
    ensures KeySet(StomachAndDigestion) !! KeySet(Antibiotics)
    ensures KeySet(StomachAndDigestion) !! KeySet(Antidiabetics)
    ensures KeySet(StomachAndDigestion) !! KeySet(BloodPressureAndHeart)
    ensures KeySet(StomachAndDigestion) !! KeySet(Cholesterol)
  {
  }

  lemma StomachAndDigestionNamesNew()
    ensures UniqueKeys(StomachAndDigestion)
    ensures KeySet(StomachAndDigestion) !! KeySet(MentalHealthAndCns)
    ensures KeySet(StomachAndDigestion) !! KeySet(AsthmaAndCopd)
  {
  }

  lemma {:induction false} StomachAndDigestionCounted()
    ensures |KeySet(PainkillersAndFever) + KeySet(Antibiotics) + KeySet(Antidiabetics) + KeySet(BloodPressureAndHeart) + KeySet(Cholesterol) + KeySet(MentalHealthAndCns) + KeySet(AsthmaAndCopd) + KeySet(StomachAndDigestion)| == 75
  {
    AsthmaAndCopdCounted();
    StomachAndDigestionApartFromFirstFive();
    StomachAndDigestionNamesNew();
    AddCategory(KeySet(PainkillersAndFever) + KeySet(Antibiotics) + KeySet(Antidiabetics) + KeySet(BloodPressureAndHeart) + KeySet(Cholesterol) + KeySet(MentalHealthAndCns) + KeySet(AsthmaAndCopd), StomachAndDigestion, {});
  }

  lemma ThyroidAndHormonesApartFromFirstFive()
    ensures KeySet(ThyroidAndHormones) !! KeySet(PainkillersAndFever)
    ensures KeySet(ThyroidAndHormones) !! KeySet(Antibiotics)
    ensures KeySet(ThyroidAndHormones) !! KeySet(Antidiabetics)
    ensures KeySet(ThyroidAndHormones) !! KeySet(BloodPressureAndHeart)
    ensures KeySet(ThyroidAndHormones) !! KeySet(Cholesterol)
  {
  }

  lemma ThyroidAndHormonesNamesNew()
    ensures UniqueKeys(ThyroidAndHormones)
    ensures KeySet(ThyroidAndHormones) !! KeySet(MentalHealthAndCns)
    ensures KeySet(ThyroidAndHormones) !! KeySet(AsthmaAndCopd)
    ensures KeySet(ThyroidAndHormones) !! KeySet(StomachAndDigestion)
  {
  }

  lemma {:induction false} ThyroidAndHormonesCounted()
    ensures |KeySet(PainkillersAndFever) + KeySet(Antibiotics) + KeySet(Antidiabetics) + KeySet(BloodPressureAndHeart) + KeySet(Cholesterol) + KeySet(MentalHealthAndCns) + KeySet(AsthmaAndCopd) + KeySet(StomachAndDigestion) + KeySet(ThyroidAndHormones)| == 80
  {
    StomachAndDigestionCounted();
    ThyroidAndHormonesApartFromFirstFive();
    ThyroidAndHormonesNamesNew();
    AddCategory(KeySet(PainkillersAndFever) + KeySet(Antibiotics) + KeySet(Antidiabetics) + KeySet(BloodPressureAndHeart) + KeySet(Cholesterol) + KeySet(MentalHealthAndCns) + KeySet(AsthmaAndCopd) + KeySet(StomachAndDigestion), ThyroidAndHormones, {});
  }

  lemma ImmunosuppressantsApartFromFirstFive()
    ensures KeySet(Immunosuppressants) !! KeySet(PainkillersAndFever)
    ensures KeySet(Immunosuppressants) !! KeySet(Antibiotics)
    ensures KeySet(Immunosuppressants) !! KeySet(Antidiabetics)
    ensures KeySet(Immunosuppressants) !! KeySet(BloodPressureAndHeart)
    ensures KeySet(Immunosuppressants) !! KeySet(Cholesterol)
  {
  }

  lemma ImmunosuppressantsNamesNew()
    ensures UniqueKeys(Immunosuppressants)
    ensures KeySet(Immunosuppressants) !! KeySet(MentalHealthAndCns)
    ensures KeySet(Immunosuppressants) !! KeySet(AsthmaAndCopd)
    ensures KeySet(Immunosuppressants) !! KeySet(StomachAndDigestion)
    ensures KeySet(Immunosuppressants) !! KeySet(ThyroidAndHormones)
  {
  }

  lemma {:induction false} ImmunosuppressantsCounted()
    ensures |KeySet(PainkillersAndFever) + KeySet(Antibiotics) + KeySet(Antidiabetics) + KeySet(BloodPressureAndHeart) + KeySet(Cholesterol) + KeySet(MentalHealthAndCns) + KeySet(AsthmaAndCopd) + KeySet(StomachAndDigestion) + KeySet(ThyroidAndHormones) + KeySet(Immunosuppressants)| == 85
  {
    ThyroidAndHormonesCounted();
    ImmunosuppressantsApartFromFirstFive();
    ImmunosuppressantsNamesNew();
    AddCategory(KeySet(PainkillersAndFever) + KeySet(Antibiotics) + KeySet(Antidiabetics) + KeySet(BloodPressureAndHeart) + KeySet(Cholesterol) + KeySet(MentalHealthAndCns) + KeySet(AsthmaAndCopd) + KeySet(StomachAndDigestion) + KeySet(ThyroidAndHormones), Immunosuppressants, {});
  }

  lemma BloodThinnersApartFromFirstFive()
    ensures KeySet(BloodThinners) !! KeySet(PainkillersAndFever)
    ensures KeySet(BloodThinners) !! KeySet(Antibiotics)
    ensures KeySet(BloodThinners) !! KeySet(Antidiabetics)
    ensures KeySet(BloodThinners) !! KeySet(BloodPressureAndHeart)
    ensures KeySet(BloodThinners) !! KeySet(Cholesterol)
  {
  }

  lemma BloodThinnersApartFromNextFive()
    ensures KeySet(BloodThinners) !! KeySet(MentalHealthAndCns)
    ensures KeySet(BloodThinners) !! KeySet(AsthmaAndCopd)
    ensures KeySet(BloodThinners) !! KeySet(StomachAndDigestion)
    ensures KeySet(BloodThinners) !! KeySet(ThyroidAndHormones)
    ensures KeySet(BloodThinners) !! KeySet(Immunosuppressants)
  {
  }

  lemma BloodThinnersNamesNew()
    ensures UniqueKeys(BloodThinners)
  {
  }

  lemma {:induction false} BloodThinnersCounted()
    ensures |KeySet(PainkillersAndFever) + KeySet(Antibiotics) + KeySet(Antidiabetics) + KeySet(BloodPressureAndHeart) + KeySet(Cholesterol) + KeySet(MentalHealthAndCns) + KeySet(AsthmaAndCopd) + KeySet(StomachAndDigestion) + KeySet(ThyroidAndHormones) + KeySet(Immunosuppressants) + KeySet(BloodThinners)| == 90
  {
    ImmunosuppressantsCounted();
    BloodThinnersApartFromFirstFive();
    BloodThinnersApartFromNextFive();
    BloodThinnersNamesNew();
    AddCategory(KeySet(PainkillersAndFever) + KeySet(Antibiotics) + KeySet(Antidiabetics) + KeySet(BloodPressureAndHeart) + KeySet(Cholesterol) + KeySet(MentalHealthAndCns) + KeySet(AsthmaAndCopd) + KeySet(StomachAndDigestion) + KeySet(ThyroidAndHormones) + KeySet(Immunosuppressants), BloodThinners, {});
  }

  lemma PainManagementApartFromFirstFive()
    ensures (KeySet(PainManagement) - {"Duloxetine"}) !! KeySet(PainkillersAndFever)
    ensures (KeySet(PainManagement) - {"Duloxetine"}) !! KeySet(Antibiotics)
    ensures (KeySet(PainManagement) - {"Duloxetine"}) !! KeySet(Antidiabetics)
    ensures (KeySet(PainManagement) - {"Duloxetine"}) !! KeySet(BloodPressureAndHeart)
    ensures (KeySet(PainManagement) - {"Duloxetine"}) !! KeySet(Cholesterol)
  {
  }

  lemma PainManagementApartFromNextFive()
    ensures (KeySet(PainManagement) - {"Duloxetine"}) !! KeySet(MentalHealthAndCns)
    ensures (KeySet(PainManagement) - {"Duloxetine"}) !! KeySet(AsthmaAndCopd)
    ensures (KeySet(PainManagement) - {"Duloxetine"}) !! KeySet(StomachAndDigestion)
    ensures (KeySet(PainManagement) - {"Duloxetine"}) !! KeySet(ThyroidAndHormones)
    ensures (KeySet(PainManagement) - {"Duloxetine"}) !! KeySet(Immunosuppressants)
  {
  }

  lemma PainManagementNamesNew()
    ensures UniqueKeys(PainManagement)
    ensures (KeySet(PainManagement) - {"Duloxetine"}) !! KeySet(BloodThinners)
    ensures "Duloxetine" in KeySet(MentalHealthAndCns) && "Duloxetine" in KeySet(PainManagement)
  {
    assert Keys(MentalHealthAndCns)[5] == "Duloxetine" && Keys(PainManagement)[4] == "Duloxetine";
  }

  lemma {:induction false} PainManagementCounted()
    ensures |KeySet(PainkillersAndFever) + KeySet(Antibiotics) + KeySet(Antidiabetics) + KeySet(BloodPressureAndHeart) + KeySet(Cholesterol) + KeySet(MentalHealthAndCns) + KeySet(AsthmaAndCopd) + KeySet(StomachAndDigestion) + KeySet(ThyroidAndHormones) + KeySet(Immunosuppressants) + KeySet(BloodThinners) + KeySet(PainManagement)| == 94
  {
    BloodThinnersCounted();
    PainManagementApartFromFirstFive();
    PainManagementApartFromNextFive();
    PainManagementNamesNew();
    AddCategory(KeySet(PainkillersAndFever) + KeySet(Antibiotics) + KeySet(Antidiabetics) + KeySet(BloodPressureAndHeart) + KeySet(Cholesterol) + KeySet(MentalHealthAndCns) + KeySet(AsthmaAndCopd) + KeySet(StomachAndDigestion) + KeySet(ThyroidAndHormones) + KeySet(Immunosuppressants) + KeySet(BloodThinners), PainManagement, {"Duloxetine"});
  }

  lemma AntiAllergyApartFromFirstFive()
    ensures KeySet(AntiAllergy) !! KeySet(PainkillersAndFever)
    ensures KeySet(AntiAllergy) !! KeySet(Antibiotics)
    ensures KeySet(AntiAllergy) !! KeySet(Antidiabetics)
    ensures KeySet(AntiAllergy) !! KeySet(BloodPressureAndHeart)
    ensures KeySet(AntiAllergy) !! KeySet(Cholesterol)
  {
  }

  lemma AntiAllergyApartFromNextFive()
    ensures KeySet(AntiAllergy) !! KeySet(MentalHealthAndCns)
    ensures KeySet(AntiAllergy) !! KeySet(AsthmaAndCopd)
    ensures KeySet(AntiAllergy) !! KeySet(StomachAndDigestion)
    ensures KeySet(AntiAllergy) !! KeySet(ThyroidAndHormones)
    ensures KeySet(AntiAllergy) !! KeySet(Immunosuppressants)
  {
  }

  lemma AntiAllergyNamesNew()
    ensures UniqueKeys(AntiAllergy)
    ensures KeySet(AntiAllergy) !! KeySet(BloodThinners)
    ensures KeySet(AntiAllergy) !! KeySet(PainManagement)
  {
  }

  lemma {:induction false} AntiAllergyCounted()
    ensures |KeySet(PainkillersAndFever) + KeySet(Antibiotics) + KeySet(Antidiabetics) + KeySet(BloodPressureAndHeart) + KeySet(Cholesterol) + KeySet(MentalHealthAndCns) + KeySet(AsthmaAndCopd) + KeySet(StomachAndDigestion) + KeySet(ThyroidAndHormones) + KeySet(Immunosuppressants) + KeySet(BloodThinners) + KeySet(PainManagement) + KeySet(AntiAllergy)| == 99
  {
    PainManagementCounted();
    AntiAllergyApartFromFirstFive();
    AntiAllergyApartFromNextFive();
    AntiAllergyNamesNew();
    AddCategory(KeySet(PainkillersAndFever) + KeySet(Antibiotics) + KeySet(Antidiabetics) + KeySet(BloodPressureAndHeart) + KeySet(Cholesterol) + KeySet(MentalHealthAndCns) + KeySet(AsthmaAndCopd) + KeySet(StomachAndDigestion) + KeySet(ThyroidAndHormones) + KeySet(Immunosuppressants) + KeySet(BloodThinners) + KeySet(PainManagement), AntiAllergy, {});
  }

  lemma AntiSeizureApartFromFirstFive()
    ensures KeySet(AntiSeizure) !! KeySet(PainkillersAndFever)
    ensures KeySet(AntiSeizure) !! KeySet(Antibiotics)
    ensures KeySet(AntiSeizure) !! KeySet(Antidiabetics)
    ensures KeySet(AntiSeizure) !! KeySet(BloodPressureAndHeart)
    ensures KeySet(AntiSeizure) !! KeySet(Cholesterol)
  {
  }

  lemma AntiSeizureApartFromNextFive()
    ensures KeySet(AntiSeizure) !! KeySet(MentalHealthAndCns)
    ensures KeySet(AntiSeizure) !! KeySet(AsthmaAndCopd)
    ensures KeySet(AntiSeizure) !! KeySet(StomachAndDigestion)
    ensures KeySet(AntiSeizure) !! KeySet(ThyroidAndHormones)
    ensures KeySet(AntiSeizure) !! KeySet(Immunosuppressants)
  {
  }

  lemma AntiSeizureNamesNew()
    ensures UniqueKeys(AntiSeizure)
    ensures KeySet(AntiSeizure) !! KeySet(BloodThinners)
    ensures KeySet(AntiSeizure) !! KeySet(PainManagement)
    ensures KeySet(AntiSeizure) !! KeySet(AntiAllergy)
  {
  }

  lemma {:induction false} AntiSeizureCounted()
    ensures |KeySet(PainkillersAndFever) + KeySet(Antibiotics) + KeySet(Antidiabetics) + KeySet(BloodPressureAndHeart) + KeySet(Cholesterol) + KeySet(MentalHealthAndCns) + KeySet(AsthmaAndCopd) + KeySet(StomachAndDigestion) + KeySet(ThyroidAndHormones) + KeySet(Immunosuppressants) + KeySet(BloodThinners) + KeySet(PainManagement) + KeySet(AntiAllergy) + KeySet(AntiSeizure)| == 104
  {
    AntiAllergyCounted();
    AntiSeizureApartFromFirstFive();
    AntiSeizureApartFromNextFive();
    AntiSeizureNamesNew();
    AddCategory(KeySet(PainkillersAndFever) + KeySet(Antibiotics) + KeySet(Antidiabetics) + KeySet(BloodPressureAndHeart) + KeySet(Cholesterol) + KeySet(MentalHealthAndCns) + KeySet(AsthmaAndCopd) + KeySet(StomachAndDigestion) + KeySet(ThyroidAndHormones) + KeySet(Immunosuppressants) + KeySet(BloodThinners) + KeySet(PainManagement) + KeySet(AntiAllergy), AntiSeizure, {});
  }

  lemma EyeCareApartFromFirstFive()
    ensures KeySet(EyeCare) !! KeySet(PainkillersAndFever)
    ensures KeySet(EyeCare) !! KeySet(Antibiotics)
    ensures KeySet(EyeCare) !! KeySet(Antidiabetics)
    ensures KeySet(EyeCare) !! KeySet(BloodPressureAndHeart)
    ensures KeySet(EyeCare) !! KeySet(Cholesterol)
  {
  }

  lemma EyeCareApartFromNextFive()
    ensures KeySet(EyeCare) !! KeySet(MentalHealthAndCns)
    ensures KeySet(EyeCare) !! KeySet(AsthmaAndCopd)
    ensures KeySet(EyeCare) !! KeySet(StomachAndDigestion)
    ensures KeySet(EyeCare) !! KeySet(ThyroidAndHormones)
    ensures KeySet(EyeCare) !! KeySet(Immunosuppressants)
  {
  }

  lemma EyeCareNamesNew()
    ensures UniqueKeys(EyeCare)
    ensures KeySet(EyeCare) !! KeySet(BloodThinners)
    ensures KeySet(EyeCare) !! KeySet(PainManagement)
    ensures KeySet(EyeCare) !! KeySet(AntiAllergy)
    ensures KeySet(EyeCare) !! KeySet(AntiSeizure)
  {
  }

  lemma {:induction false} EyeCareCounted()
    ensures |KeySet(PainkillersAndFever) + KeySet(Antibiotics) + KeySet(Antidiabetics) + KeySet(BloodPressureAndHeart) + KeySet(Cholesterol) + KeySet(MentalHealthAndCns) + KeySet(AsthmaAndCopd) + KeySet(StomachAndDigestion) + KeySet(ThyroidAndHormones) + KeySet(Immunosuppressants) + KeySet(BloodThinners) + KeySet(PainManagement) + KeySet(AntiAllergy) + KeySet(AntiSeizure) + KeySet(EyeCare)| == 109
  {
    AntiSeizureCounted();
    EyeCareApartFromFirstFive();
    EyeCareApartFromNextFive();
    EyeCareNamesNew();
    AddCategory(KeySet(PainkillersAndFever) + KeySet(Antibiotics) + KeySet(Antidiabetics) + KeySet(BloodPressureAndHeart) + KeySet(Cholesterol) + KeySet(MentalHealthAndCns) + KeySet(AsthmaAndCopd) + KeySet(StomachAndDigestion) + KeySet(ThyroidAndHormones) + KeySet(Immunosuppressants) + KeySet(BloodThinners) + KeySet(PainManagement) + KeySet(AntiAllergy) + KeySet(AntiSeizure), EyeCare, {});
  }

  /** Adding a category to the names seen so far adds one name per pair, less the names the
      category repeats. */
  lemma AddCategory(seen: set<string>, category: seq<(string, nat)>, repeated: set<string>)
    requires UniqueKeys(category)
    requires repeated <= seen && repeated <= KeySet(category)
    requires (KeySet(category) - repeated) !! seen
    ensures |seen + KeySet(category)| == |seen| + |category| - |repeated|
  {
    UniqueKeysCard(category);
    assert seen + KeySet(category) == seen + (KeySet(category) - repeated);
    assert |KeySet(category) - repeated| == |KeySet(category)| - |repeated|;
  }

  /** The names the display mentions are those of its categories. */
  lemma SeedNames()
    ensures KeySet(SeedPairs()) == KeySet(PainkillersAndFever) + KeySet(Antibiotics) + KeySet(Antidiabetics) + KeySet(BloodPressureAndHeart) + KeySet(Cholesterol) + KeySet(MentalHealthAndCns) + KeySet(AsthmaAndCopd) + KeySet(StomachAndDigestion) + KeySet(ThyroidAndHormones) + KeySet(Immunosuppressants) + KeySet(BloodThinners) + KeySet(PainManagement) + KeySet(AntiAllergy) + KeySet(AntiSeizure) + KeySet(EyeCare)
  {
    var pairs := PainkillersAndFever;
    KeysOfAppend(pairs, Antibiotics);
    pairs := pairs + Antibiotics;
    KeysOfAppend(pairs, Antidiabetics);
    pairs := pairs + Antidiabetics;
    KeysOfAppend(pairs, BloodPressureAndHeart);
    pairs := pairs + BloodPressureAndHeart;
    KeysOfAppend(pairs, Cholesterol);
    pairs := pairs + Cholesterol;
    KeysOfAppend(pairs, MentalHealthAndCns);
    pairs := pairs + MentalHealthAndCns;
    KeysOfAppend(pairs, AsthmaAndCopd);
    pairs := pairs + AsthmaAndCopd;
    KeysOfAppend(pairs, StomachAndDigestion);
    pairs := pairs + StomachAndDigestion;
    KeysOfAppend(pairs, ThyroidAndHormones);
    pairs := pairs + ThyroidAndHormones;
    KeysOfAppend(pairs, Immunosuppressants);
    pairs := pairs + Immunosuppressants;
    KeysOfAppend(pairs, BloodThinners);
    pairs := pairs + BloodThinners;
    KeysOfAppend(pairs, PainManagement);
    pairs := pairs + PainManagement;
    KeysOfAppend(pairs, AntiAllergy);
    pairs := pairs + AntiAllergy;
    KeysOfAppend(pairs, AntiSeizure);
    pairs := pairs + AntiSeizure;
    KeysOfAppend(pairs, EyeCare);
    pairs := pairs + EyeCare;
    assert pairs == SeedPairs();
  }

  lemma SeedPairsLength()
    ensures |SeedPairs()| == 110
  {
  }

  lemma {:induction false} SeedNamesCounted()
    ensures |KeySet(SeedPairs())| == 109
  {
    EyeCareCounted();
    SeedNames();
  }

  /** 110 pairs are written and 109 distinct names come out, so one pair is a repeat. */
  lemma {:induction false} CatalogSize()
    ensures |SeedPairs()| == 110
    ensures |Catalog()| == 109
  {
    SeedPairsLength();
    SeedNamesCounted();
    FromPairsSize(SeedPairs());
  }

  /** "Paracetamol" is written first in the painkiller category, and only there ... */
  lemma ParacetamolWrittenFirst()
    ensures LastWrite(PainkillersAndFever, "Paracetamol", 500)
  {
    assert PainkillersAndFever[0] == ("Paracetamol", 500);
  }

  /** ... it is in none of the next seven categories ... */
  lemma ParacetamolNotInMiddle()
    ensures "Paracetamol" !in KeySet(Antibiotics)
    ensures "Paracetamol" !in KeySet(Antidiabetics)
    ensures "Paracetamol" !in KeySet(BloodPressureAndHeart)
    ensures "Paracetamol" !in KeySet(Cholesterol)
    ensures "Paracetamol" !in KeySet(MentalHealthAndCns)
    ensures "Paracetamol" !in KeySet(AsthmaAndCopd)
    ensures "Paracetamol" !in KeySet(StomachAndDigestion)
  {
  }

  /** ... and in none of the last seven. */
  lemma ParacetamolNotRepeated()
    ensures "Paracetamol" !in KeySet(ThyroidAndHormones)
    ensures "Paracetamol" !in KeySet(Immunosuppressants)
    ensures "Paracetamol" !in KeySet(BloodThinners)
    ensures "Paracetamol" !in KeySet(PainManagement)
    ensures "Paracetamol" !in KeySet(AntiAllergy)
    ensures "Paracetamol" !in KeySet(AntiSeizure)
    ensures "Paracetamol" !in KeySet(EyeCare)
  {
  }

  lemma {:induction false} ParacetamolLastWrite()
    ensures LastWrite(SeedPairs(), "Paracetamol", 500)
  {
    ParacetamolWrittenFirst();
    ParacetamolNotInMiddle();
    ParacetamolNotRepeated();
    var pairs := PainkillersAndFever;
    LastWriteOfAppend(pairs, Antibiotics, "Paracetamol", 500);
    pairs := pairs + Antibiotics;
    LastWriteOfAppend(pairs, Antidiabetics, "Paracetamol", 500);
    pairs := pairs + Antidiabetics;
    LastWriteOfAppend(pairs, BloodPressureAndHeart, "Paracetamol", 500);
    pairs := pairs + BloodPressureAndHeart;
    LastWriteOfAppend(pairs, Cholesterol, "Paracetamol", 500);
    pairs := pairs + Cholesterol;
    LastWriteOfAppend(pairs, MentalHealthAndCns, "Paracetamol", 500);
    pairs := pairs + MentalHealthAndCns;
    LastWriteOfAppend(pairs, AsthmaAndCopd, "Paracetamol", 500);
    pairs := pairs + AsthmaAndCopd;
    LastWriteOfAppend(pairs, StomachAndDigestion, "Paracetamol", 500);
    pairs := pairs + StomachAndDigestion;
    LastWriteOfAppend(pairs, ThyroidAndHormones, "Paracetamol", 500);
    pairs := pairs + ThyroidAndHormones;
    LastWriteOfAppend(pairs, Immunosuppressants, "Paracetamol", 500);
    pairs := pairs + Immunosuppressants;
    LastWriteOfAppend(pairs, BloodThinners, "Paracetamol", 500);
    pairs := pairs + BloodThinners;
    LastWriteOfAppend(pairs, PainManagement, "Paracetamol", 500);
    pairs := pairs + PainManagement;
    LastWriteOfAppend(pairs, AntiAllergy, "Paracetamol", 500);
    pairs := pairs + AntiAllergy;
    LastWriteOfAppend(pairs, AntiSeizure, "Paracetamol", 500);
    pairs := pairs + AntiSeizure;
    LastWriteOfAppend(pairs, EyeCare, "Paracetamol", 500);
    pairs := pairs + EyeCare;
    assert pairs == SeedPairs();
  }

  /** `inventory_data["Paracetamol"]` is 500. */
  lemma CatalogParacetamol()
    ensures Get(Catalog(), "Paracetamol") == Some(500)
  {
    ParacetamolLastWrite();
    GetOfLastWrite(SeedPairs(), "Paracetamol", 500);
  }

  /** "Duloxetine" is last written in the pain management category, with 410. */
  lemma DuloxetineWrittenLast()
    ensures LastWrite(PainManagement, "Duloxetine", 410)
    ensures "Duloxetine" !in KeySet(AntiAllergy)
    ensures "Duloxetine" !in KeySet(AntiSeizure)
    ensures "Duloxetine" !in KeySet(EyeCare)
  {
    LastWriteOfLast(PainManagement);
  }

  lemma {:induction false} DuloxetineLastWrite()
    ensures LastWrite(SeedPairs(), "Duloxetine", 410)
  {
    DuloxetineWrittenLast();
    var pairs := PainkillersAndFever + Antibiotics + Antidiabetics + BloodPressureAndHeart + Cholesterol + MentalHealthAndCns + AsthmaAndCopd + StomachAndDigestion + ThyroidAndHormones + Immunosuppressants + BloodThinners;
    LastWriteOfPrepend(pairs, PainManagement, "Duloxetine", 410);
    pairs := pairs + PainManagement;
    LastWriteOfAppend(pairs, AntiAllergy, "Duloxetine", 410);
    pairs := pairs + AntiAllergy;
    LastWriteOfAppend(pairs, AntiSeizure, "Duloxetine", 410);
    pairs := pairs + AntiSeizure;
    LastWriteOfAppend(pairs, EyeCare, "Duloxetine", 410);
    pairs := pairs + EyeCare;
    assert pairs == SeedPairs();
  }

  /** `inventory_data["Duloxetine"]` is 410, the later of its two values, not 260. */
  lemma CatalogDuloxetine()
    ensures Get(Catalog(), "Duloxetine") == Some(410)
  {
    DuloxetineLastWrite();
    GetOfLastWrite(SeedPairs(), "Duloxetine", 410);
  }

  /** The first entry of the inventory is "Paracetamol" with 500, as written first at app.py:16. */
  lemma CatalogFirst()
    ensures Catalog() != [] && Catalog()[0] == ("Paracetamol", 500)
  {
    assert SeedPairs()[0] == ("Paracetamol", 500);
    FromPairsFirst(SeedPairs());
    CatalogParacetamol();
    GetOfEntry(Catalog(), 0);
  }
}
