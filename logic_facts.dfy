module LogicFacts {
  import opened Wrappers
  import opened Text
  import opened Records
  import opened Ladder
  import opened LogicEngine
  import AppEngine

  // ---------------------------------------------------------------------
  // Classification
  // ---------------------------------------------------------------------

  /** The knowledge base answers only for point mutations: a key entered as
      a point mutation is that entry, and entered with a type the classifier
      does not dispatch on it is unknown. */
  lemma KnowledgeBaseForPointMutationsOnly(mtype: string, detail: string)
    requires detail in MutationDatabase
    ensures mtype == "Point Mutation" ==> Classify(mtype, detail) == Success(MutationDatabase[detail])
    ensures mtype !in {"Point Mutation", "Amplification", "Insertion", "Deletion"} ==>
      Classify(mtype, detail) == Success(ClassifyUnknown(mtype, detail))
  {
  }

  /** "L858R" entered as a deletion is a structural variant scoring 0.4,
      where the app's engine would still classify it as L858R (0.3). */
  lemma DeletionTypedL858R()
    ensures Classify("Deletion", "L858R").Success?
    ensures Classify("Deletion", "L858R").value.kind == Structural
    ensures Classify("Deletion", "L858R").value.score == 40
    ensures AppEngine.Classify("Deletion", "L858R").score == 30
  {
    NotContainsChar("Del19", "L858R", 0);
    NotContainsChar("Exon 19", "L858R", 0);
    DeletionRule("L858R");
    assert "L858R" in AppEngine.MutationDatabase;
  }

  /** Classification fails exactly for an amplification whose detail is not
      an integer or is too large a copy number for a float; every other
      input is classified. */
  lemma ClassifyFailsOnlyOnBadCopyNumber(mtype: string, detail: string)
    ensures Classify(mtype, detail).Failure? <==> mtype == "Amplification" && !ScorableCopyNumber(detail)
  {
  }

  /** From six copies on the score is 0.7 outright; below, it grows by 0.05
      per copy from 0.3 at two copies, with no lower clamp; it never
      decreases with the copy number. */
  lemma AmplificationScoreShape(n: int, m: int)
    ensures AmplificationScore(n) <= 70
    ensures n >= 6 ==> AmplificationScore(n) == 70
    ensures n < 6 ==> AmplificationScore(n) == 30 + 5 * (n - 2) && AmplificationScore(n) <= 45
    ensures n <= m ==> AmplificationScore(n) <= AmplificationScore(m)
  {
  }

  /** The two engines agree below six and from ten copies on; from six to
      nine copies this engine's score is already 0.7 while the app's is
      still rising. */
  lemma AmplificationScoreVersusApp(n: int)
    ensures AmplificationScore(n) >= AppEngine.AmplificationScore(n)
    ensures n < 6 || n >= 10 <==> AmplificationScore(n) == AppEngine.AmplificationScore(n)
  {
  }

  /** An amplification entered with copy number `n` (written as `str(n)`)
      is parsed back to `n`; it raises OverflowError exactly when `n - 2`
      does not fit a float, and otherwise scores by the copy number and
      names `n` in its clinical text. */
  lemma AmplificationOfCopyNumber(n: int)
    ensures var r := Classify("Amplification", IntToString(n));
      && (r.Success? <==> FitsFloat(n - 2))
      && (r.Failure? ==> r.error == "int too large to convert to float")
      && (r.Success? ==>
            && r.value.kind == Amplification
            && r.value.score == AmplificationScore(n)
            && r.value.clinicalSignificance == IntToString(n) + "x amplification - significant overexpression"
            && r.value.affectedPathways == ["MAPK/ERK", "PI3K/AKT", "JAK/STAT"])
  {
    ParseIntToString(n);
  }

  /** "8" scores 0.7 and "4" scores 0.4; "xx" raises instead of falling
      back to a default copy number. */
  lemma AmplificationScenarios()
    ensures Classify("Amplification", "8") == Classify("Amplification", IntToString(8))
    ensures Classify("Amplification", "8").Success? && Classify("Amplification", "8").value.score == 70
    ensures Classify("Amplification", "4").Success? && Classify("Amplification", "4").value.score == 40
    ensures Classify("Amplification", "xx").Failure?
  {
    SingleDigitCopyNumber(8);
    SingleDigitCopyNumber(4);
    assert [DigitChar(8)] == "8" && [DigitChar(4)] == "4";
    assert !IsDigit("xx"[0]);
  }

  /** A one-digit copy number is parsed to its value and scored by it. */
  lemma SingleDigitCopyNumber(n: nat)
    requires n < 10
    ensures [DigitChar(n)] == IntToString(n)
    ensures var r := Classify("Amplification", [DigitChar(n)]);
      r.Success? && r.value.score == AmplificationScore(n)
  {
    assert IntToString(n) == [DigitChar(n)];
    AmplificationOfCopyNumber(n);
  }

  /** The copy numbers at the float bound: `FloatOverflow + 1` still scores
      0.7 and one more raises; below zero, `3 - FloatOverflow` still scores
      and one less raises. */
  lemma CopyNumberFloatBounds()
    ensures var r := Classify("Amplification", IntToString(FloatOverflow + 1));
      r.Success? && r.value.score == 70
    ensures Classify("Amplification", IntToString(FloatOverflow + 2)).Failure?
    ensures Classify("Amplification", IntToString(3 - FloatOverflow)).Success?
    ensures Classify("Amplification", IntToString(2 - FloatOverflow)).Failure?
  {
    AmplificationOfCopyNumber(FloatOverflow + 1);
    AmplificationOfCopyNumber(FloatOverflow + 2);
    AmplificationOfCopyNumber(3 - FloatOverflow);
    AmplificationOfCopyNumber(2 - FloatOverflow);
  }

  /** An insertion is a resistance mutation scoring 0.75 exactly when its
      detail mentions "Exon 20"; otherwise it is unknown, typed
      "Insertion". */
  lemma InsertionRule(detail: string)
    ensures Classify("Insertion", detail).Success?
    ensures Classify("Insertion", detail).value.kind == Resistance <==> Contains("Exon 20", detail)
    ensures Contains("Exon 20", detail) ==> Classify("Insertion", detail).value.score == 75
    ensures !Contains("Exon 20", detail) ==> Classify("Insertion", detail) == Success(ClassifyUnknown("Insertion", detail))
  {
  }

  /** A deletion is the Del19 entry (0.2) exactly when its detail mentions
      "Del19" or "Exon 19"; otherwise it is a structural variant (0.4). */
  lemma DeletionRule(detail: string)
    ensures Classify("Deletion", detail).Success?
    ensures Classify("Deletion", detail).value == Del19 <==> Contains("Del19", detail) || Contains("Exon 19", detail)
    ensures !(Contains("Del19", detail) || Contains("Exon 19", detail)) ==>
      Classify("Deletion", detail).value.kind == Structural && Classify("Deletion", detail).value.score == 40
  {
  }

  /** The scenarios: "Exon 20 ins" and "Del19" as typed in the example
      cases, and a named exon-19 deletion that mentions neither marker. */
  lemma InsertionAndDeletionScenarios()
    ensures Classify("Insertion", "Exon 20 ins") == Success(ClassifyInsertion("Exon 20 ins"))
    ensures ClassifyInsertion("Exon 20 ins").score == 75
    ensures Classify("Deletion", "Del19") == Success(Del19)
    ensures Classify("Deletion", "E746_A750del").value.score == 40
  {
    InsertionScenario();
    DeletionScenarios();
  }
  lemma InsertionScenario()
    ensures Classify("Insertion", "Exon 20 ins") == Success(ClassifyInsertion("Exon 20 ins"))
    ensures ClassifyInsertion("Exon 20 ins").score == 75
  {
    MentionsExon20();
  }
  lemma MentionsExon20()
    ensures Contains("Exon 20", "Exon 20 ins")
  {
    ContainsAt("Exon 20", "Exon 20 ins", 0);
  }
  lemma DeletionScenarios()
    ensures Classify("Deletion", "Del19") == Success(Del19)
    ensures Classify("Deletion", "E746_A750del").value.score == 40
  {
    ContainsAt("Del19", "Del19", 0);
    NotContainsChar("Del19", "E746_A750del", 0);
    NotContainsChar("Exon 19", "E746_A750del", 1);
  }

  /** Any input the classifier does not recognise is unknown: score 0.5,
      pathway "Unknown", and a mechanism naming the type and the detail. */
  lemma UnknownFallback(mtype: string, detail: string)
    requires mtype !in {"Amplification", "Insertion", "Deletion"}
    requires mtype != "Point Mutation" || detail !in MutationDatabase
    ensures Classify(mtype, detail).Success?
    ensures var c := Classify(mtype, detail).value;
      && c.kind == Unknown && c.score == 50 && c.affectedPathways == ["Unknown"]
      && c.mechanism == "Unknown mechanism for " + mtype + ": " + detail
  {
  }

  /** Every classification's score is at most 0.8 (T790M's). */
  lemma ScoreAtMost80(mtype: string, detail: string)
    ensures Classify(mtype, detail).Success? ==> Classify(mtype, detail).value.score <= 80
  {
  }

  /** The mechanism and the clinical text both start with a character that
      is not whitespace, so stripping the framed detailed texts removes only
      the frame. */
  predicate TextsStart(c: Classification)
  {
    && |c.mechanism| > 0 && !IsSpace(c.mechanism[0])
    && |c.clinicalSignificance| > 0 && !IsSpace(c.clinicalSignificance[0])
  }

  /** Every classification's mechanism and clinical text start with a
      character that is not whitespace. */
  lemma TextsStartWithNonSpace(mtype: string, detail: string)
    requires Classify(mtype, detail).Success?
    ensures TextsStart(Classify(mtype, detail).value)
  {
    if mtype == "Point Mutation" && detail in MutationDatabase {
      KnowledgeTextsStart(detail);
    } else if mtype == "Amplification" {
      AmplificationTextsStart(detail);
    } else if mtype == "Insertion" {
      InsertionTextsStart(detail);
    } else if mtype == "Deletion" {
      DeletionTextsStart(detail);
    } else {
      UnknownTextsStart(mtype, detail);
    }
  }

  lemma KnowledgeTextsStart(detail: string)
    requires detail in MutationDatabase
    ensures TextsStart(MutationDatabase[detail])
  {
    assert detail == "L858R" || detail == "T790M" || detail == "G719X" || detail == "Del19";
    L858RTextsStart();
    T790MTextsStart();
    G719XTextsStart();
    Del19TextsStart();
  }

  lemma L858RTextsStart()
    ensures TextsStart(L858R)
  {
    PrefixFirst(L858R.clinicalSignificance, "Most common EGFR mutation");
  }

  lemma T790MTextsStart()
    ensures TextsStart(T790M)
  {
    PrefixFirst(T790M.clinicalSignificance, "Primary resistance mechanism");
  }

  lemma G719XTextsStart()
    ensures TextsStart(G719X)
  {
    PrefixFirst(G719X.mechanism, "Structural alteration in ATP");
    PrefixFirst(G719X.clinicalSignificance, "Uncommon mutation (2-3%");
  }

  lemma Del19TextsStart()
    ensures TextsStart(Del19)
  {
    PrefixFirst(Del19.mechanism, "In-frame deletion causing");
  }

  lemma AmplificationTextsStart(detail: string)
    requires ClassifyAmplification(detail).Success?
    ensures TextsStart(ClassifyAmplification(detail).value)
  {
    var c := ClassifyAmplification(detail).value;
    var t := IntToString(ParseInt(detail).value);
    assert c.clinicalSignificance == t + "x amplification - significant overexpression";
    assert c.clinicalSignificance[0] == t[0];
    PrefixFirst(c.mechanism, "Copy number amplification");
  }

  lemma InsertionTextsStart(detail: string)
    ensures TextsStart(ClassifyInsertion(detail))
  {
    if !Contains("Exon 20", detail) {
      UnknownTextsStart("Insertion", detail);
    }
  }

  lemma DeletionTextsStart(detail: string)
    ensures TextsStart(ClassifyDeletion(detail))
  {
    if Contains("Del19", detail) || Contains("Exon 19", detail) {
      Del19TextsStart();
    } else {
      PrefixFirst(ClassifyDeletion(detail).mechanism, "In-frame deletion causing");
    }
  }

  lemma UnknownTextsStart(mtype: string, detail: string)
    ensures TextsStart(ClassifyUnknown(mtype, detail))
  {
    var u := "Unknown mechanism for ";
    assert ClassifyUnknown(mtype, detail).mechanism == u + (mtype + ": " + detail);
    assert (u + (mtype + ": " + detail))[0] == u[0];
    PrefixFirst(ClassifyUnknown(mtype, detail).clinicalSignificance, "Novel or rare mutation");
  }

  // ---------------------------------------------------------------------
  // Recommendations
  // ---------------------------------------------------------------------

  /** Each class contributes one entry per drug, in the class's drug order. */
  lemma {:induction false} ClassRecommendationsAll(detail: string, cls: DrugClass, drugs: seq<string>, c: Classification)
    ensures ClassRecommendations(detail, cls, drugs, c)
            == seq(|drugs|, k requires 0 <= k < |drugs| => DrugRecommendation(detail, cls, drugs[k], c))
  {
    if |drugs| > 0 {
      ClassRecommendationsAll(detail, cls, drugs[..|drugs| - 1], c);
    }
  }

  /** The seven recommendations, in class-then-drug declaration order: no
      drug is ever left out, since no efficacy is ever "None". */
  lemma RecommendationsListing(detail: string, c: Classification)
    ensures Recommendations(detail, c) == [
      DrugRecommendation(detail, FirstGen, "Gefitinib", c),
      DrugRecommendation(detail, FirstGen, "Erlotinib", c),
      DrugRecommendation(detail, SecondGen, "Afatinib", c),
      DrugRecommendation(detail, SecondGen, "Dacomitinib", c),
      DrugRecommendation(detail, ThirdGen, "Osimertinib", c),
      DrugRecommendation(detail, Antibody, "Cetuximab", c),
      DrugRecommendation(detail, Antibody, "Panitumumab", c)]
  {
    ClassRecommendationsAll(detail, FirstGen, FirstGen.drugs, c);
    ClassRecommendationsAll(detail, SecondGen, SecondGen.drugs, c);
    ClassRecommendationsAll(detail, ThirdGen, ThirdGen.drugs, c);
    ClassRecommendationsAll(detail, Antibody, Antibody.drugs, c);
    var db := DrugDatabase;
    assert db[..1][..0] == [] && db[..1][0] == FirstGen;
    assert RecommendationsOver(detail, db[..1], c) == ClassRecommendations(detail, FirstGen, FirstGen.drugs, c);
    assert db[..2][..1] == db[..1] && db[..2][1] == SecondGen;
    assert RecommendationsOver(detail, db[..2], c)
        == RecommendationsOver(detail, db[..1], c) + ClassRecommendations(detail, SecondGen, SecondGen.drugs, c);
    assert db[..3][..2] == db[..2] && db[..3][2] == ThirdGen;
    assert RecommendationsOver(detail, db[..3], c)
        == RecommendationsOver(detail, db[..2], c) + ClassRecommendations(detail, ThirdGen, ThirdGen.drugs, c);
    assert db[..3] == db[..|db| - 1];
  }

  /** Each class's label is its key with underscores turned into spaces,
      title-cased: a letter after a digit starts a word, so "1st" becomes
      "1St". */
  lemma LabelsAreTitleCasedKeys()
    ensures FirstGen.classLabel == ClassLabel(FirstGen.key)
    ensures SecondGen.classLabel == ClassLabel(SecondGen.key)
    ensures ThirdGen.classLabel == ClassLabel(ThirdGen.key)
    ensures Antibody.classLabel == ClassLabel(Antibody.key)
  {
    FirstGenLabel();
    SecondGenLabel();
    ThirdGenLabel();
    AntibodyLabel();
  }

  lemma FirstGenLabel()
    ensures FirstGen.classLabel == ClassLabel(FirstGen.key)
  {
    LabelOf(FirstGen.key, "1st gen TKI", FirstGen.classLabel);
  }

  lemma SecondGenLabel()
    ensures SecondGen.classLabel == ClassLabel(SecondGen.key)
  {
    LabelOf(SecondGen.key, "2nd gen TKI", SecondGen.classLabel);
  }

  lemma ThirdGenLabel()
    ensures ThirdGen.classLabel == ClassLabel(ThirdGen.key)
  {
    LabelOf(ThirdGen.key, "3rd gen TKI", ThirdGen.classLabel);
  }

  lemma AntibodyLabel()
    ensures Antibody.classLabel == ClassLabel(Antibody.key)
  {
    LabelOf(Antibody.key, "Monoclonal Antibody", Antibody.classLabel);
  }

  /** A key whose underscore-free spelling `spaced` and title-cased spelling
      `shown` are given character by character has the label `shown`. */
  lemma LabelOf(key: string, spaced: string, shown: string)
    requires |key| == |spaced| == |shown|
    requires forall i :: 0 <= i < |key| ==> spaced[i] == (if key[i] == '_' then ' ' else key[i])
    requires |spaced| > 0 ==> shown[0] == TitleChar(spaced[0], false)
    requires forall i :: 0 < i < |spaced| ==> shown[i] == TitleChar(spaced[i], IsCased(spaced[i - 1]))
    ensures ClassLabel(key) == shown
  {
    assert ReplaceChar(key, '_', ' ') == spaced;
    TitleAt(spaced);
    forall i | 0 <= i < |spaced| ensures Title(spaced)[i] == shown[i] {
      if i > 0 {
        assert Title(spaced)[i] == TitleChar(spaced[i], IsCased(spaced[i - 1]));
      }
    }
  }

  /** Whatever the detail: seven entries carrying the drug names in order,
      the class labels, no mechanism, the rationale chosen by the kind
      alone, and no "None" efficacy. */
  lemma RecommendationsUniform(detail: string, c: Classification)
    ensures var recs := Recommendations(detail, c);
      && |recs| == 7
      && (forall k :: 0 <= k < 7 ==> recs[k].rationale == DrugRationale(c.kind))
      && (forall k :: 0 <= k < 7 ==> recs[k].efficacy != Unrated && recs[k].mechanism == None)
      && [recs[0].name, recs[1].name, recs[2].name, recs[3].name, recs[4].name, recs[5].name, recs[6].name]
         == ["Gefitinib", "Erlotinib", "Afatinib", "Dacomitinib", "Osimertinib", "Cetuximab", "Panitumumab"]
      && [recs[0].drugClass, recs[2].drugClass, recs[4].drugClass, recs[5].drugClass]
         == ["1St Gen Tki", "2Nd Gen Tki", "3Rd Gen Tki", "Monoclonal Antibody"]
  {
    RecommendationsListing(detail, c);
  }

  // ---------------------------------------------------------------------
  // Concrete outcomes
  // ---------------------------------------------------------------------

  /** The listing's efficacies, given each class's efficacy. */
  lemma EfficaciesOf(detail: string, c: Classification, e1: Efficacy, e2: Efficacy, e3: Efficacy, e4: Efficacy)
    requires CalculateDrugEfficacy(detail, FirstGen, c) == e1
    requires CalculateDrugEfficacy(detail, SecondGen, c) == e2
    requires CalculateDrugEfficacy(detail, ThirdGen, c) == e3
    requires CalculateDrugEfficacy(detail, Antibody, c) == e4
    ensures Efficacies(Recommendations(detail, c)) == [e1, e1, e2, e2, e3, e4, e4]
  {
    RecommendationsListing(detail, c);
  }

  /** T790M as a point mutation (0.8): every TKI is Low, both antibodies
      Medium. */
  lemma T790MOutcome()
    ensures Classify("Point Mutation", "T790M") == Success(T790M)
    ensures Efficacies(Recommendations("T790M", T790M)) == [Low, Low, Low, Low, Low, Medium, Medium]
  {
    T790MClasses(T790M);
    EfficaciesOf("T790M", T790M, Low, Low, Low, Medium);
  }

  lemma T790MClasses(c: Classification)
    requires c.score == 80
    ensures CalculateDrugEfficacy("T790M", FirstGen, c) == Low
    ensures CalculateDrugEfficacy("T790M", SecondGen, c) == Low
    ensures CalculateDrugEfficacy("T790M", ThirdGen, c) == Low
    ensures CalculateDrugEfficacy("T790M", Antibody, c) == Medium
  {
    T790MEarlyGenerations(c);
    T790MLaterClasses(c);
  }

  /** The 1st and 2nd generations list T790M as resistant and do not list
      it as effective. */
  lemma T790MEarlyGenerations(c: Classification)
    ensures CalculateDrugEfficacy("T790M", FirstGen, c) == Low
    ensures CalculateDrugEfficacy("T790M", SecondGen, c) == Low
  {
    var d := "T790M";
    NotContainsChar(d, "L858R", 0);
    NotContainsChar(d, "Del19", 0);
    NotContainsChar(d, "G719X", 0);
    NotContainsChar(d, "Exon 20 ins (limited)", 0);
    ContainsAt(d, "T790M", 0);
  }

  /** The 3rd generation lists T790M as effective, at score 0.8; the
      antibodies list it nowhere. */
  lemma T790MLaterClasses(c: Classification)
    requires c.score == 80
    ensures CalculateDrugEfficacy("T790M", ThirdGen, c) == Low
    ensures CalculateDrugEfficacy("T790M", Antibody, c) == Medium
  {
    var d := "T790M";
    ContainsAt(d, "T790M", 0);
    NotContainsChar(d, "Amplification", 0);
    NotContainsChar(d, "Overexpression", 0);
    NotContainsChar(d, "KRAS mutations", 0);
    NotContainsChar(d, "Downstream pathway activation", 0);
    assert !IsDigit(d[0]);
  }

  /** "Exon 20 ins" as an insertion (0.75): both earlier generations are
      Low, the second one through its "Exon 20 ins (limited)" pattern, where
      the app's engine rates it Medium; everything else is Medium. */
  lemma Exon20InsOutcome()
    ensures Classify("Insertion", "Exon 20 ins").Success?
    ensures Efficacies(Recommendations("Exon 20 ins", Classify("Insertion", "Exon 20 ins").value))
            == [Low, Low, Low, Low, Medium, Medium, Medium]
  {
    InsertionAndDeletionScenarios();
    var c := ClassifyInsertion("Exon 20 ins");
    Exon20InsEarlyGenerations(c);
    Exon20InsLaterClasses(c);
    EfficaciesOf("Exon 20 ins", c, Low, Low, Medium, Medium);
  }

  lemma Exon20InsEarlyGenerations(c: Classification)
    requires c.score == 75
    ensures CalculateDrugEfficacy("Exon 20 ins", FirstGen, c) == Low
    ensures CalculateDrugEfficacy("Exon 20 ins", SecondGen, c) == Low
  {
    var d := "Exon 20 ins";
    NotContainsChar(d, "L858R", 0);
    NotContainsChar(d, "Del19", 0);
    NotContainsChar(d, "G719X", 0);
    ContainsAt(d, "Exon 20 ins", 0);
    ContainsAt(d, "Exon 20 ins (limited)", 0);
  }

  lemma Exon20InsLaterClasses(c: Classification)
    ensures CalculateDrugEfficacy("Exon 20 ins", ThirdGen, c) == Medium
    ensures CalculateDrugEfficacy("Exon 20 ins", Antibody, c) == Medium
  {
    Exon20InsThirdGen(c);
    Exon20InsAntibody(c);
  }

  lemma Exon20InsThirdGen(c: Classification)
    ensures CalculateDrugEfficacy("Exon 20 ins", ThirdGen, c) == Medium
  {
    var d := "Exon 20 ins";
    NotContainsChar(d, "T790M", 0);
    NotContainsChar(d, "L858R+T790M", 0);
    NotContainsChar(d, "Del19+T790M", 0);
    NotContainsChar(d, "C797S", 0);
    NotContainsChar(d, "Amplification (high level)", 0);
    assert !IsDigit(d[0]);
  }

  lemma Exon20InsAntibody(c: Classification)
    ensures CalculateDrugEfficacy("Exon 20 ins", Antibody, c) == Medium
  {
    var d := "Exon 20 ins";
    NotContainsChar(d, "Amplification", 0);
    NotContainsChar(d, "Overexpression", 0);
    NotContainsChar(d, "KRAS mutations", 0);
    NotContainsChar(d, "Downstream pathway activation", 0);
    assert !IsDigit(d[0]);
  }

  /** Del19 as a deletion (0.2): every TKI is High, Osimertinib through its
      "Del19+T790M" pattern; both antibodies Medium. */
  lemma Del19Outcome()
    ensures Classify("Deletion", "Del19") == Success(Del19)
    ensures Efficacies(Recommendations("Del19", Del19)) == [High, High, High, High, High, Medium, Medium]
  {
    InsertionAndDeletionScenarios();
    Del19Classes(Del19);
    EfficaciesOf("Del19", Del19, High, High, High, Medium);
  }

  lemma Del19Classes(c: Classification)
    requires c.score == 20
    ensures CalculateDrugEfficacy("Del19", FirstGen, c) == High
    ensures CalculateDrugEfficacy("Del19", SecondGen, c) == High
    ensures CalculateDrugEfficacy("Del19", ThirdGen, c) == High
    ensures CalculateDrugEfficacy("Del19", Antibody, c) == Medium
  {
    Del19Generations(c);
    Del19Antibody(c);
  }

  lemma Del19Generations(c: Classification)
    requires c.score == 20
    ensures CalculateDrugEfficacy("Del19", FirstGen, c) == High
    ensures CalculateDrugEfficacy("Del19", SecondGen, c) == High
    ensures CalculateDrugEfficacy("Del19", ThirdGen, c) == High
  {
    var d := "Del19";
    NotContainsChar(d, "L858R", 0);
    ContainsAt(d, "Del19", 0);
    NotContainsChar(d, "T790M", 0);
    NotContainsChar(d, "L858R+T790M", 2);
    ContainsAt(d, "Del19+T790M", 0);
  }

  lemma Del19Antibody(c: Classification)
    ensures CalculateDrugEfficacy("Del19", Antibody, c) == Medium
  {
    var d := "Del19";
    NotContainsChar(d, "Amplification", 0);
    NotContainsChar(d, "Overexpression", 0);
    NotContainsChar(d, "KRAS mutations", 0);
    NotContainsChar(d, "Downstream pathway activation", 2);
    assert !IsDigit(d[0]);
  }

  /** Eight copies (0.7 here): "8" occurs in "L858R", so every TKI takes the
      effective branch and is Low; the antibodies are High. */
  lemma EightCopiesOutcome()
    ensures Classify("Amplification", "8").Success?
    ensures Efficacies(Recommendations("8", Classify("Amplification", "8").value))
            == [Low, Low, Low, Low, Low, High, High]
  {
    AmplificationScenarios();
    var c := Classify("Amplification", "8").value;
    EightCopiesClasses(c);
    EfficaciesOf("8", c, Low, Low, Low, High);
  }

  lemma EightCopiesClasses(c: Classification)
    requires c.score == 70
    ensures CalculateDrugEfficacy("8", FirstGen, c) == Low
    ensures CalculateDrugEfficacy("8", SecondGen, c) == Low
    ensures CalculateDrugEfficacy("8", ThirdGen, c) == Low
    ensures CalculateDrugEfficacy("8", Antibody, c) == High
  {
    var d := "8";
    ContainsAt(d, "L858R", 1);
    NotContainsChar(d, "T790M", 0);
    ContainsAt(d, "L858R+T790M", 1);
    NotContainsChar(d, "Amplification", 0);
    NotContainsChar(d, "Overexpression", 0);
    NotContainsChar(d, "KRAS mutations", 0);
    NotContainsChar(d, "Downstream pathway activation", 0);
    assert IsDigits(d) && DigitsValue(d) == 8;
  }

  // ---------------------------------------------------------------------
  // Detailed texts
  // ---------------------------------------------------------------------

  /** Stripping a framed template gives back its text when the text
      neither starts nor ends with whitespace. */
  lemma StripFramedText(text: string)
    requires |text| > 0 && !IsSpace(text[0]) && !IsSpace(text[|text| - 1])
    ensures Strip(Framed(text)) == text
  {
    EdgeIsSpace();
    StripFramed(Edge, text, Edge);
  }

  /** The clinical detail is the clinical text, a blank line, the score line
      and the explanation: stripping removes exactly the template's framing,
      so the detail starts with the classification's own clinical text. */
  lemma ClinicalDetailText(c: Classification)
    requires |c.clinicalSignificance| > 0 && !IsSpace(c.clinicalSignificance[0])
    ensures ClinicalDetail(c) == ClinicalText(c)
    ensures c.clinicalSignificance <= ClinicalDetail(c)
  {
    var t := ClinicalText(c);
    assert t[0] == c.clinicalSignificance[0];
    assert t[|t| - 1] == '.';
    StripFramedText(t);
  }

  /** The mechanism detail is the mechanism, a blank line, the lower-cased
      pathway impact in a sentence, then the explanation. */
  lemma MechanismDetailText(c: Classification)
    requires |c.mechanism| > 0 && !IsSpace(c.mechanism[0])
    ensures MechanismDetail(c) == MechanismText(c)
    ensures c.mechanism <= MechanismDetail(c)
  {
    var t := MechanismText(c);
    assert t[0] == c.mechanism[0];
    assert t[|t| - 1] == '.';
    StripFramedText(t);
  }

  /** A classified mutation's record: one recommendation per drug, the
      classification's score kept, the clinical text and the mechanism each
      leading their detailed versions. */
  lemma AnalyzeRecord(m: Mutation)
    requires Classify(m.mtype, m.detail).Success?
    ensures var c := Classify(m.mtype, m.detail).value;
      var r := Analyze(m).value;
      && Analyze(m).Success?
      && r.mutation == m
      && r.analysis.score == c.score && r.analysis.kind == c.kind
      && r.analysis.affectedPathways == c.affectedPathways
      && r.analysis == c.(clinicalSignificance := r.analysis.clinicalSignificance)
      && r.recommendations == Recommendations(m.detail, c)
      && |r.recommendations| == 7
      && r.detailedMechanism.Some?
      && c.mechanism <= r.detailedMechanism.value
      && c.clinicalSignificance <= r.analysis.clinicalSignificance
  {
    var c := Classify(m.mtype, m.detail).value;
    TextsStartWithNonSpace(m.mtype, m.detail);
    ClinicalDetailText(c);
    MechanismDetailText(c);
    RecommendationsUniform(m.detail, c);
  }

  // ---------------------------------------------------------------------
  // The list of results
  // ---------------------------------------------------------------------

  /** Collecting succeeds exactly when every outcome does, and then holds
      their records in order. */
  lemma {:induction false} CollectSuccess(os: seq<Result<Record>>)
    ensures Collect(os).Success? <==> forall k :: 0 <= k < |os| ==> os[k].Success?
    ensures Collect(os).Success? ==>
      |Collect(os).value| == |os| && forall k :: 0 <= k < |os| ==> Collect(os).value[k] == os[k].value
  {
    if |os| > 0 {
      var init := os[..|os| - 1];
      CollectSuccess(init);
      assert forall k :: 0 <= k < |init| ==> init[k] == os[k];
    }
  }

  /** A failed collection reports the error of the first failing outcome. */
  lemma {:induction false} CollectFailure(os: seq<Result<Record>>)
    requires Collect(os).Failure?
    ensures exists i :: 0 <= i < |os| && os[i].Failure? && Collect(os) == Failure(os[i].error)
                        && forall k :: 0 <= k < i ==> os[k].Success?
  {
    var init := os[..|os| - 1];
    assert forall k :: 0 <= k < |init| ==> init[k] == os[k];
    if Collect(init).Failure? {
      CollectFailure(init);
    } else {
      CollectSuccess(init);
      assert os[|os| - 1].Failure?;
    }
  }

  /** `analyze_mutations` returns one record per mutation, in order, unless
      some amplification detail is not an integer; then it raises with the
      first such detail's error. */
  lemma AnalyzeAllResults(ms: seq<Mutation>)
    ensures AnalyzeAll(ms).Failure? <==>
      exists i :: 0 <= i < |ms| && ms[i].mtype == "Amplification" && !ScorableCopyNumber(ms[i].detail)
    ensures AnalyzeAll(ms).Success? ==>
      var rs := AnalyzeAll(ms).value;
      |rs| == |ms| && forall k :: 0 <= k < |ms| ==> Analyze(ms[k]) == Success(rs[k]) && rs[k].mutation == ms[k]
  {
    var os := Outcomes(ms);
    forall k | 0 <= k < |ms|
      ensures os[k] == Analyze(ms[k])
      ensures os[k].Failure? <==> ms[k].mtype == "Amplification" && !ScorableCopyNumber(ms[k].detail)
      ensures os[k].Success? ==> os[k].value.mutation == ms[k]
    {
      OutcomesAt(ms, k);
      AnalyzeOutcome(ms[k]);
    }
    CollectSuccess(os);
  }

  /** A mutation's outcome fails exactly on a bad copy number and otherwise
      keeps the mutation. */
  lemma AnalyzeOutcome(m: Mutation)
    ensures Analyze(m).Failure? <==> m.mtype == "Amplification" && !ScorableCopyNumber(m.detail)
    ensures Analyze(m).Success? ==> Analyze(m).value.mutation == m
  {
    ClassifyFailsOnlyOnBadCopyNumber(m.mtype, m.detail);
  }
}
