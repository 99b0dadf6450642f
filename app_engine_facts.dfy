/** What the app's engine promises, proved about the definitions in
    `AppEngine`. */
module AppEngineFacts {
  import opened Wrappers
  import opened Text
  import opened Records
  import opened Ladder
  import opened AppEngine

  // ---------------------------------------------------------------------
  // Classification
  // ---------------------------------------------------------------------

  /** A detail that is a knowledge-base key is classified as that entry,
      whatever type the mutation was entered with. */
  lemma KnownDetailIgnoresType(mtype1: string, mtype2: string, detail: string)
    requires detail in MutationDatabase
    ensures Classify(mtype1, detail) == Classify(mtype2, detail) == MutationDatabase[detail]
  {
  }

  /** "L858R" entered as an amplification is still L858R: activating, 0.3. */
  lemma AmplificationTypedL858R()
    ensures Classify("Amplification", "L858R") == Classify("Point Mutation", "L858R")
    ensures Classify("Amplification", "L858R").kind == Activating
    ensures Classify("Amplification", "L858R").score == 30
  {
  }

  /** The knowledge base's fixed scores: L858R 0.3, T790M 0.8, Del19 0.2,
      G719X 0.4, "Exon 20 ins" 0.75. */
  lemma KnownScores(mtype: string)
    ensures Classify(mtype, "L858R").score == 30
    ensures Classify(mtype, "T790M").score == 80
    ensures Classify(mtype, "Del19").score == 20
    ensures Classify(mtype, "G719X").score == 40
    ensures Classify(mtype, "Exon 20 ins").score == 75
  {
  }

  /** The amplification score is capped at 0.7, reaches the cap from ten
      copies on, is linear below, has no lower clamp and never decreases
      with the copy number. */
  lemma AmplificationScoreShape(n: int, m: int)
    ensures AmplificationScore(n) <= 70
    ensures n >= 10 ==> AmplificationScore(n) == 70
    ensures n < 10 ==> AmplificationScore(n) == 30 + 5 * (n - 2)
    ensures n <= m ==> AmplificationScore(n) <= AmplificationScore(m)
  {
  }

  /** Every key of the knowledge base starts with a letter. */
  lemma KeysStartWithLetter(key: string)
    requires key in MutationDatabase
    ensures |key| > 0 && IsUpper(key[0])
  {
  }

  /** An amplification entered with copy number `n` (written as `str(n)`)
      misses the knowledge base, is parsed back to `n`, scores
      `min(0.7, 0.3 + (n - 2) * 0.05)` and names `n` in its texts. */
  lemma {:induction false} AmplificationOfCopyNumber(n: int)
    ensures var c := Classify("Amplification", IntToString(n));
      && c.kind == Amplification
      && c.score == AmplificationScore(n)
      && c.clinicalSignificance == IntToString(n) + "x amplification - significant therapeutic challenge"
      && c.affectedPathways == ["MAPK/ERK", "PI3K/AKT", "JAK/STAT"]
  {
    var d := IntToString(n);
    if d in MutationDatabase {
      KeysStartWithLetter(d);
      assert false;
    }
    ParseIntToString(n);
  }

  /** A detail that is not a signed integer falls back to six copies: 0.5. */
  lemma UnparsableAmplification(detail: string)
    requires detail !in MutationDatabase && ParseInt(detail) == None
    ensures Classify("Amplification", detail).score == 50
    ensures Classify("Amplification", detail).clinicalSignificance
            == IntToString(6) + "x amplification - significant therapeutic challenge"
  {
  }

  /** Three copy numbers: "8" scores 0.6, "4" scores 0.4, "xx"
      falls back to 6 copies and scores 0.5. */
  lemma AmplificationScenarios()
    ensures Classify("Amplification", "8").score == 60
    ensures Classify("Amplification", "4").score == 40
    ensures Classify("Amplification", "xx").score == 50
  {
    SingleDigitCopyNumber(8);
    SingleDigitCopyNumber(4);
    assert !IsDigit("xx"[0]);
    UnparsableAmplification("xx");
  }

  lemma SingleDigitCopyNumber(n: nat)
    requires n < 10
    ensures Classify("Amplification", [DigitChar(n)]).score == AmplificationScore(n)
  {
    assert IntToString(n) == [DigitChar(n)];
    AmplificationOfCopyNumber(n);
  }

  /** Any detail outside the knowledge base, entered with a type other than
      "Amplification", is unknown: score 0.5, pathway "Unknown", and a
      mechanism naming the type and the detail. */
  lemma UnknownFallback(mtype: string, detail: string)
    requires detail !in MutationDatabase && mtype != "Amplification"
    ensures var c := Classify(mtype, detail);
      && c.kind == Unknown && c.score == 50 && c.affectedPathways == ["Unknown"]
      && c.mechanism == "Unknown mechanism for " + mtype + ": " + detail
  {
  }

  /** Every classification's score is at most 0.8 (T790M's). */
  lemma ScoreAtMost80(mtype: string, detail: string)
    ensures Classify(mtype, detail).score <= 80
  {
  }

  // ---------------------------------------------------------------------
  // Recommendations
  // ---------------------------------------------------------------------

  /** A class whose efficacy is rated contributes one entry per drug, in
      the class's drug order. */
  lemma {:induction false} ClassRecommendationsAll(detail: string, cls: DrugClass, drugs: seq<string>, c: Classification)
    ensures ClassRecommendations(detail, cls, drugs, c)
            == seq(|drugs|, k requires 0 <= k < |drugs| => DrugRecommendation(detail, cls, drugs[k], c))
  {
    if |drugs| > 0 {
      ClassRecommendationsAll(detail, cls, drugs[..|drugs| - 1], c);
    }
  }

  /** The seven recommendations, in class-then-drug declaration order: no
      drug is ever left out, since no efficacy is ever "None". */
  lemma RecommendationsListing(detail: string, c: Classification)
    ensures Recommendations(detail, c) == [
      DrugRecommendation(detail, FirstGen, "Gefitinib", c),
      DrugRecommendation(detail, FirstGen, "Erlotinib", c),
      DrugRecommendation(detail, SecondGen, "Afatinib", c),
      DrugRecommendation(detail, SecondGen, "Dacomitinib", c),
      DrugRecommendation(detail, ThirdGen, "Osimertinib", c),
      DrugRecommendation(detail, Antibody, "Cetuximab", c),
      DrugRecommendation(detail, Antibody, "Panitumumab", c)]
  {
    ClassRecommendationsAll(detail, FirstGen, FirstGen.drugs, c);
    ClassRecommendationsAll(detail, SecondGen, SecondGen.drugs, c);
    ClassRecommendationsAll(detail, ThirdGen, ThirdGen.drugs, c);
    ClassRecommendationsAll(detail, Antibody, Antibody.drugs, c);
    var db := DrugDatabase;
    assert db[..1][..0] == [] && db[..1][0] == FirstGen;
    assert RecommendationsOver(detail, db[..1], c) == ClassRecommendations(detail, FirstGen, FirstGen.drugs, c);
    assert db[..2][..1] == db[..1] && db[..2][1] == SecondGen;
    assert RecommendationsOver(detail, db[..2], c)
        == RecommendationsOver(detail, db[..1], c) + ClassRecommendations(detail, SecondGen, SecondGen.drugs, c);
    assert db[..3][..2] == db[..2] && db[..3][2] == ThirdGen;
    assert RecommendationsOver(detail, db[..3], c)
        == RecommendationsOver(detail, db[..2], c) + ClassRecommendations(detail, ThirdGen, ThirdGen.drugs, c);
    assert db[..3] == db[..|db| - 1];
  }

  // ---------------------------------------------------------------------
  // Concrete outcomes
  // ---------------------------------------------------------------------

  /** The listing's efficacies, given each class's efficacy. */
  lemma EfficaciesOf(detail: string, c: Classification, e1: Efficacy, e2: Efficacy, e3: Efficacy, e4: Efficacy)
    requires CalculateEfficacy(detail, FirstGen, c) == e1
    requires CalculateEfficacy(detail, SecondGen, c) == e2
    requires CalculateEfficacy(detail, ThirdGen, c) == e3
    requires CalculateEfficacy(detail, Antibody, c) == e4
    ensures Efficacies(Recommendations(detail, c)) == [e1, e1, e2, e2, e3, e4, e4]
  {
    RecommendationsListing(detail, c);
  }

  /** T790M (0.8): every TKI is Low (the 1st/2nd generation through the
      resistant list, Osimertinib through the effective list at a high score),
      both antibodies Medium. */
  lemma T790MOutcome(mtype: string)
    ensures Efficacies(Recommendations("T790M", Classify(mtype, "T790M")))
            == [Low, Low, Low, Low, Low, Medium, Medium]
  {
    var c := Classify(mtype, "T790M");
    KnownScores(mtype);
    T790MEarlyGenerations(c);
    T790MLaterClasses(c);
    EfficaciesOf("T790M", c, Low, Low, Low, Medium);
  }
  lemma T790MEarlyGenerations(c: Classification)
    requires c.score == 80
    ensures CalculateEfficacy("T790M", FirstGen, c) == Low
    ensures CalculateEfficacy("T790M", SecondGen, c) == Low
  {
    var d := "T790M";
    NotContainsChar(d, "L858R", 0);
    NotContainsChar(d, "Del19", 0);
    NotContainsChar(d, "G719X", 0);
    ContainsAt(d, "T790M", 0);
  }
  lemma T790MLaterClasses(c: Classification)
    requires c.score == 80
    ensures CalculateEfficacy("T790M", ThirdGen, c) == Low
    ensures CalculateEfficacy("T790M", Antibody, c) == Medium
  {
    var d := "T790M";
    ContainsAt(d, "T790M", 0);
    NotContainsChar(d, "Amplification", 0);
    NotContainsChar(d, "Overexpression", 0);
    NotContainsChar(d, "KRAS mutations", 0);
    assert !IsDigit(d[0]);
  }

  /** Del19 (0.2): "Del19" is a substring of "Del19+T790M", so Osimertinib
      is High along with the 1st and 2nd generation; antibodies Medium. */
  lemma Del19Outcome(mtype: string)
    ensures Efficacies(Recommendations("Del19", Classify(mtype, "Del19")))
            == [High, High, High, High, High, Medium, Medium]
  {
    var c := Classify(mtype, "Del19");
    KnownScores(mtype);
    Del19EarlyGenerations(c);
    Del19LaterClasses(c);
    EfficaciesOf("Del19", c, High, High, High, Medium);
  }
  lemma Del19EarlyGenerations(c: Classification)
    requires c.score == 20
    ensures CalculateEfficacy("Del19", FirstGen, c) == High
    ensures CalculateEfficacy("Del19", SecondGen, c) == High
  {
    var d := "Del19";
    NotContainsChar(d, "L858R", 0);
    ContainsAt(d, "Del19", 0);
  }
  lemma Del19LaterClasses(c: Classification)
    requires c.score == 20
    ensures CalculateEfficacy("Del19", ThirdGen, c) == High
    ensures CalculateEfficacy("Del19", Antibody, c) == Medium
  {
    var d := "Del19";
    NotContainsChar(d, "T790M", 0);
    NotContainsChar(d, "L858R+T790M", 0);
    ContainsAt(d, "Del19+T790M", 0);
    NotContainsChar(d, "Amplification", 0);
    NotContainsChar(d, "Overexpression", 0);
    NotContainsChar(d, "KRAS mutations", 0);
    assert !IsDigit(d[0]);
  }

  /** L858R (0.3): a score of exactly 0.3 is not below 0.3, so every drug,
      Osimertinib included (through "L858R+T790M"), is Medium. */
  lemma L858ROutcome(mtype: string)
    ensures Efficacies(Recommendations("L858R", Classify(mtype, "L858R")))
            == [Medium, Medium, Medium, Medium, Medium, Medium, Medium]
  {
    var c := Classify(mtype, "L858R");
    KnownScores(mtype);
    L858REarlyGenerations(c);
    L858RLaterClasses(c);
    EfficaciesOf("L858R", c, Medium, Medium, Medium, Medium);
  }
  lemma L858REarlyGenerations(c: Classification)
    requires c.score == 30
    ensures CalculateEfficacy("L858R", FirstGen, c) == Medium
    ensures CalculateEfficacy("L858R", SecondGen, c) == Medium
  {
    ContainsAt("L858R", "L858R", 0);
  }
  lemma L858RLaterClasses(c: Classification)
    requires c.score == 30
    ensures CalculateEfficacy("L858R", ThirdGen, c) == Medium
    ensures CalculateEfficacy("L858R", Antibody, c) == Medium
  {
    var d := "L858R";
    NotContainsChar(d, "T790M", 0);
    ContainsAt(d, "L858R+T790M", 0);
    NotContainsChar(d, "Amplification", 0);
    NotContainsChar(d, "Overexpression", 0);
    NotContainsChar(d, "KRAS mutations", 0);
    assert !IsDigit(d[0]);
  }

  /** G719X (0.4): Medium everywhere. */
  lemma G719XOutcome(mtype: string)
    ensures Efficacies(Recommendations("G719X", Classify(mtype, "G719X")))
            == [Medium, Medium, Medium, Medium, Medium, Medium, Medium]
  {
    var c := Classify(mtype, "G719X");
    G719XEarlyGenerations(c);
    G719XLaterClasses(c);
    EfficaciesOf("G719X", c, Medium, Medium, Medium, Medium);
  }

  /** The 1st and 2nd generations list G719X as effective; at 0.4 that is
      Medium. */
  lemma G719XEarlyGenerations(c: Classification)
    requires c.score == 40
    ensures CalculateEfficacy("G719X", FirstGen, c) == Medium
    ensures CalculateEfficacy("G719X", SecondGen, c) == Medium
  {
    var d := "G719X";
    NotContainsChar(d, "L858R", 0);
    NotContainsChar(d, "Del19", 0);
    ContainsAt(d, "G719X", 0);
  }

  /** Neither later class lists G719X, so both default to Medium. */
  lemma G719XLaterClasses(c: Classification)
    ensures CalculateEfficacy("G719X", ThirdGen, c) == Medium
    ensures CalculateEfficacy("G719X", Antibody, c) == Medium
  {
    var d := "G719X";
    NotContainsChar(d, "T790M", 0);
    NotContainsChar(d, "L858R+T790M", 0);
    NotContainsChar(d, "Del19+T790M", 0);
    NotContainsChar(d, "C797S", 0);
    NotContainsChar(d, "Amplification", 0);
    NotContainsChar(d, "Overexpression", 0);
    NotContainsChar(d, "KRAS mutations", 0);
    assert !IsDigit(d[0]);
  }

  /** "Exon 20 ins" (0.75): the 1st generation is Low through its resistant
      list; nothing else matches, so everything else is Medium. */
  lemma Exon20InsOutcome(mtype: string)
    ensures Efficacies(Recommendations("Exon 20 ins", Classify(mtype, "Exon 20 ins")))
            == [Low, Low, Medium, Medium, Medium, Medium, Medium]
  {
    var c := Classify(mtype, "Exon 20 ins");
    Exon20InsEarlyGenerations(c);
    Exon20InsLaterClasses(c);
    EfficaciesOf("Exon 20 ins", c, Low, Medium, Medium, Medium);
  }

  lemma Exon20InsEarlyGenerations(c: Classification)
    ensures CalculateEfficacy("Exon 20 ins", FirstGen, c) == Low
    ensures CalculateEfficacy("Exon 20 ins", SecondGen, c) == Medium
  {
    var d := "Exon 20 ins";
    NotContainsChar(d, "L858R", 0);
    NotContainsChar(d, "Del19", 0);
    NotContainsChar(d, "G719X", 0);
    NotContainsChar(d, "T790M", 0);
    ContainsAt(d, "Exon 20 ins", 0);
    assert !IsDigit(d[0]);
  }

  lemma Exon20InsLaterClasses(c: Classification)
    ensures CalculateEfficacy("Exon 20 ins", ThirdGen, c) == Medium
    ensures CalculateEfficacy("Exon 20 ins", Antibody, c) == Medium
  {
    var d := "Exon 20 ins";
    NotContainsChar(d, "T790M", 0);
    NotContainsChar(d, "L858R+T790M", 0);
    NotContainsChar(d, "Del19+T790M", 0);
    NotContainsChar(d, "C797S", 0);
    NotContainsChar(d, "Amplification", 0);
    NotContainsChar(d, "Overexpression", 0);
    NotContainsChar(d, "KRAS mutations", 0);
    assert !IsDigit(d[0]);
  }

  /** Eight copies (0.6): "8" is a substring of "L858R", so every TKI takes
      the effective branch at score 0.6 and is Low; the antibodies see an
      all-digit detail of at least 4 and are High. */
  lemma EightCopiesOutcome()
    ensures Efficacies(Recommendations("8", Classify("Amplification", "8")))
            == [Low, Low, Low, Low, Low, High, High]
  {
    var c := Classify("Amplification", "8");
    AmplificationScenarios();
    EightCopiesClasses(c);
    EfficaciesOf("8", c, Low, Low, Low, High);
  }

  lemma EightCopiesClasses(c: Classification)
    requires c.score == 60
    ensures CalculateEfficacy("8", FirstGen, c) == Low
    ensures CalculateEfficacy("8", SecondGen, c) == Low
    ensures CalculateEfficacy("8", ThirdGen, c) == Low
    ensures CalculateEfficacy("8", Antibody, c) == High
  {
    var d := "8";
    ContainsAt(d, "L858R", 1);
    NotContainsChar(d, "T790M", 0);
    ContainsAt(d, "L858R+T790M", 1);
    NotContainsChar(d, "Amplification", 0);
    NotContainsChar(d, "Overexpression", 0);
    NotContainsChar(d, "KRAS mutations", 0);
    assert IsDigits(d) && DigitsValue(d) == 8;
  }

  /** Four copies (0.4): "4" occurs in no pattern; the TKIs default to Medium
      and the antibodies, seeing a copy number of at least 4, are High. */
  lemma FourCopiesOutcome()
    ensures Efficacies(Recommendations("4", Classify("Amplification", "4")))
            == [Medium, Medium, Medium, Medium, Medium, High, High]
  {
    var c := Classify("Amplification", "4");
    AmplificationScenarios();
    FourCopiesEarlyGenerations(c);
    FourCopiesLaterClasses(c);
    EfficaciesOf("4", c, Medium, Medium, Medium, High);
  }

  lemma FourCopiesEarlyGenerations(c: Classification)
    ensures CalculateEfficacy("4", FirstGen, c) == Medium
    ensures CalculateEfficacy("4", SecondGen, c) == Medium
  {
    var d := "4";
    NotContainsChar(d, "L858R", 0);
    NotContainsChar(d, "Del19", 0);
    NotContainsChar(d, "G719X", 0);
    NotContainsChar(d, "T790M", 0);
    NotContainsChar(d, "Exon 20 ins", 0);
  }

  lemma FourCopiesLaterClasses(c: Classification)
    ensures CalculateEfficacy("4", ThirdGen, c) == Medium
    ensures CalculateEfficacy("4", Antibody, c) == High
  {
    var d := "4";
    NotContainsChar(d, "T790M", 0);
    NotContainsChar(d, "L858R+T790M", 0);
    NotContainsChar(d, "Del19+T790M", 0);
    NotContainsChar(d, "C797S", 0);
    NotContainsChar(d, "Amplification", 0);
    NotContainsChar(d, "Overexpression", 0);
    NotContainsChar(d, "KRAS mutations", 0);
    assert IsDigits(d) && DigitsValue(d) == 4;
  }

  /** Whatever the detail, the rationale of every recommendation is the one
      chosen by the classification's kind, and no efficacy is "None". */
  lemma RecommendationsUniform(detail: string, c: Classification)
    ensures |Recommendations(detail, c)| == 7
    ensures forall k :: 0 <= k < 7 ==> Recommendations(detail, c)[k].rationale == Rationale(c.kind)
    ensures forall k :: 0 <= k < 7 ==> Recommendations(detail, c)[k].efficacy != Unrated
  {
    RecommendationsListing(detail, c);
  }
}
