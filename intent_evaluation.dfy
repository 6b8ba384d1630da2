/**
 * evaluate_classification itself: the loop over the test cases and the loops
 * that fill class_metrics, the confusion matrix and the per-language tallies,
 * each proved against the counting functions of IntentMetrics.
 */
module IntentEvaluation {
  import opened Wrappers
  import opened Classifier
  import opened IntentClassification
  import opened IntentMetrics
  import Stats

  /**
   * The bookkeeping for one case: the entry is appended, counted when correct,
   * and kept among the regional entries when its language is regional.
   */
  method RecordEntry(results: seq<ResultEntry>, correctCount: nat, regional: seq<ResultEntry>, entry: ResultEntry)
    returns (results': seq<ResultEntry>, correctCount': nat, regional': seq<ResultEntry>)
    requires correctCount == Count(results, Correct) && regional == RegionalResults(results)
    ensures results' == results + [entry]
    ensures correctCount' == Count(results', Correct) && regional' == RegionalResults(results')
  {
    RunCasesStep(results, entry);
    results', correctCount', regional' := results + [entry], correctCount, regional;
    if entry.isCorrect {
      correctCount' := correctCount' + 1;
    }
    if IsRegional(entry.language) {
      regional' := regional' + [entry];
    }
  }

  /**
   * The loop of evaluate_classification: one entry per case in order, the number
   * of correct entries, and the regional entries collected on the way.
   */
  method RunCases(cases: seq<TestCase>, classify: (string, string) -> ClassifierReply)
    returns (results: seq<ResultEntry>, correctCount: nat, regional: seq<ResultEntry>)
    ensures |results| == |cases|
    ensures forall k :: 0 <= k < |cases| ==> results[k] == EntryFor(cases[k], classify)
    ensures correctCount == Count(results, Correct)
    ensures regional == RegionalResults(results)
  {
    results, correctCount, regional := [], 0, [];
    for i := 0 to |cases|
      invariant |results| == i
      invariant forall k :: 0 <= k < i ==> results[k] == EntryFor(cases[k], classify)
      invariant correctCount == Count(results, Correct)
      invariant regional == RegionalResults(results)
    {
      var entry := EntryFor(cases[i], classify);
      var before := results;
      results, correctCount, regional := RecordEntry(results, correctCount, regional, entry);
      forall k | 0 <= k < i + 1
        ensures results[k] == EntryFor(cases[k], classify)
      {
        if k < i {
          assert results[k] == before[k];
        }
      }
    }
  }

  /** The loop that fills class_metrics: an entry for each listed intent that some case expects. */
  method ComputeClassMetrics(results: seq<ResultEntry>) returns (classMetrics: map<string, ClassMetrics>)
    ensures forall intent :: intent in classMetrics <==> intent in IntentTypes && ExpectedCount(results, intent) > 0
    ensures forall intent :: intent in classMetrics ==> classMetrics[intent] == ClassMetricsFor(results, intent)
  {
    classMetrics := map[];
    for k := 0 to |IntentTypes|
      invariant forall intent :: intent in classMetrics <==> intent in IntentTypes[..k] && ExpectedCount(results, intent) > 0
      invariant forall intent :: intent in classMetrics ==> classMetrics[intent] == ClassMetricsFor(results, intent)
    {
      var intent := IntentTypes[k];
      assert IntentTypes[..k + 1] == IntentTypes[..k] + [intent];
      if ExpectedCount(results, intent) > 0 {
        classMetrics := classMetrics[intent := ClassMetricsFor(results, intent)];
      }
    }
    assert IntentTypes[..|IntentTypes|] == IntentTypes;
  }

  /**
   * The confusion matrix, rows by expected and columns by actual intent: each
   * cell counts its pair, the diagonal holds the true positives, and an entry
   * with an unlisted intent is counted in no cell.
   */
  method FillConfusionMatrix(results: seq<ResultEntry>) returns (m: seq<seq<nat>>)
    ensures IsMatrix(m)
    ensures forall a, p :: 0 <= a < |IntentTypes| && 0 <= p < |IntentTypes| ==>
      m[a][p] == Count(results, Matches(IntentTypes[a], IntentTypes[p]))
    ensures forall k :: 0 <= k < |IntentTypes| ==> m[k][k] == TruePositives(results, IntentTypes[k])
    ensures MatrixTotal(m) == Count(results, BothListed)
  {
    m := Zeros();
    TalliesEmpty();
    for i := 0 to |results|
      invariant Tallies(m, results[..i])
    {
      TallyStep(m, results[..i], results[i]);
      assert results[..i + 1] == results[..i] + [results[i]];
      m := Tally(m, results[i]);
    }
    assert results[..|results|] == results;
  }

  /**
   * The loop over the distinct languages of the regional entries: one entry per
   * language, each with its own tally, and the counts add up to the regional total.
   */
  method LanguageBreakdown(regional: seq<ResultEntry>) returns (byLanguage: seq<LanguageMetrics>)
    ensures LanguagesOf(byLanguage) == Languages(regional)
    ensures DistinctLanguages(byLanguage)
    ensures forall k :: 0 <= k < |byLanguage| ==> byLanguage[k] == MetricsFor(regional, byLanguage[k].language)
    ensures CountsTotal(byLanguage) == |regional|
  {
    var remaining := Languages(regional);
    byLanguage := [];
    assert LanguagesOf(byLanguage) == {};
    CountNone(regional, InLanguages({}));
    while remaining != {}
      invariant remaining <= Languages(regional)
      invariant LanguagesOf(byLanguage) == Languages(regional) - remaining
      invariant DistinctLanguages(byLanguage)
      invariant forall k :: 0 <= k < |byLanguage| ==> byLanguage[k] == MetricsFor(regional, byLanguage[k].language)
      invariant CountsTotal(byLanguage) == Count(regional, InLanguages(LanguagesOf(byLanguage)))
      decreases remaining
    {
      var language :| language in remaining;
      BreakdownStep(regional, byLanguage, language);
      var next := byLanguage + [MetricsFor(regional, language)];
      byLanguage := next;
      remaining := remaining - {language};
    }
    CountEveryLanguage(regional);
  }

  /** regional_metrics, present only when some case is regional. */
  datatype RegionalMetrics = RegionalMetrics(total: nat, correct: nat, accuracy: real, byLanguage: seq<LanguageMetrics>)

  datatype Report = Report(
    totalCases: nat,
    correctClassifications: nat,
    overallAccuracy: real,
    classMetrics: map<string, ClassMetrics>,
    confusionMatrix: seq<seq<nat>>,
    detailedResults: seq<ResultEntry>,
    regionalMetrics: Option<RegionalMetrics>,
    scores: seq<ClassScores>,
    macroPrecision: real,
    macroRecall: real,
    macroF1: real)

  /** evaluate_classification, with the classifier as a parameter. */
  method EvaluateClassification(cases: seq<TestCase>, classify: (string, string) -> ClassifierReply)
    returns (report: Report)
    ensures report.totalCases == |cases| && |report.detailedResults| == |cases|
    ensures forall k :: 0 <= k < |cases| ==> report.detailedResults[k] == EntryFor(cases[k], classify)
    ensures report.correctClassifications == Count(report.detailedResults, Matched)
    ensures report.correctClassifications <= report.totalCases
    ensures report.overallAccuracy == Stats.Ratio(report.correctClassifications, report.totalCases)
    ensures 0.0 <= report.overallAccuracy <= 1.0
    ensures forall intent :: intent in report.classMetrics <==>
      intent in IntentTypes && ExpectedCount(report.detailedResults, intent) > 0
    ensures forall intent :: intent in report.classMetrics ==>
      report.classMetrics[intent] == ClassMetricsFor(report.detailedResults, intent)
    ensures IsMatrix(report.confusionMatrix)
    ensures forall a, p :: 0 <= a < |IntentTypes| && 0 <= p < |IntentTypes| ==>
      report.confusionMatrix[a][p] == Count(report.detailedResults, Matches(IntentTypes[a], IntentTypes[p]))
    ensures MatrixTotal(report.confusionMatrix) == Count(report.detailedResults, BothListed)
    ensures report.regionalMetrics.None? <==> RegionalResults(report.detailedResults) == []
    ensures report.regionalMetrics.Some? ==>
      var r := report.regionalMetrics.value;
      && r.total == |RegionalResults(report.detailedResults)|
      && r.correct == Count(RegionalResults(report.detailedResults), Correct) && r.correct <= r.total
      && r.accuracy == Stats.Ratio(r.correct, r.total) && 0.0 <= r.accuracy <= 1.0
      && CountsTotal(r.byLanguage) == r.total
      && LanguagesOf(r.byLanguage) == Languages(RegionalResults(report.detailedResults))
      && DistinctLanguages(r.byLanguage)
      && forall k :: 0 <= k < |r.byLanguage| ==>
           r.byLanguage[k] == MetricsFor(RegionalResults(report.detailedResults), r.byLanguage[k].language)
    ensures report.scores == Scores(report.detailedResults)
    ensures report.macroPrecision == MacroPrecision(report.detailedResults)
    ensures report.macroRecall == MacroRecall(report.detailedResults)
    ensures report.macroF1 == MacroF1(report.detailedResults)
    ensures 0.0 <= report.macroPrecision <= 1.0 && 0.0 <= report.macroRecall <= 1.0
    ensures 0.0 <= report.macroF1 <= 1.0
    ensures |NonZeroIntents(report.detailedResults)| == 0 ==>
      report.macroPrecision == 0.0 && report.macroRecall == 0.0 && report.macroF1 == 0.0
  {
    var results, correctCount, regional := RunCases(cases, classify);
    CorrectMeansMatched(cases, results, classify);
    var accuracy := Stats.Ratio(correctCount, |cases|);
    var classMetrics := ComputeClassMetrics(results);
    var matrix := FillConfusionMatrix(results);
    var regionalMetrics: Option<RegionalMetrics> := None;
    if regional != [] {
      var regionalCorrect := Count(regional, Correct);
      var byLanguage := LanguageBreakdown(regional);
      regionalMetrics := Some(RegionalMetrics(|regional|, regionalCorrect, Stats.Ratio(regionalCorrect, |regional|),
                                              byLanguage));
    }
    report := Report(|cases|, correctCount, accuracy, classMetrics, matrix, results, regionalMetrics,
                     Scores(results), MacroPrecision(results), MacroRecall(results), MacroF1(results));
  }
}
