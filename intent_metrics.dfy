/**
 * What evaluate_classification computes, as functions of the result entries:
 * the entry for each test case, the correct count, per-class true/false
 * positives and negatives, precision, recall and F1, their macro averages, the
 * cells of the 6x6 confusion matrix, and the per-language tallies of the
 * regional cases.
 */
module IntentMetrics {
  import opened Wrappers
  import opened Classifier
  import opened IntentClassification
  import Stats

  /** One row of the detailed results. */
  datatype ResultEntry = ResultEntry(query: string, language: string, expectedIntent: string,
                                     actualIntent: string, confidence: real, isCorrect: bool)

  /** A case counts as regional when its language is neither "en-IN" nor "en". */
  predicate IsRegional(language: string) {
    language != "en-IN" && language != "en"
  }

  /**
   * The entry for one case: the language defaults to "en-IN", the actual intent
   * and the confidence come from the normalised classification.
   */
  function EntryFor(c: TestCase, classify: (string, string) -> ClassifierReply): (e: ResultEntry)
    ensures e.query == c.query && e.expectedIntent == c.expectedIntent
    ensures c.language.None? ==> e.language == "en-IN"
    ensures c.language.Some? ==> e.language == c.language.value
    ensures e.isCorrect <==> e.actualIntent == c.expectedIntent
    ensures var r := RunIntentClassification(c.query, e.language, classify);
      e.actualIntent == ActualIntent(r) && e.confidence == ReportedConfidence(r)
    ensures c.query == "" ==> e.actualIntent == "error" && e.confidence == 0.0
  {
    var language := c.language.GetOr("en-IN");
    var result := RunIntentClassification(c.query, language, classify);
    var actual := ActualIntent(result);
    ResultEntry(c.query, language, c.expectedIntent, actual, ReportedConfidence(result), actual == c.expectedIntent)
  }

  // ---------------------------------------------------------------------------
  // Counting
  // ---------------------------------------------------------------------------

  /** The number of entries that pass `test`. */
  function Count(results: seq<ResultEntry>, test: ResultEntry -> bool): (n: nat)
    ensures n <= |results|
  {
    if |results| == 0 then 0
    else Count(results[..|results| - 1], test) + (if test(results[|results| - 1]) then 1 else 0)
  }

  predicate Correct(e: ResultEntry) {
    e.isCorrect
  }

  predicate Matched(e: ResultEntry) {
    e.actualIntent == e.expectedIntent
  }

  predicate Regional(e: ResultEntry) {
    IsRegional(e.language)
  }

  function Expects(intent: string): ResultEntry -> bool {
    (e: ResultEntry) => e.expectedIntent == intent
  }

  function ExpectsCorrectly(intent: string): ResultEntry -> bool {
    (e: ResultEntry) => e.expectedIntent == intent && e.isCorrect
  }

  function Matches(expected: string, actual: string): ResultEntry -> bool {
    (e: ResultEntry) => e.expectedIntent == expected && e.actualIntent == actual
  }

  function Missed(intent: string): ResultEntry -> bool {
    (e: ResultEntry) => e.expectedIntent == intent && e.actualIntent != intent
  }

  function Spurious(intent: string): ResultEntry -> bool {
    (e: ResultEntry) => e.expectedIntent != intent && e.actualIntent == intent
  }

  predicate BothListed(e: ResultEntry) {
    e.expectedIntent in IntentTypes && e.actualIntent in IntentTypes
  }

  lemma CountAppend(results: seq<ResultEntry>, e: ResultEntry, test: ResultEntry -> bool)
    ensures Count(results + [e], test) == Count(results, test) + (if test(e) then 1 else 0)
  {
    assert (results + [e])[..|results|] == results;
  }

  /** Counting by two tests that never both hold adds up to counting by their disjunction. */
  lemma {:induction false} CountDisjoint(results: seq<ResultEntry>, p: ResultEntry -> bool, q: ResultEntry -> bool,
                                         either: ResultEntry -> bool)
    requires forall e :: either(e) <==> p(e) || q(e)
    requires forall e :: !(p(e) && q(e))
    ensures Count(results, either) == Count(results, p) + Count(results, q)
  {
    if |results| > 0 {
      CountDisjoint(results[..|results| - 1], p, q, either);
    }
  }

  /** A weaker test counts at least as many entries. */
  lemma {:induction false} CountMonotone(results: seq<ResultEntry>, p: ResultEntry -> bool, q: ResultEntry -> bool)
    requires forall e :: p(e) ==> q(e)
    ensures Count(results, p) <= Count(results, q)
  {
    if |results| > 0 {
      CountMonotone(results[..|results| - 1], p, q);
    }
  }

  /** Two tests that agree on every entry count the same. */
  lemma {:induction false} CountAgree(results: seq<ResultEntry>, p: ResultEntry -> bool, q: ResultEntry -> bool)
    requires forall k :: 0 <= k < |results| ==> p(results[k]) == q(results[k])
    ensures Count(results, p) == Count(results, q)
  {
    if |results| > 0 {
      CountAgree(results[..|results| - 1], p, q);
    }
  }

  /** A test that every entry passes counts them all. */
  lemma {:induction false} CountAll(results: seq<ResultEntry>, test: ResultEntry -> bool)
    requires forall k :: 0 <= k < |results| ==> test(results[k])
    ensures Count(results, test) == |results|
  {
    if |results| > 0 {
      CountAll(results[..|results| - 1], test);
    }
  }

  // ---------------------------------------------------------------------------
  // Results and regional entries
  // ---------------------------------------------------------------------------

  /** The regional entries, in order. */
  function RegionalResults(results: seq<ResultEntry>): (r: seq<ResultEntry>)
    ensures |r| == Count(results, Regional)
    ensures forall e :: e in r <==> e in results && IsRegional(e.language)
  {
    if |results| == 0 then []
    else
      var last := results[|results| - 1];
      var init := results[..|results| - 1];
      assert results == init + [last];
      RegionalResults(init) + (if IsRegional(last.language) then [last] else [])
  }

  /** Appending one entry extends the correct count and the regional entries by that entry alone. */
  lemma RunCasesStep(results: seq<ResultEntry>, entry: ResultEntry)
    ensures Count(results + [entry], Correct) == Count(results, Correct) + (if entry.isCorrect then 1 else 0)
    ensures RegionalResults(results + [entry]) ==
      RegionalResults(results) + (if IsRegional(entry.language) then [entry] else [])
  {
    CountAppend(results, entry, Correct);
    assert (results + [entry])[..|results|] == results;
  }

  /** Every case is counted correct exactly when its actual intent equals the expected one. */
  lemma {:induction false} CorrectMeansMatched(cases: seq<TestCase>, results: seq<ResultEntry>,
                                               classify: (string, string) -> ClassifierReply)
    requires |results| == |cases|
    requires forall k :: 0 <= k < |cases| ==> results[k] == EntryFor(cases[k], classify)
    ensures Count(results, Correct) == Count(results, Matched)
    ensures Count(results, Correct) <= |cases|
  {
    CountAgree(results, Correct, Matched);
  }

  // ---------------------------------------------------------------------------
  // Per-class metrics
  // ---------------------------------------------------------------------------

  function ExpectedCount(results: seq<ResultEntry>, intent: string): nat {
    Count(results, Expects(intent))
  }

  /** A true positive is an entry on the diagonal of the confusion matrix. */
  function TruePositives(results: seq<ResultEntry>, intent: string): nat {
    Count(results, Matches(intent, intent))
  }

  function FalsePositives(results: seq<ResultEntry>, intent: string): nat {
    Count(results, Spurious(intent))
  }

  function FalseNegatives(results: seq<ResultEntry>, intent: string): nat {
    Count(results, Missed(intent))
  }

  /** Every entry expecting an intent is either a true positive or a false negative for it. */
  lemma TpPlusFn(results: seq<ResultEntry>, intent: string)
    ensures TruePositives(results, intent) + FalseNegatives(results, intent) == ExpectedCount(results, intent)
  {
    CountDisjoint(results, Matches(intent, intent), Missed(intent), Expects(intent));
  }

  /** With consistent entries, the correct count of a class is its true-positive count. */
  lemma ClassCorrectIsTp(results: seq<ResultEntry>, intent: string)
    requires forall k :: 0 <= k < |results| ==> (results[k].isCorrect <==> results[k].actualIntent == results[k].expectedIntent)
    ensures Count(results, ExpectsCorrectly(intent)) == TruePositives(results, intent)
  {
    CountAgree(results, ExpectsCorrectly(intent), Matches(intent, intent));
  }

  /** The class_metrics entry of one intent. */
  datatype ClassMetrics = ClassMetrics(count: nat, correct: nat, accuracy: real)

  function ClassMetricsFor(results: seq<ResultEntry>, intent: string): (m: ClassMetrics)
    ensures m.count == ExpectedCount(results, intent)
    ensures m.correct == Count(results, ExpectsCorrectly(intent)) && m.correct <= m.count
    ensures m.accuracy == Stats.Ratio(m.correct, m.count)
    ensures 0.0 <= m.accuracy <= 1.0
    ensures m.count > 0 ==> m.accuracy * (m.count as real) == m.correct as real
  {
    var count := ExpectedCount(results, intent);
    var correct := Count(results, ExpectsCorrectly(intent));
    CountMonotone(results, ExpectsCorrectly(intent), Expects(intent));
    ClassMetrics(count, correct, Stats.Ratio(correct, count))
  }

  /** tp / (tp + fp), or 0 when the class was never predicted. */
  function Precision(results: seq<ResultEntry>, intent: string): (p: real)
    ensures 0.0 <= p <= 1.0
    ensures TruePositives(results, intent) + FalsePositives(results, intent) == 0 ==> p == 0.0
    ensures TruePositives(results, intent) + FalsePositives(results, intent) > 0 ==>
      p * ((TruePositives(results, intent) + FalsePositives(results, intent)) as real) == TruePositives(results, intent) as real
  {
    var tp := TruePositives(results, intent);
    Stats.Ratio(tp, tp + FalsePositives(results, intent))
  }

  /** tp / (tp + fn), or 0 when no case expects the class. */
  function Recall(results: seq<ResultEntry>, intent: string): (r: real)
    ensures 0.0 <= r <= 1.0
    ensures ExpectedCount(results, intent) == 0 ==> r == 0.0
    ensures ExpectedCount(results, intent) > 0 ==>
      r * (ExpectedCount(results, intent) as real) == TruePositives(results, intent) as real
  {
    var tp := TruePositives(results, intent);
    TpPlusFn(results, intent);
    Stats.Ratio(tp, tp + FalseNegatives(results, intent))
  }

  /** The class F1 score: the F1 of the class precision and recall, within [0, 1]. */
  function ClassF1(results: seq<ResultEntry>, intent: string): (f: real)
    ensures f == Stats.F1(Precision(results, intent), Recall(results, intent))
    ensures 0.0 <= f <= 1.0
    ensures Precision(results, intent) + Recall(results, intent) == 0.0 ==> f == 0.0
  {
    Stats.F1Bounded(Precision(results, intent), Recall(results, intent));
    Stats.F1(Precision(results, intent), Recall(results, intent))
  }

  /** The precision, recall and F1 of one intent. */
  datatype ClassScores = ClassScores(intent: string, precision: real, recall: real, f1: real)

  function Scores(results: seq<ResultEntry>): (s: seq<ClassScores>)
    ensures |s| == |IntentTypes|
    ensures forall k :: 0 <= k < |s| ==> s[k].intent == IntentTypes[k]
    ensures forall k :: 0 <= k < |s| ==>
      s[k].precision == Precision(results, IntentTypes[k]) && s[k].recall == Recall(results, IntentTypes[k]) &&
      s[k].f1 == ClassF1(results, IntentTypes[k])
    ensures forall k :: 0 <= k < |s| ==>
      0.0 <= s[k].precision <= 1.0 && 0.0 <= s[k].recall <= 1.0 && 0.0 <= s[k].f1 <= 1.0
  {
    seq(|IntentTypes|, k requires 0 <= k < |IntentTypes| =>
      ClassScores(IntentTypes[k], Precision(results, IntentTypes[k]), Recall(results, IntentTypes[k]),
                  ClassF1(results, IntentTypes[k])))
  }

  // ---------------------------------------------------------------------------
  // Macro averages
  // ---------------------------------------------------------------------------

  /** A class takes part in the macro averages when it was both predicted and expected. */
  predicate Scored(results: seq<ResultEntry>, intent: string) {
    TruePositives(results, intent) + FalsePositives(results, intent) > 0 &&
    TruePositives(results, intent) + FalseNegatives(results, intent) > 0
  }

  /** The scored intents among `intents`, in order. */
  function ScoredAmong(results: seq<ResultEntry>, intents: seq<string>): (nz: seq<string>)
    ensures forall i :: i in nz <==> i in intents && Scored(results, i)
  {
    if |intents| == 0 then []
    else (if Scored(results, intents[0]) then [intents[0]] else []) + ScoredAmong(results, intents[1..])
  }

  function NonZeroIntents(results: seq<ResultEntry>): seq<string> {
    ScoredAmong(results, IntentTypes)
  }

  function Precisions(results: seq<ResultEntry>, intents: seq<string>): (ps: seq<real>)
    ensures |ps| == |intents|
    ensures forall k :: 0 <= k < |ps| ==> ps[k] == Precision(results, intents[k]) && 0.0 <= ps[k] <= 1.0
  {
    seq(|intents|, k requires 0 <= k < |intents| => Precision(results, intents[k]))
  }

  function Recalls(results: seq<ResultEntry>, intents: seq<string>): (rs: seq<real>)
    ensures |rs| == |intents|
    ensures forall k :: 0 <= k < |rs| ==> rs[k] == Recall(results, intents[k]) && 0.0 <= rs[k] <= 1.0
  {
    seq(|intents|, k requires 0 <= k < |intents| => Recall(results, intents[k]))
  }

  /** The mean precision over the scored intents, or 0 when there are none. */
  function MacroPrecision(results: seq<ResultEntry>): (m: real)
    ensures 0.0 <= m <= 1.0
    ensures |NonZeroIntents(results)| == 0 ==> m == 0.0
    ensures |NonZeroIntents(results)| > 0 ==>
      m * (|NonZeroIntents(results)| as real) == Stats.Sum(Precisions(results, NonZeroIntents(results)))
  {
    var nz := NonZeroIntents(results);
    var ps := Precisions(results, nz);
    Stats.MeanBounded(ps);
    assert |ps| as real == |nz| as real;
    Stats.Mean(ps)
  }

  /** The mean recall over the scored intents, or 0 when there are none. */
  function MacroRecall(results: seq<ResultEntry>): (m: real)
    ensures 0.0 <= m <= 1.0
    ensures |NonZeroIntents(results)| == 0 ==> m == 0.0
    ensures |NonZeroIntents(results)| > 0 ==>
      m * (|NonZeroIntents(results)| as real) == Stats.Sum(Recalls(results, NonZeroIntents(results)))
  {
    var nz := NonZeroIntents(results);
    var rs := Recalls(results, nz);
    Stats.MeanBounded(rs);
    assert |rs| as real == |nz| as real;
    Stats.Mean(rs)
  }

  /** The F1 of the macro precision and recall, 0 when no intent is scored. */
  function MacroF1(results: seq<ResultEntry>): (f: real)
    ensures f == Stats.F1(MacroPrecision(results), MacroRecall(results))
    ensures 0.0 <= f <= 1.0
    ensures |NonZeroIntents(results)| == 0 ==> f == 0.0
  {
    Stats.F1Bounded(MacroPrecision(results), MacroRecall(results));
    Stats.F1(MacroPrecision(results), MacroRecall(results))
  }

  // ---------------------------------------------------------------------------
  // Confusion matrix
  // ---------------------------------------------------------------------------

  lemma IntentTypesDistinct()
    ensures forall i, j :: 0 <= i < j < |IntentTypes| ==> IntentTypes[i] != IntentTypes[j]
  {
  }

  /** The position of `x` in `xs`, if any. */
  function IndexOf(xs: seq<string>, x: string): (r: Option<nat>)
    ensures r.Some? ==> r.value < |xs| && xs[r.value] == x
    ensures r.None? ==> x !in xs
  {
    if |xs| == 0 then None
    else if xs[0] == x then Some(0)
    else match IndexOf(xs[1..], x)
      case None => None
      case Some(i) => Some(i + 1)
  }

  function SumNat(xs: seq<nat>): nat {
    if |xs| == 0 then 0 else SumNat(xs[..|xs| - 1]) + xs[|xs| - 1]
  }

  /** The total of all cells of a matrix. */
  function MatrixTotal(m: seq<seq<nat>>): nat {
    SumNat(seq(|m|, i requires 0 <= i < |m| => SumNat(m[i])))
  }

  lemma {:induction false} SumNatIncrement(xs: seq<nat>, k: nat)
    requires k < |xs|
    ensures SumNat(xs[k := xs[k] + 1]) == SumNat(xs) + 1
  {
    var ys := xs[k := xs[k] + 1];
    var n := |xs|;
    if k == n - 1 {
      assert ys[..n - 1] == xs[..n - 1];
    } else {
      assert ys[..n - 1] == xs[..n - 1][k := xs[k] + 1];
      SumNatIncrement(xs[..n - 1], k);
    }
  }

  /** Incrementing one cell increments the total. */
  lemma MatrixTotalIncrement(m: seq<seq<nat>>, a: nat, p: nat)
    requires a < |m| && p < |m[a]|
    ensures MatrixTotal(m[a := m[a][p := m[a][p] + 1]]) == MatrixTotal(m) + 1
  {
    var m' := m[a := m[a][p := m[a][p] + 1]];
    var rows := seq(|m|, i requires 0 <= i < |m| => SumNat(m[i]));
    var rows' := seq(|m'|, i requires 0 <= i < |m'| => SumNat(m'[i]));
    SumNatIncrement(m[a], p);
    assert rows' == rows[a := rows[a] + 1];
    SumNatIncrement(rows, a);
  }

  /** A square matrix of zeros with one row and one column per listed intent. */
  function Zeros(): (m: seq<seq<nat>>)
    ensures |m| == |IntentTypes| && forall a :: 0 <= a < |m| ==> m[a] == seq(|IntentTypes|, p => 0)
  {
    seq(|IntentTypes|, a => seq(|IntentTypes|, p => 0))
  }

  predicate IsMatrix(m: seq<seq<nat>>) {
    |m| == |IntentTypes| && forall a :: 0 <= a < |m| ==> |m[a]| == |IntentTypes|
  }

  /** `m` is the confusion matrix of `results`, and its cells add up to the entries with two listed intents. */
  predicate Tallies(m: seq<seq<nat>>, results: seq<ResultEntry>) {
    && IsMatrix(m)
    && (forall a, p :: 0 <= a < |IntentTypes| && 0 <= p < |IntentTypes| ==>
          m[a][p] == Count(results, Matches(IntentTypes[a], IntentTypes[p])))
    && MatrixTotal(m) == Count(results, BothListed)
  }

  /** One step of the filling loop: the cell of the entry's pair goes up by one when both intents are listed. */
  function Tally(m: seq<seq<nat>>, e: ResultEntry): seq<seq<nat>>
    requires IsMatrix(m)
  {
    match (IndexOf(IntentTypes, e.expectedIntent), IndexOf(IntentTypes, e.actualIntent))
    case (Some(a), Some(p)) => m[a := m[a][p := m[a][p] + 1]]
    case _ => m
  }

  lemma TalliesEmpty()
    ensures Tallies(Zeros(), [])
  {
    ZerosTotal();
  }

  /** Counting one more entry keeps the matrix in step with the results. */
  lemma TallyStep(m: seq<seq<nat>>, results: seq<ResultEntry>, e: ResultEntry)
    requires Tallies(m, results)
    ensures Tallies(Tally(m, e), results + [e])
  {
    TallyCells(m, results, e);
    TallyTotal(m, results, e);
  }

  lemma TallyCells(m: seq<seq<nat>>, results: seq<ResultEntry>, e: ResultEntry)
    requires Tallies(m, results)
    ensures IsMatrix(Tally(m, e))
    ensures forall a, p :: 0 <= a < |IntentTypes| && 0 <= p < |IntentTypes| ==>
      Tally(m, e)[a][p] == Count(results + [e], Matches(IntentTypes[a], IntentTypes[p]))
  {
    IntentTypesDistinct();
    var m' := Tally(m, e);
    forall a, p | 0 <= a < |IntentTypes| && 0 <= p < |IntentTypes|
      ensures m'[a][p] == Count(results + [e], Matches(IntentTypes[a], IntentTypes[p]))
    {
      CountAppend(results, e, Matches(IntentTypes[a], IntentTypes[p]));
    }
  }

  lemma TallyTotal(m: seq<seq<nat>>, results: seq<ResultEntry>, e: ResultEntry)
    requires IsMatrix(m) && MatrixTotal(m) == Count(results, BothListed)
    ensures MatrixTotal(Tally(m, e)) == Count(results + [e], BothListed)
  {
    CountAppend(results, e, BothListed);
    if BothListed(e) {
      TallyListed(m, e);
    } else {
      TallySkipped(m, e);
    }
  }

  /** An entry with both intents listed adds one to the total. */
  lemma TallyListed(m: seq<seq<nat>>, e: ResultEntry)
    requires IsMatrix(m) && BothListed(e)
    ensures MatrixTotal(Tally(m, e)) == MatrixTotal(m) + 1
  {
    var row := IndexOf(IntentTypes, e.expectedIntent);
    var col := IndexOf(IntentTypes, e.actualIntent);
    assert row.Some? && col.Some?;
    var a, p := row.value, col.value;
    assert Tally(m, e) == m[a := m[a][p := m[a][p] + 1]];
    MatrixTotalIncrement(m, a, p);
  }

  /** An entry with an unlisted intent leaves the matrix as it is. */
  lemma TallySkipped(m: seq<seq<nat>>, e: ResultEntry)
    requires IsMatrix(m) && !BothListed(e)
    ensures Tally(m, e) == m
  {
    var row := IndexOf(IntentTypes, e.expectedIntent);
    var col := IndexOf(IntentTypes, e.actualIntent);
    assert row.None? || col.None?;
  }

  lemma ZerosTotal()
    ensures MatrixTotal(Zeros()) == 0
  {
    var m := Zeros();
    var rows := seq(|m|, i requires 0 <= i < |m| => SumNat(m[i]));
    forall a | 0 <= a < |m|
      ensures rows[a] == 0
    {
      AllZeroSum(m[a]);
    }
    AllZeroSum(rows);
  }

  lemma {:induction false} AllZeroSum(xs: seq<nat>)
    requires forall k :: 0 <= k < |xs| ==> xs[k] == 0
    ensures SumNat(xs) == 0
  {
    if |xs| > 0 {
      AllZeroSum(xs[..|xs| - 1]);
    }
  }

  // ---------------------------------------------------------------------------
  // Regional metrics
  // ---------------------------------------------------------------------------

  /** The by_language entry of one language. */
  datatype LanguageMetrics = LanguageMetrics(language: string, count: nat, correct: nat, accuracy: real)

  function Languages(results: seq<ResultEntry>): set<string> {
    set e | e in results :: e.language
  }

  function InLanguage(language: string): ResultEntry -> bool {
    (e: ResultEntry) => e.language == language
  }

  function InLanguages(languages: set<string>): ResultEntry -> bool {
    (e: ResultEntry) => e.language in languages
  }

  function CorrectIn(language: string): ResultEntry -> bool {
    (e: ResultEntry) => e.language == language && e.isCorrect
  }

  function MetricsFor(results: seq<ResultEntry>, language: string): (m: LanguageMetrics)
    ensures m.language == language && m.count == Count(results, InLanguage(language))
    ensures m.correct == Count(results, CorrectIn(language)) && m.accuracy == Stats.Ratio(m.correct, m.count)
    ensures m.correct <= m.count && 0.0 <= m.accuracy <= 1.0
  {
    var count := Count(results, InLanguage(language));
    var correct := Count(results, CorrectIn(language));
    CountMonotone(results, CorrectIn(language), InLanguage(language));
    LanguageMetrics(language, count, correct, Stats.Ratio(correct, count))
  }

  function CountsTotal(ms: seq<LanguageMetrics>): nat {
    if |ms| == 0 then 0 else CountsTotal(ms[..|ms| - 1]) + ms[|ms| - 1].count
  }

  function LanguagesOf(ms: seq<LanguageMetrics>): set<string> {
    set k | 0 <= k < |ms| :: ms[k].language
  }

  predicate DistinctLanguages(ms: seq<LanguageMetrics>) {
    forall i, j :: 0 <= i < j < |ms| ==> ms[i].language != ms[j].language
  }

  /**
   * One step of the loop over languages: a language not yet tallied adds one
   * entry, keeps the languages distinct, and keeps the counts in step with the
   * entries of the tallied languages.
   */
  lemma BreakdownStep(results: seq<ResultEntry>, ms: seq<LanguageMetrics>, language: string)
    requires language !in LanguagesOf(ms)
    requires DistinctLanguages(ms)
    requires CountsTotal(ms) == Count(results, InLanguages(LanguagesOf(ms)))
    ensures LanguagesOf(ms + [MetricsFor(results, language)]) == LanguagesOf(ms) + {language}
    ensures DistinctLanguages(ms + [MetricsFor(results, language)])
    ensures CountsTotal(ms + [MetricsFor(results, language)]) ==
      Count(results, InLanguages(LanguagesOf(ms + [MetricsFor(results, language)])))
  {
    var done := LanguagesOf(ms);
    var next := ms + [MetricsFor(results, language)];
    CountAddLanguage(results, done, language);
    forall k | 0 <= k < |ms|
      ensures ms[k].language != language
    {
      assert ms[k].language in done;
    }
    assert next[..|ms|] == ms;
    forall l | l in LanguagesOf(next)
      ensures l in done + {language}
    {
      var k :| 0 <= k < |next| && next[k].language == l;
      if k < |ms| {
        assert ms[k].language in done;
      }
    }
    assert next[|ms|].language == language;
    forall l | l in done
      ensures l in LanguagesOf(next)
    {
      var k :| 0 <= k < |ms| && ms[k].language == l;
      assert next[k].language == l;
    }
    assert LanguagesOf(next) == done + {language};
  }

  /** A test no entry passes counts nothing. */
  lemma {:induction false} CountNone(results: seq<ResultEntry>, test: ResultEntry -> bool)
    requires forall k :: 0 <= k < |results| ==> !test(results[k])
    ensures Count(results, test) == 0
  {
    if |results| > 0 {
      CountNone(results[..|results| - 1], test);
    }
  }

  /** Adding a language to a set adds its entries to the count. */
  lemma CountAddLanguage(results: seq<ResultEntry>, languages: set<string>, language: string)
    requires language !in languages
    ensures Count(results, InLanguages(languages + {language})) ==
      Count(results, InLanguages(languages)) + Count(results, InLanguage(language))
  {
    CountDisjoint(results, InLanguages(languages), InLanguage(language), InLanguages(languages + {language}));
  }

  /** Every entry is in one of the languages that occur. */
  lemma CountEveryLanguage(results: seq<ResultEntry>)
    ensures Count(results, InLanguages(Languages(results))) == |results|
  {
    forall k | 0 <= k < |results|
      ensures InLanguages(Languages(results))(results[k])
    {
      assert results[k] in results;
    }
    CountAll(results, InLanguages(Languages(results)));
  }
}

