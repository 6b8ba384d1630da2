/**
 * The retrieval evaluation script: set-based precision, recall and F1 for one
 * query, the "exactly one relevant product" ground-truth filter, the sorted
 * list of queries to evaluate, the test vector store's guards, and the loop
 * that scores every query and averages the scores.
 */
module RagAccuracy {
  import opened Wrappers
  import opened SampleProducts
  import Stats

  // ---------------------------------------------------------------------------
  // calculate_precision_recall_f1
  // ---------------------------------------------------------------------------

  /** Python's `set(xs)`. */
  function ToSet(xs: seq<string>): set<string> {
    set x | x in xs
  }

  datatype Scores = Scores(precision: real, recall: real, f1: real)

  /**
   * Precision, recall and F1 of one query. With no relevant ids, precision is 1
   * exactly when nothing was retrieved and the other two are 0; otherwise the
   * ids are compared as sets. (calculate_precision_recall_f1 tests
   * `precision + recall == 0` for F1; both scores are non-negative, so that is
   * Stats.F1's guard.)
   */
  function PrecisionRecallF1(retrieved: seq<string>, relevant: seq<string>): (s: Scores)
    ensures |relevant| == 0 ==> s == Scores(if |retrieved| == 0 then 1.0 else 0.0, 0.0, 0.0)
    ensures |relevant| > 0 && |retrieved| > 0 ==>
      s.precision * (|ToSet(retrieved)| as real) == |ToSet(retrieved) * ToSet(relevant)| as real
    ensures |relevant| > 0 ==>
      s.recall * (|ToSet(relevant)| as real) == |ToSet(retrieved) * ToSet(relevant)| as real
    ensures |relevant| > 0 && |retrieved| == 0 ==> s == Scores(0.0, 0.0, 0.0)
    ensures 0.0 <= s.precision <= 1.0 && 0.0 <= s.recall <= 1.0 && 0.0 <= s.f1 <= 1.0
    ensures s.f1 == Stats.F1(s.precision, s.recall)
    ensures s.precision + s.recall == 0.0 ==> s.f1 == 0.0
  {
    if |relevant| == 0 then Scores(if |retrieved| == 0 then 1.0 else 0.0, 0.0, 0.0)
    else
      var got, want := ToSet(retrieved), ToSet(relevant);
      var tp, fp, fn := |got * want|, |got - want|, |want - got|;
      SplitCardinality(got, want);
      SplitCardinality(want, got);
      NonEmptySet(retrieved);
      NonEmptySet(relevant);
      assert want * got == got * want;
      var p := Stats.Ratio(tp, tp + fp);
      var r := Stats.Ratio(tp, tp + fn);
      Stats.F1Bounded(p, r);
      Scores(p, r, Stats.F1(p, r))
  }

  /** A set splits into its part inside another set and its part outside. */
  lemma SplitCardinality(a: set<string>, b: set<string>)
    ensures |a * b| + |a - b| == |a|
  {
    assert (a * b) + (a - b) == a;
    assert (a * b) * (a - b) == {};
  }

  /** A list is empty exactly when its set is. */
  lemma NonEmptySet(xs: seq<string>)
    ensures |xs| == 0 <==> |ToSet(xs)| == 0
  {
    if |xs| > 0 {
      assert xs[0] in ToSet(xs);
    }
  }

  /**
   * The true and false positives of a query make up its distinct retrieved ids,
   * and the true positives and false negatives its distinct relevant ids.
   */
  lemma PositivesCoverRetrieved(retrieved: seq<string>, relevant: seq<string>)
    ensures |ToSet(retrieved) * ToSet(relevant)| + |ToSet(retrieved) - ToSet(relevant)| == |ToSet(retrieved)|
    ensures |ToSet(retrieved) * ToSet(relevant)| + |ToSet(relevant) - ToSet(retrieved)| == |ToSet(relevant)|
  {
    SplitCardinality(ToSet(retrieved), ToSet(relevant));
    SplitCardinality(ToSet(relevant), ToSet(retrieved));
    assert ToSet(relevant) * ToSet(retrieved) == ToSet(retrieved) * ToSet(relevant);
  }

  /** Repeating or reordering ids changes nothing: only the two sets matter. */
  lemma DuplicatesIgnored(retrieved: seq<string>, relevant: seq<string>, retrieved': seq<string>, relevant': seq<string>)
    requires ToSet(retrieved) == ToSet(retrieved') && ToSet(relevant) == ToSet(relevant')
    ensures PrecisionRecallF1(retrieved, relevant) == PrecisionRecallF1(retrieved', relevant')
  {
    NonEmptySet(retrieved);
    NonEmptySet(retrieved');
    NonEmptySet(relevant);
    NonEmptySet(relevant');
  }

  /** Retrieving exactly the relevant ids scores 1 on all three. */
  lemma PerfectRetrieval(retrieved: seq<string>, relevant: seq<string>)
    requires |relevant| > 0 && ToSet(retrieved) == ToSet(relevant)
    ensures PrecisionRecallF1(retrieved, relevant) == Scores(1.0, 1.0, 1.0)
  {
    NonEmptySet(relevant);
    NonEmptySet(retrieved);
    var s := ToSet(relevant);
    assert s * s == s;
    assert s - s == {};
  }

  // ---------------------------------------------------------------------------
  // Ground truth and the order of evaluation
  // ---------------------------------------------------------------------------

  /** The ground-truth entries with exactly one relevant id. */
  function SingleIdGroundTruth(groundTruthMap: map<string, seq<string>>): (g: map<string, seq<string>>)
    ensures forall q :: q in g <==> q in groundTruthMap && |groundTruthMap[q]| == 1
    ensures forall q :: q in g ==> g[q] == groundTruthMap[q] && |g[q]| == 1
  {
    map q | q in groundTruthMap && |groundTruthMap[q]| == 1 :: groundTruthMap[q]
  }

  /** The loop that keeps the ground-truth entries with exactly one relevant id. */
  method FilterGroundTruth(groundTruthMap: map<string, seq<string>>) returns (groundTruth: map<string, seq<string>>)
    ensures groundTruth == SingleIdGroundTruth(groundTruthMap)
  {
    groundTruth := map[];
    var pending := groundTruthMap.Keys;
    while pending != {}
      invariant pending <= groundTruthMap.Keys
      invariant forall q :: q in groundTruth <==> q in groundTruthMap && q !in pending && |groundTruthMap[q]| == 1
      invariant forall q :: q in groundTruth ==> groundTruth[q] == groundTruthMap[q]
      decreases pending
    {
      var query :| query in pending;
      if |groundTruthMap[query]| == 1 {
        groundTruth := groundTruth[query := groundTruthMap[query]];
      }
      pending := pending - {query};
    }
    assert groundTruth.Keys == SingleIdGroundTruth(groundTruthMap).Keys;
  }

  /** Python's ordering of strings: code point by code point, a proper prefix first. */
  predicate LexLe(a: string, b: string) {
    |a| == 0 || (|b| > 0 && (a[0] < b[0] || (a[0] == b[0] && LexLe(a[1..], b[1..]))))
  }

  lemma {:induction false} LexTotal(a: string, b: string)
    ensures LexLe(a, b) || LexLe(b, a)
  {
    if |a| > 0 && |b| > 0 && a[0] == b[0] {
      LexTotal(a[1..], b[1..]);
    }
  }

  lemma {:induction false} LexTransitive(a: string, b: string, c: string)
    requires LexLe(a, b) && LexLe(b, c)
    ensures LexLe(a, c)
  {
    if |a| > 0 && a[0] == b[0] && b[0] == c[0] {
      LexTransitive(a[1..], b[1..], c[1..]);
    }
  }

  predicate Sorted(xs: seq<string>) {
    forall i, j :: 0 <= i < j < |xs| ==> LexLe(xs[i], xs[j])
  }

  /** Inserting into a sorted list keeps it sorted and adds exactly the one element. */
  function Insert(x: string, xs: seq<string>): (r: seq<string>)
    requires Sorted(xs)
    ensures multiset(r) == multiset(xs) + multiset{x}
    ensures Sorted(r)
  {
    if |xs| == 0 then [x]
    else if LexLe(x, xs[0]) then
      InsertFront(x, xs);
      [x] + xs
    else
      LexTotal(x, xs[0]);
      var rest := Insert(x, xs[1..]);
      assert xs == [xs[0]] + xs[1..];
      InsertBehind(xs[0], x, xs[1..], rest);
      [xs[0]] + rest
  }

  lemma InsertFront(x: string, xs: seq<string>)
    requires Sorted(xs) && |xs| > 0 && LexLe(x, xs[0])
    ensures Sorted([x] + xs)
  {
    forall j | 0 < j < |xs| + 1
      ensures LexLe(([x] + xs)[0], ([x] + xs)[j])
    {
      if j > 1 {
        LexTransitive(x, xs[0], xs[j - 1]);
      }
    }
  }

  lemma InsertBehind(y: string, x: string, xs: seq<string>, rest: seq<string>)
    requires Sorted([y] + xs) && LexLe(y, x) && Sorted(rest)
    requires multiset(rest) == multiset(xs) + multiset{x}
    ensures Sorted([y] + rest)
  {
    forall j | 0 <= j < |rest|
      ensures LexLe(y, rest[j])
    {
      assert rest[j] in multiset(rest);
      if rest[j] != x {
        assert rest[j] in multiset(xs);
        var i :| 0 <= i < |xs| && xs[i] == rest[j];
        assert ([y] + xs)[0] == y && ([y] + xs)[i + 1] == xs[i];
        assert LexLe(([y] + xs)[0], ([y] + xs)[i + 1]);
      }
    }
    forall i, j | 0 <= i < j < |rest| + 1
      ensures LexLe(([y] + rest)[i], ([y] + rest)[j])
    {
      if i > 0 {
        assert ([y] + rest)[i] == rest[i - 1] && ([y] + rest)[j] == rest[j - 1];
      }
    }
  }

  /** Python's `list.sort()` on strings: a sorted permutation of its input. */
  function SortStrings(xs: seq<string>): (r: seq<string>)
    ensures multiset(r) == multiset(xs)
    ensures Sorted(r)
  {
    if |xs| == 0 then []
    else
      assert xs == xs[..|xs| - 1] + [xs[|xs| - 1]];
      Insert(xs[|xs| - 1], SortStrings(xs[..|xs| - 1]))
  }

  /** The CSV queries that have ground truth, in their original order. */
  function KnownQueries(queries: seq<string>, groundTruth: map<string, seq<string>>): (r: seq<string>)
    ensures forall q :: q in groundTruth ==> multiset(r)[q] == multiset(queries)[q]
    ensures forall q :: q !in groundTruth ==> multiset(r)[q] == 0
  {
    if |queries| == 0 then []
    else
      assert queries == [queries[0]] + queries[1..];
      (if queries[0] in groundTruth then [queries[0]] else []) + KnownQueries(queries[1..], groundTruth)
  }

  /**
   * The queries to evaluate: every CSV query with ground truth, as often as it
   * occurs in the CSV, in sorted order.
   */
  function QueriesToEvaluate(queries: seq<string>, groundTruth: map<string, seq<string>>): (r: seq<string>)
    ensures Sorted(r)
    ensures forall q :: q in groundTruth ==> multiset(r)[q] == multiset(queries)[q]
    ensures forall q :: q !in groundTruth ==> multiset(r)[q] == 0
    ensures forall k :: 0 <= k < |r| ==> r[k] in groundTruth
  {
    var r := SortStrings(KnownQueries(queries, groundTruth));
    forall k | 0 <= k < |r|
      ensures r[k] in groundTruth
    {
      assert r[k] in multiset(r);
    }
    r
  }

  // ---------------------------------------------------------------------------
  // The test vector store
  // ---------------------------------------------------------------------------

  /** An indexed document: its text and the product it stands for. */
  datatype Document = Document(pageContent: string, metadata: Product)

  /** What the similarity search of the underlying store does: it raises, or returns hits. */
  datatype SearchOutcome = SearchRaised | Hits(products: seq<Product>)

  /**
   * The evaluation's vector store. `initialized` records whether creating the
   * collection succeeded; `documents` is what has been indexed.
   */
  class VectorStore {
    var initialized: bool
    var documents: seq<Document>

    /** `created` is the outcome of initialize_collection, run by the constructor. */
    constructor(created: bool)
      ensures initialized == created && documents == []
    {
      initialized := created;
      documents := [];
    }

    /**
     * add_products: refused when the store is not initialised; otherwise each
     * product becomes a document "{name}: {description}" carrying the whole
     * product, unless the store's add raises (`addRaises`).
     */
    method AddProducts(products: seq<Product>, addRaises: bool) returns (ok: bool)
      modifies this
      ensures initialized == old(initialized)
      ensures ok <==> old(initialized) && !addRaises
      ensures !ok ==> documents == old(documents)
      ensures ok ==> |documents| == |old(documents)| + |products|
      ensures ok ==> documents[..|old(documents)|] == old(documents)
      ensures ok ==> forall k :: 0 <= k < |products| ==>
        documents[|old(documents)| + k] ==
          Document(products[k].name + ": " + products[k].description, products[k])
    {
      if !initialized {
        return false;
      }
      var batch: seq<Document> := [];
      for i := 0 to |products|
        invariant |batch| == i
        invariant forall k :: 0 <= k < i ==>
          batch[k] == Document(products[k].name + ": " + products[k].description, products[k])
      {
        batch := batch + [Document(products[i].name + ": " + products[i].description, products[i])];
      }
      if addRaises {
        return false;
      }
      documents := documents + batch;
      return true;
    }

    /** search: nothing when not initialised or when the underlying search raises. */
    method Search(query: string, limit: int, outcome: SearchOutcome) returns (found: seq<Product>)
      ensures !initialized ==> found == []
      ensures initialized && outcome.SearchRaised? ==> found == []
      ensures initialized && outcome.Hits? ==> found == outcome.products
    {
      if !initialized {
        return [];
      }
      match outcome
      case SearchRaised => found := [];
      case Hits(products) => found := products;
    }
  }

  // ---------------------------------------------------------------------------
  // run_rag_evaluation
  // ---------------------------------------------------------------------------

  /** The messages returned when the queries CSV cannot be used. */
  const CsvErrorPrefix: string := "Error parsing queries CSV content: "
  const MissingQueryColumn: string :=
    "Error: 'Query' column not found in CSV data. Please ensure the CSV has a 'Query' header."

  /** What reading the CSV yields: it fails, lacks the Query column, or gives the queries. */
  datatype CsvOutcome = CsvUnreadable(message: string) | NoQueryColumn | QueryColumn(queries: seq<string>)

  /** One row of the detailed results. */
  datatype QueryRow = QueryRow(query: string, topId: string, relevantId: string, scores: Scores)

  datatype Evaluation =
    | CsvError(message: string)
    | StoreFailed
    | Evaluated(rows: seq<QueryRow>, averagePrecision: real, averageRecall: real, averageF1: real)

  /** The products a search returns for an initialised store. */
  function Retrieved(outcome: SearchOutcome): seq<Product> {
    if outcome.Hits? then outcome.products else []
  }

  /** The ids of the retrieved products, in order. */
  function Ids(products: seq<Product>): (ids: seq<string>)
    ensures |ids| == |products| && forall k :: 0 <= k < |ids| ==> ids[k] == products[k].id
  {
    seq(|products|, k requires 0 <= k < |products| => products[k].id)
  }

  /** The top retrieved id, or "N/A" when the search found nothing. */
  function TopId(products: seq<Product>): (id: string)
    ensures |products| == 0 ==> id == "N/A"
    ensures |products| > 0 ==> id == products[0].id
  {
    if |products| > 0 then products[0].id else "N/A"
  }

  /** The row the loop produces for one query with its single relevant id. */
  function RowFor(query: string, relevantId: string, retrieved: seq<Product>): QueryRow {
    QueryRow(query, TopId(retrieved), relevantId, PrecisionRecallF1(Ids(retrieved), [relevantId]))
  }

  function Precisions(rows: seq<QueryRow>): (ps: seq<real>)
    ensures |ps| == |rows| && forall k :: 0 <= k < |rows| ==> ps[k] == rows[k].scores.precision
  {
    seq(|rows|, k requires 0 <= k < |rows| => rows[k].scores.precision)
  }

  function Recalls(rows: seq<QueryRow>): (rs: seq<real>)
    ensures |rs| == |rows| && forall k :: 0 <= k < |rows| ==> rs[k] == rows[k].scores.recall
  {
    seq(|rows|, k requires 0 <= k < |rows| => rows[k].scores.recall)
  }

  function F1s(rows: seq<QueryRow>): (fs: seq<real>)
    ensures |fs| == |rows| && forall k :: 0 <= k < |rows| ==> fs[k] == rows[k].scores.f1
  {
    seq(|rows|, k requires 0 <= k < |rows| => rows[k].scores.f1)
  }

  /** A query with exactly one relevant id; the loop skips any other. */
  predicate HasSingleId(groundTruth: map<string, seq<string>>, query: string) {
    query in groundTruth && |groundTruth[query]| == 1
  }

  /** The rows of the scoring loop: one per query with a single relevant id, in order. */
  function Rows(queries: seq<string>, groundTruth: map<string, seq<string>>, similar: string -> SearchOutcome)
    : seq<QueryRow>
  {
    if |queries| == 0 then []
    else
      var query := queries[|queries| - 1];
      Rows(queries[..|queries| - 1], groundTruth, similar) +
      (if HasSingleId(groundTruth, query) then [RowFor(query, groundTruth[query][0], Retrieved(similar(query)))] else [])
  }

  /** When no query is skipped, row k belongs to query k. */
  lemma AllSingleRows(queries: seq<string>, groundTruth: map<string, seq<string>>, similar: string -> SearchOutcome)
    requires forall k :: 0 <= k < |queries| ==> queries[k] in groundTruth && |groundTruth[queries[k]]| == 1
    ensures |Rows(queries, groundTruth, similar)| == |queries|
    ensures forall k :: 0 <= k < |queries| ==>
      Rows(queries, groundTruth, similar)[k] == RowFor(queries[k], groundTruth[queries[k]][0], Retrieved(similar(queries[k])))
  {
    RowsLength(queries, groundTruth, similar);
    forall k | 0 <= k < |queries|
      ensures Rows(queries, groundTruth, similar)[k] ==
        RowFor(queries[k], groundTruth[queries[k]][0], Retrieved(similar(queries[k])))
    {
      RowAt(queries, groundTruth, similar, k);
    }
  }

  lemma {:induction false} RowsLength(queries: seq<string>, groundTruth: map<string, seq<string>>,
                                      similar: string -> SearchOutcome)
    requires forall k :: 0 <= k < |queries| ==> queries[k] in groundTruth && |groundTruth[queries[k]]| == 1
    ensures |Rows(queries, groundTruth, similar)| == |queries|
  {
    if |queries| > 0 {
      RowsLength(queries[..|queries| - 1], groundTruth, similar);
      RowsStep(queries, groundTruth, similar);
    }
  }

  lemma {:induction false} RowAt(queries: seq<string>, groundTruth: map<string, seq<string>>,
                                 similar: string -> SearchOutcome, k: nat)
    requires forall k :: 0 <= k < |queries| ==> queries[k] in groundTruth && |groundTruth[queries[k]]| == 1
    requires k < |queries|
    ensures k < |Rows(queries, groundTruth, similar)|
    ensures Rows(queries, groundTruth, similar)[k] ==
      RowFor(queries[k], groundTruth[queries[k]][0], Retrieved(similar(queries[k])))
  {
    var init := queries[..|queries| - 1];
    if k < |queries| - 1 {
      RowAt(init, groundTruth, similar, k);
      RowsPrefix(queries, groundTruth, similar, k);
      assert init[k] == queries[k];
    } else {
      RowsLast(queries, groundTruth, similar);
    }
  }

  /** A row before the last query's is the same as in the rows of the queries before it. */
  lemma RowsPrefix(queries: seq<string>, groundTruth: map<string, seq<string>>,
                   similar: string -> SearchOutcome, k: nat)
    requires forall k :: 0 <= k < |queries| ==> queries[k] in groundTruth && |groundTruth[queries[k]]| == 1
    requires k < |queries| - 1
    ensures k < |Rows(queries[..|queries| - 1], groundTruth, similar)|
    ensures k < |Rows(queries, groundTruth, similar)|
    ensures Rows(queries, groundTruth, similar)[k] == Rows(queries[..|queries| - 1], groundTruth, similar)[k]
  {
    var init := queries[..|queries| - 1];
    RowsLength(init, groundTruth, similar);
    var last := queries[|queries| - 1];
    var a := Rows(init, groundTruth, similar);
    var b := Rows(queries, groundTruth, similar);
    assert b == a + [RowFor(last, groundTruth[last][0], Retrieved(similar(last)))];
  }

  /** The last row belongs to the last query. */
  lemma RowsLast(queries: seq<string>, groundTruth: map<string, seq<string>>, similar: string -> SearchOutcome)
    requires forall k :: 0 <= k < |queries| ==> queries[k] in groundTruth && |groundTruth[queries[k]]| == 1
    requires |queries| > 0
    ensures |Rows(queries, groundTruth, similar)| == |queries|
    ensures Rows(queries, groundTruth, similar)[|queries| - 1] ==
      RowFor(queries[|queries| - 1], groundTruth[queries[|queries| - 1]][0], Retrieved(similar(queries[|queries| - 1])))
  {
    var init := queries[..|queries| - 1];
    RowsLength(init, groundTruth, similar);
    var last := queries[|queries| - 1];
    var a := Rows(init, groundTruth, similar);
    var b := Rows(queries, groundTruth, similar);
    assert b == a + [RowFor(last, groundTruth[last][0], Retrieved(similar(last)))];
  }

  lemma RowsStep(queries: seq<string>, groundTruth: map<string, seq<string>>, similar: string -> SearchOutcome)
    requires |queries| > 0
    requires queries[|queries| - 1] in groundTruth && |groundTruth[queries[|queries| - 1]]| == 1
    ensures Rows(queries, groundTruth, similar) == Rows(queries[..|queries| - 1], groundTruth, similar) +
      [RowFor(queries[|queries| - 1], groundTruth[queries[|queries| - 1]][0], Retrieved(similar(queries[|queries| - 1])))]
  {
  }

  /**
   * The scoring loop of run_rag_evaluation: a query without exactly one
   * relevant id is skipped; every other one is searched with limit 1 and scored
   * against its relevant id.
   */
  method ScoreQueries(store: VectorStore, queries: seq<string>, groundTruth: map<string, seq<string>>,
                      similar: string -> SearchOutcome) returns (rows: seq<QueryRow>)
    requires store.initialized
    ensures rows == Rows(queries, groundTruth, similar)
  {
    rows := [];
    for i := 0 to |queries|
      invariant rows == Rows(queries[..i], groundTruth, similar)
    {
      var query := queries[i];
      assert queries[..i + 1][..i] == queries[..i];
      var relevant := if query in groundTruth then groundTruth[query] else [];
      if |relevant| != 1 {
        continue;
      }
      var retrieved := store.Search(query, 1, similar(query));
      rows := rows + [RowFor(query, relevant[0], retrieved)];
    }
    assert queries[..|queries|] == queries;
  }

  /**
   * run_rag_evaluation without the HTML: `groundTruthMap` is the script's table,
   * `created` and `addRaises` the store's outcomes, and `similar` the top-1
   * similarity search for each query.
   */
  method RunRagEvaluation(csv: CsvOutcome, groundTruthMap: map<string, seq<string>>, products: seq<Product>,
                          created: bool, addRaises: bool, similar: string -> SearchOutcome)
    returns (result: Evaluation)
    ensures csv.CsvUnreadable? ==> result == CsvError(CsvErrorPrefix + csv.message)
    ensures csv.NoQueryColumn? ==> result == CsvError(MissingQueryColumn)
    ensures csv.QueryColumn? ==> (result.StoreFailed? <==> !created || addRaises)
    ensures result.Evaluated? <==> csv.QueryColumn? && created && !addRaises
    ensures result.Evaluated? ==>
      var groundTruth := SingleIdGroundTruth(groundTruthMap);
      var queries := QueriesToEvaluate(csv.queries, groundTruth);
      && |result.rows| == |queries|
      && (forall k :: 0 <= k < |queries| ==>
            result.rows[k] == RowFor(queries[k], groundTruth[queries[k]][0],
                                     Retrieved(similar(queries[k]))))
    ensures result.Evaluated? ==>
      && result.averagePrecision == Stats.Mean(Precisions(result.rows))
      && result.averageRecall == Stats.Mean(Recalls(result.rows))
      && result.averageF1 == Stats.Mean(F1s(result.rows))
      && 0.0 <= result.averagePrecision <= 1.0 && 0.0 <= result.averageRecall <= 1.0
      && 0.0 <= result.averageF1 <= 1.0
  {
    if csv.CsvUnreadable? {
      return CsvError(CsvErrorPrefix + csv.message);
    }
    if csv.NoQueryColumn? {
      return CsvError(MissingQueryColumn);
    }
    var groundTruth := FilterGroundTruth(groundTruthMap);
    var queries := QueriesToEvaluate(csv.queries, groundTruth);
    var store := new VectorStore(created);
    var ok := store.AddProducts(products, addRaises);
    if !ok {
      return StoreFailed;
    }
    var rows := ScoreQueries(store, queries, groundTruth, similar);
    AllSingleRows(queries, groundTruth, similar);
    var precisions, recalls, f1s := Precisions(rows), Recalls(rows), F1s(rows);
    Stats.MeanBounded(precisions);
    Stats.MeanBounded(recalls);
    Stats.MeanBounded(f1s);
    result := Evaluated(rows, Stats.Mean(precisions), Stats.Mean(recalls), Stats.Mean(f1s));
  }
}
