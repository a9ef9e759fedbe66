/** Evaluation metrics: one record per answered query, and a tracker that
    accumulates pass counts and totals over the queries it has seen and
    reports rates and averages. */
module Metrics {
  import opened Wrappers
  import opened Seqs

  /** The evaluation of one query, as the request handler fills it in. */
  datatype QueryEvaluation = QueryEvaluation(
    question: string,
    retrievalPrecision: real,
    docsRetrieved: int,
    docsRelevant: int,
    hallucinationCheck: string,
    qualityCheck: string,
    webSearchTriggered: bool,
    generationAttempts: int,
    latencyMs: real)

  /** A value of the JSON-like dictionaries the tracker hands out. */
  datatype Value = Str(s: string) | Real(r: real) | Int(i: int) | Bool(b: bool)

  /** QueryEvaluation.to_dict: each of the nine fields under the key of the
      same name. */
  function ToDict(e: QueryEvaluation): (d: map<string, Value>)
    ensures d.Keys == {"question", "retrieval_precision", "docs_retrieved", "docs_relevant",
                       "hallucination_check", "quality_check", "web_search_triggered",
                       "generation_attempts", "latency_ms"}
  {
    map["question" := Str(e.question),
        "retrieval_precision" := Real(e.retrievalPrecision),
        "docs_retrieved" := Int(e.docsRetrieved),
        "docs_relevant" := Int(e.docsRelevant),
        "hallucination_check" := Str(e.hallucinationCheck),
        "quality_check" := Str(e.qualityCheck),
        "web_search_triggered" := Bool(e.webSearchTriggered),
        "generation_attempts" := Int(e.generationAttempts),
        "latency_ms" := Real(e.latencyMs)]
  }

  /** Reads an evaluation back from a dictionary; None when a key is
      missing or holds a value of the wrong kind. */
  function FromDict(d: map<string, Value>): Option<QueryEvaluation>
  {
    if && "question" in d && d["question"].Str?
       && "retrieval_precision" in d && d["retrieval_precision"].Real?
       && "docs_retrieved" in d && d["docs_retrieved"].Int?
       && "docs_relevant" in d && d["docs_relevant"].Int?
       && "hallucination_check" in d && d["hallucination_check"].Str?
       && "quality_check" in d && d["quality_check"].Str?
       && "web_search_triggered" in d && d["web_search_triggered"].Bool?
       && "generation_attempts" in d && d["generation_attempts"].Int?
       && "latency_ms" in d && d["latency_ms"].Real?
    then Some(QueryEvaluation(
      d["question"].s, d["retrieval_precision"].r, d["docs_retrieved"].i, d["docs_relevant"].i,
      d["hallucination_check"].s, d["quality_check"].s, d["web_search_triggered"].b,
      d["generation_attempts"].i, d["latency_ms"].r))
    else None
  }

  /** The dictionary loses nothing: reading it back gives the evaluation,
      so distinct evaluations give distinct dictionaries. */
  lemma ToDictRoundTrip(e: QueryEvaluation, e': QueryEvaluation)
    ensures FromDict(ToDict(e)) == Some(e)
    ensures ToDict(e) == ToDict(e') ==> e == e'
  {
    assert FromDict(ToDict(e')) == Some(e');
  }

  /** The tracker's counters and totals. */
  datatype Counters = Counters(
    totalQueries: int,
    hallucinationPassed: int,
    qualityPassed: int,
    webSearchTriggered: int,
    totalDocsRetrieved: int,
    totalDocsRelevant: int,
    totalLatencyMs: real,
    totalGenerationAttempts: int)

  const Zero: Counters := Counters(0, 0, 0, 0, 0, 0, 0.0, 0)

  /** Every pass count lies between 0 and the number of queries. */
  predicate Consistent(c: Counters)
  {
    && 0 <= c.hallucinationPassed <= c.totalQueries
    && 0 <= c.qualityPassed <= c.totalQueries
    && 0 <= c.webSearchTriggered <= c.totalQueries
  }

  /** The counters after recording one more evaluation. */
  function Counted(c: Counters, e: QueryEvaluation): (r: Counters)
    ensures Consistent(c) ==> Consistent(r)
  {
    Counters(
      c.totalQueries + 1,
      c.hallucinationPassed + (if e.hallucinationCheck == "yes" then 1 else 0),
      c.qualityPassed + (if e.qualityCheck == "yes" then 1 else 0),
      c.webSearchTriggered + (if e.webSearchTriggered then 1 else 0),
      c.totalDocsRetrieved + e.docsRetrieved,
      c.totalDocsRelevant + e.docsRelevant,
      c.totalLatencyMs + e.latencyMs,
      c.totalGenerationAttempts + e.generationAttempts)
  }

  /** The counters after recording a history of evaluations in order. */
  function CountedAll(c: Counters, es: seq<QueryEvaluation>): Counters
  {
    if es == [] then c else Counted(CountedAll(c, es[..|es| - 1]), es[|es| - 1])
  }

  function Sum(es: seq<QueryEvaluation>, f: QueryEvaluation -> int): int
  {
    if es == [] then 0 else Sum(es[..|es| - 1], f) + f(es[|es| - 1])
  }

  function SumReal(es: seq<QueryEvaluation>, f: QueryEvaluation -> real): real
  {
    if es == [] then 0.0 else SumReal(es[..|es| - 1], f) + f(es[|es| - 1])
  }

  /** A fresh tracker that has recorded `es` holds, in each counter, the
      number of evaluations that passed that check and, in each total, the
      sum of that field over the history. */
  lemma {:induction false} CountedAllAggregates(es: seq<QueryEvaluation>)
    ensures var c := CountedAll(Zero, es);
            && c.totalQueries == |es|
            && c.hallucinationPassed == |Filter(es, (e: QueryEvaluation) => e.hallucinationCheck == "yes")|
            && c.qualityPassed == |Filter(es, (e: QueryEvaluation) => e.qualityCheck == "yes")|
            && c.webSearchTriggered == |Filter(es, (e: QueryEvaluation) => e.webSearchTriggered)|
            && c.totalDocsRetrieved == Sum(es, (e: QueryEvaluation) => e.docsRetrieved)
            && c.totalDocsRelevant == Sum(es, (e: QueryEvaluation) => e.docsRelevant)
            && c.totalLatencyMs == SumReal(es, (e: QueryEvaluation) => e.latencyMs)
            && c.totalGenerationAttempts == Sum(es, (e: QueryEvaluation) => e.generationAttempts)
  {
    if es != [] {
      CountedAllAggregates(es[..|es| - 1]);
    }
  }

  /** What get_stats reports. */
  datatype Stats = Stats(
    totalQueries: int,
    hallucinationPassRate: real,
    qualityPassRate: real,
    webSearchRate: real,
    avgDocsRetrieved: real,
    avgDocsRelevant: real,
    avgRetrievalPrecision: real,
    avgLatencyMs: real,
    avgGenerationAttempts: real)

  /** get_stats on given counters: all zero before any query; otherwise
      each rate and average is its count or total over the number of
      queries, and precision is relevant over retrieved documents, or 0
      when none were retrieved. */
  function StatsOf(c: Counters): (r: Stats)
    ensures c.totalQueries == 0 ==> r == Stats(0, 0.0, 0.0, 0.0, 0.0, 0.0, 0.0, 0.0, 0.0)
    ensures c.totalQueries != 0 ==>
      var n := c.totalQueries as real;
      && r.totalQueries == c.totalQueries
      && r.hallucinationPassRate * n == c.hallucinationPassed as real
      && r.qualityPassRate * n == c.qualityPassed as real
      && r.webSearchRate * n == c.webSearchTriggered as real
      && r.avgDocsRetrieved * n == c.totalDocsRetrieved as real
      && r.avgDocsRelevant * n == c.totalDocsRelevant as real
      && r.avgLatencyMs * n == c.totalLatencyMs
      && r.avgGenerationAttempts * n == c.totalGenerationAttempts as real
    ensures c.totalQueries != 0 && c.totalDocsRetrieved > 0 ==>
      r.avgRetrievalPrecision * c.totalDocsRetrieved as real == c.totalDocsRelevant as real
    ensures c.totalDocsRetrieved <= 0 ==> r.avgRetrievalPrecision == 0.0
  {
    if c.totalQueries == 0 then Stats(0, 0.0, 0.0, 0.0, 0.0, 0.0, 0.0, 0.0, 0.0)
    else
      var n := c.totalQueries as real;
      Stats(
        c.totalQueries,
        c.hallucinationPassed as real / n,
        c.qualityPassed as real / n,
        c.webSearchTriggered as real / n,
        c.totalDocsRetrieved as real / n,
        c.totalDocsRelevant as real / n,
        if c.totalDocsRetrieved > 0 then c.totalDocsRelevant as real / c.totalDocsRetrieved as real else 0.0,
        c.totalLatencyMs / n,
        c.totalGenerationAttempts as real / n)
  }

  lemma RatioInUnit(a: real, n: real)
    requires 0.0 <= a <= n && n > 0.0
    ensures 0.0 <= a / n <= 1.0
  {
    assert (a / n) * n == a;
  }

  /** The three pass rates lie in [0, 1]; so does precision when relevant
      documents never outnumber retrieved ones. */
  lemma StatsRatesInUnit(c: Counters)
    requires Consistent(c)
    ensures var r := StatsOf(c);
            && 0.0 <= r.hallucinationPassRate <= 1.0
            && 0.0 <= r.qualityPassRate <= 1.0
            && 0.0 <= r.webSearchRate <= 1.0
            && (0 <= c.totalDocsRelevant <= c.totalDocsRetrieved ==> 0.0 <= r.avgRetrievalPrecision <= 1.0)
  {
    if c.totalQueries != 0 {
      var n := c.totalQueries as real;
      RatioInUnit(c.hallucinationPassed as real, n);
      RatioInUnit(c.qualityPassed as real, n);
      RatioInUnit(c.webSearchTriggered as real, n);
      if 0 < c.totalDocsRetrieved && c.totalDocsRelevant <= c.totalDocsRetrieved && 0 <= c.totalDocsRelevant {
        RatioInUnit(c.totalDocsRelevant as real, c.totalDocsRetrieved as real);
      }
    }
  }

  /** When every recorded evaluation has 0 <= relevant <= retrieved, the
      reported precision of the history lies in [0, 1]. */
  lemma {:induction false} HistoryPrecisionInUnit(es: seq<QueryEvaluation>)
    requires forall i :: 0 <= i < |es| ==> 0 <= es[i].docsRelevant <= es[i].docsRetrieved
    ensures 0 <= CountedAll(Zero, es).totalDocsRelevant <= CountedAll(Zero, es).totalDocsRetrieved
    ensures 0.0 <= StatsOf(CountedAll(Zero, es)).avgRetrievalPrecision <= 1.0
  {
    if es != [] {
      HistoryPrecisionInUnit(es[..|es| - 1]);
    }
    CountedAllConsistent(es);
    StatsRatesInUnit(CountedAll(Zero, es));
  }

  lemma {:induction false} CountedAllConsistent(es: seq<QueryEvaluation>)
    ensures Consistent(CountedAll(Zero, es))
  {
    if es != [] {
      CountedAllConsistent(es[..|es| - 1]);
    }
  }

  class EvaluationTracker {
    var totalQueries: int
    var hallucinationPassed: int
    var qualityPassed: int
    var webSearchTriggered: int
    var totalDocsRetrieved: int
    var totalDocsRelevant: int
    var totalLatencyMs: real
    var totalGenerationAttempts: int

    function Snapshot(): Counters
      reads this
    {
      Counters(totalQueries, hallucinationPassed, qualityPassed, webSearchTriggered,
               totalDocsRetrieved, totalDocsRelevant, totalLatencyMs, totalGenerationAttempts)
    }

    predicate Valid()
      reads this
    {
      Consistent(Snapshot())
    }

    /** A new tracker has every counter and total at zero. */
    constructor ()
      ensures Snapshot() == Zero && Valid()
    {
      totalQueries := 0;
      hallucinationPassed := 0;
      qualityPassed := 0;
      webSearchTriggered := 0;
      totalDocsRetrieved := 0;
      totalDocsRelevant := 0;
      totalLatencyMs := 0.0;
      totalGenerationAttempts := 0;
    }

    /** record: one more query; a pass count rises iff its check is exactly
        "yes" (or the web-search flag is set); the four totals grow by the
        evaluation's fields. */
    method Record(e: QueryEvaluation)
      modifies this
      ensures Snapshot() == Counted(old(Snapshot()), e)
      ensures old(Valid()) ==> Valid()
    {
      totalQueries := totalQueries + 1;
      if e.hallucinationCheck == "yes" {
        hallucinationPassed := hallucinationPassed + 1;
      }
      if e.qualityCheck == "yes" {
        qualityPassed := qualityPassed + 1;
      }
      if e.webSearchTriggered {
        webSearchTriggered := webSearchTriggered + 1;
      }
      totalDocsRetrieved := totalDocsRetrieved + e.docsRetrieved;
      totalDocsRelevant := totalDocsRelevant + e.docsRelevant;
      totalLatencyMs := totalLatencyMs + e.latencyMs;
      totalGenerationAttempts := totalGenerationAttempts + e.generationAttempts;
    }

    /** get_stats: reads the counters and changes none of them. */
    method GetStats() returns (r: Stats)
      ensures r == StatsOf(Snapshot())
      ensures Valid() ==> 0.0 <= r.hallucinationPassRate <= 1.0 && 0.0 <= r.qualityPassRate <= 1.0
                          && 0.0 <= r.webSearchRate <= 1.0
    {
      if Valid() {
        StatsRatesInUnit(Snapshot());
      }
      r := StatsOf(Snapshot());
    }
  }

  /** The process-wide tracker slot behind get_evaluation_tracker. */
  class TrackerRegistry {
    var instance: Option<EvaluationTracker>

    constructor ()
      ensures instance == None
    {
      instance := None;
    }

    /** get_evaluation_tracker: the first call creates a fresh, zeroed
        tracker; every later call returns that same tracker. */
    method GetEvaluationTracker() returns (t: EvaluationTracker)
      modifies this
      ensures instance == Some(t)
      ensures old(instance).Some? ==> t == old(instance).value
      ensures old(instance).None? ==> fresh(t) && t.Snapshot() == Zero
    {
      if instance.None? {
        var created := new EvaluationTracker();
        instance := Some(created);
      }
      t := instance.value;
    }
  }
}
