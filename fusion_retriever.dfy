/** FusionRetriever: min-max normalise vector and BM25 scores, combine them
    with a weighted sum, and rank the documents by the fused score with a
    stable descending sort. */
module Fusion {
  import opened Wrappers
  import opened Seqs
  import Tokenizer
  import Bm25

  /** The default vector weight: 60% vector, 40% BM25. */
  const DefaultAlpha: real := 0.6

  /** A (document index, fused score) pair. */
  datatype Ranked = Ranked(index: nat, score: real)

  /** The exceptions fuse_results lets escape: `np.min` of an empty vector
      score list, and a failing BM25 index build. */
  datatype FuseError = EmptyVectorScores | IndexBuildFailed

  function MinOf(s: seq<real>): (m: real)
    requires |s| > 0
    ensures forall i :: 0 <= i < |s| ==> m <= s[i]
    ensures exists i :: 0 <= i < |s| && s[i] == m
  {
    if |s| == 1 then s[0]
    else
      var m := MinOf(s[..|s| - 1]);
      if s[|s| - 1] < m then s[|s| - 1] else m
  }

  function MaxOf(s: seq<real>): (m: real)
    requires |s| > 0
    ensures forall i :: 0 <= i < |s| ==> s[i] <= m
    ensures exists i :: 0 <= i < |s| && s[i] == m
  {
    if |s| == 1 then s[0]
    else
      var m := MaxOf(s[..|s| - 1]);
      if s[|s| - 1] > m then s[|s| - 1] else m
  }

  /** Min-max scaling of one score. */
  function Scale(x: real, lo: real, hi: real): real
    requires lo < hi
  {
    (x - lo) / (hi - lo)
  }

  /** Min-max scaling of a non-empty score list; when every score is equal
      every score becomes `uniform`. */
  function MinMaxNormalize(s: seq<real>, uniform: real): (r: seq<real>)
    requires |s| > 0
    ensures |r| == |s|
    ensures MaxOf(s) == MinOf(s) ==> forall i :: 0 <= i < |r| ==> r[i] == uniform
    ensures MaxOf(s) > MinOf(s) ==> forall i :: 0 <= i < |r| ==> r[i] == Scale(s[i], MinOf(s), MaxOf(s))
  {
    var lo, hi := MinOf(s), MaxOf(s);
    if hi > lo then seq(|s|, i requires 0 <= i < |s| => Scale(s[i], lo, hi))
    else seq(|s|, _ => uniform)
  }

  lemma MulNonNegative(a: real, b: real)
    requires 0.0 <= a && 0.0 <= b
    ensures 0.0 <= a * b
  {
  }

  lemma ScaleBounds(x: real, lo: real, hi: real)
    requires lo < hi && lo <= x <= hi
    ensures 0.0 <= Scale(x, lo, hi) <= 1.0
  {
    var d := hi - lo;
    var q := Scale(x, lo, hi);
    assert q * d == x - lo;
    assert (1.0 - q) * d == hi - x;
  }

  lemma ScaleMonotone(x: real, y: real, lo: real, hi: real)
    requires lo < hi && x <= y
    ensures Scale(x, lo, hi) <= Scale(y, lo, hi)
  {
    var d := hi - lo;
    var p, q := Scale(x, lo, hi), Scale(y, lo, hi);
    assert p * d == x - lo;
    assert q * d == y - lo;
    assert (q - p) * d == y - x;
  }

  lemma ScaleEnds(lo: real, hi: real)
    requires lo < hi
    ensures Scale(lo, lo, hi) == 0.0 && Scale(hi, lo, hi) == 1.0
  {
    DivSelf(hi - lo);
  }

  lemma DivSelf(d: real)
    requires d > 0.0
    ensures d / d == 1.0
  {
  }

  /** One normalised score lies in [0, 1] (given `uniform` does); the
      minimum goes to 0 and the maximum to 1 when the scores differ. */
  lemma NormalizeAt(s: seq<real>, uniform: real, i: int)
    requires 0 <= i < |s|
    ensures 0.0 <= uniform <= 1.0 ==> 0.0 <= MinMaxNormalize(s, uniform)[i] <= 1.0
    ensures MaxOf(s) > MinOf(s) && s[i] == MinOf(s) ==> MinMaxNormalize(s, uniform)[i] == 0.0
    ensures MaxOf(s) > MinOf(s) && s[i] == MaxOf(s) ==> MinMaxNormalize(s, uniform)[i] == 1.0
  {
    var lo, hi := MinOf(s), MaxOf(s);
    if hi > lo {
      ScaleBounds(s[i], lo, hi);
      ScaleEnds(lo, hi);
    }
  }

  /** Normalisation keeps the order of the scores. */
  lemma NormalizeMonotoneAt(s: seq<real>, uniform: real, i: int, j: int)
    requires 0 <= i < |s| && 0 <= j < |s| && s[i] <= s[j]
    ensures MinMaxNormalize(s, uniform)[i] <= MinMaxNormalize(s, uniform)[j]
  {
    if MaxOf(s) > MinOf(s) {
      ScaleMonotone(s[i], s[j], MinOf(s), MaxOf(s));
    }
  }

  /** Normalisation keeps the order of the scores, lands in [0, 1] (given
      `uniform` does), and, when the scores differ, sends the minimum to 0
      and the maximum to 1. */
  lemma NormalizeProperties(s: seq<real>, uniform: real)
    requires |s| > 0
    ensures var r := MinMaxNormalize(s, uniform);
            && (0.0 <= uniform <= 1.0 ==> forall i :: 0 <= i < |r| ==> 0.0 <= r[i] <= 1.0)
            && (forall i, j :: 0 <= i < |s| && 0 <= j < |s| && s[i] <= s[j] ==> r[i] <= r[j])
            && (MaxOf(s) > MinOf(s) ==>
                  forall i :: 0 <= i < |s| ==>
                    (s[i] == MinOf(s) ==> r[i] == 0.0) && (s[i] == MaxOf(s) ==> r[i] == 1.0))
  {
    var r := MinMaxNormalize(s, uniform);
    forall i | 0 <= i < |s|
      ensures 0.0 <= uniform <= 1.0 ==> 0.0 <= r[i] <= 1.0
      ensures MaxOf(s) > MinOf(s) ==> (s[i] == MinOf(s) ==> r[i] == 0.0) && (s[i] == MaxOf(s) ==> r[i] == 1.0)
    {
      NormalizeAt(s, uniform, i);
    }
    forall i, j | 0 <= i < |s| && 0 <= j < |s| && s[i] <= s[j] ensures r[i] <= r[j] {
      NormalizeMonotoneAt(s, uniform, i, j);
    }
  }

  /** Vector scores: all equal means all 1.0 (treated as full agreement);
      every normalised score lies in [0, 1]. */
  function NormalizeVector(s: seq<real>): (r: seq<real>)
    requires |s| > 0
    ensures |r| == |s|
    ensures MaxOf(s) == MinOf(s) ==> forall i :: 0 <= i < |r| ==> r[i] == 1.0
    ensures forall i :: 0 <= i < |r| ==> 0.0 <= r[i] <= 1.0
  {
    NormalizeProperties(s, 1.0);
    MinMaxNormalize(s, 1.0)
  }

  /** BM25 scores: all equal means all 0.5 (no discriminating signal);
      every normalised score lies in [0, 1]. */
  function NormalizeKeyword(s: seq<real>): (r: seq<real>)
    requires |s| > 0
    ensures |r| == |s|
    ensures MaxOf(s) == MinOf(s) ==> forall i :: 0 <= i < |r| ==> r[i] == 0.5
    ensures forall i :: 0 <= i < |r| ==> 0.0 <= r[i] <= 1.0
  {
    NormalizeProperties(s, 0.5);
    MinMaxNormalize(s, 0.5)
  }

  function Min(a: nat, b: nat): nat { if a <= b then a else b }

  /** The weighted sum of a vector score and a BM25 score. */
  function Blend(alpha: real, x: real, y: real): real
  {
    alpha * x + (1.0 - alpha) * y
  }

  /** The fused pairs before sorting, as zip and enumerate produce them. */
  function FusedScores(alpha: real, v: seq<real>, b: seq<real>): (r: seq<Ranked>)
    ensures |r| == Min(|v|, |b|)
    ensures forall i :: 0 <= i < |r| ==> r[i] == Ranked(i, Blend(alpha, v[i], b[i]))
  {
    seq(Min(|v|, |b|), i requires 0 <= i < Min(|v|, |b|) => Ranked(i, Blend(alpha, v[i], b[i])))
  }

  /** Python's stable sort by score with reverse=True, as insertion sort:
      an element goes before the first element whose score it equals or
      exceeds, so of two equal scores the earlier one stays first. */
  function Insert(x: Ranked, s: seq<Ranked>): (r: seq<Ranked>)
    ensures multiset(r) == multiset(s) + multiset{x}
  {
    if s == [] then [x]
    else if x.score >= s[0].score then [x] + s
    else
      assert s == [s[0]] + s[1..];
      [s[0]] + Insert(x, s[1..])
  }

  /** Sorting only reorders: the result is a permutation of the input. */
  function SortByScore(s: seq<Ranked>): (r: seq<Ranked>)
    ensures multiset(r) == multiset(s)
  {
    if s == [] then []
    else
      assert s == [s[0]] + s[1..];
      Insert(s[0], SortByScore(s[1..]))
  }

  /** The document indices a ranking mentions. */
  function IndexSet(r: seq<Ranked>): set<nat>
  {
    set e | e in r :: e.index
  }

  /** Non-increasing scores, ties in increasing index order. */
  ghost predicate RankedOrder(r: seq<Ranked>)
  {
    forall i, j :: 0 <= i < j < |r| ==>
      r[i].score > r[j].score || (r[i].score == r[j].score && r[i].index < r[j].index)
  }

  ghost predicate NonIncreasing(r: seq<Ranked>)
  {
    forall i, j :: 0 <= i < j < |r| ==> r[i].score >= r[j].score
  }

  lemma {:induction false} InsertNonIncreasing(x: Ranked, s: seq<Ranked>)
    requires NonIncreasing(s)
    ensures NonIncreasing(Insert(x, s))
  {
    if s != [] && x.score < s[0].score {
      InsertNonIncreasing(x, s[1..]);
      var t := Insert(x, s[1..]);
      forall k | 0 <= k < |t| ensures s[0].score >= t[k].score {
        assert t[k] in multiset(t);
        assert t[k] == x || t[k] in s[1..];
      }
    }
  }

  /** The sort is descending by score, whatever the input. */
  lemma {:induction false} SortNonIncreasing(s: seq<Ranked>)
    ensures NonIncreasing(SortByScore(s))
  {
    if s != [] {
      SortNonIncreasing(s[1..]);
      InsertNonIncreasing(s[0], SortByScore(s[1..]));
    }
  }

  /** An entry ranked before every entry of a ranked list heads it. */
  lemma RankedCons(a: Ranked, r: seq<Ranked>)
    requires RankedOrder(r)
    requires forall k :: 0 <= k < |r| ==> a.score > r[k].score || (a.score == r[k].score && a.index < r[k].index)
    ensures RankedOrder([a] + r)
  {
    var c := [a] + r;
    forall i, j | 0 <= i < j < |c|
      ensures c[i].score > c[j].score || (c[i].score == c[j].score && c[i].index < c[j].index)
    {
      assert c[j] == r[j - 1];
      if i > 0 {
        assert c[i] == r[i - 1];
      }
    }
  }

  lemma {:induction false} InsertRankedOrder(x: Ranked, s: seq<Ranked>)
    requires RankedOrder(s)
    requires forall e :: e in s ==> x.index < e.index
    ensures RankedOrder(Insert(x, s))
  {
    if s == [] {
      assert Insert(x, s) == [x];
    } else if x.score >= s[0].score {
      forall k | 0 <= k < |s| ensures x.score > s[k].score || (x.score == s[k].score && x.index < s[k].index) {
        assert s[k] in s;
        assert k > 0 ==> s[0].score >= s[k].score;
      }
      RankedCons(x, s);
    } else {
      InsertRankedOrder(x, s[1..]);
      var t := Insert(x, s[1..]);
      forall k | 0 <= k < |t|
        ensures s[0].score > t[k].score || (s[0].score == t[k].score && s[0].index < t[k].index)
      {
        assert t[k] in multiset(t);
        if t[k] != x {
          assert t[k] in s[1..];
          var m :| 0 <= m < |s[1..]| && s[1..][m] == t[k];
          assert s[m + 1] == t[k];
        }
      }
      RankedCons(s[0], t);
    }
  }

  /** Stability: when the input's indices increase, equal scores come out
      in increasing index order. */
  lemma {:induction false} SortRankedOrder(s: seq<Ranked>)
    requires forall i, j :: 0 <= i < j < |s| ==> s[i].index < s[j].index
    ensures RankedOrder(SortByScore(s))
  {
    if s != [] {
      SortRankedOrder(s[1..]);
      forall e | e in SortByScore(s[1..]) ensures s[0].index < e.index {
        assert e in multiset(SortByScore(s[1..]));
        var m :| 0 <= m < |s[1..]| && s[1..][m] == e;
        assert s[m + 1] == e;
      }
      InsertRankedOrder(s[0], SortByScore(s[1..]));
    }
  }

  /** The ranking fuse_results returns for non-empty vector and BM25 score
      lists: the fused pairs of the two normalised lists, reordered. */
  function Fuse(alpha: real, vectorScores: seq<real>, keywordScores: seq<real>): (r: seq<Ranked>)
    requires |vectorScores| > 0 && |keywordScores| > 0
    ensures multiset(r)
         == multiset(FusedScores(alpha, NormalizeVector(vectorScores), NormalizeKeyword(keywordScores)))
    ensures |r| == Min(|vectorScores|, |keywordScores|)
  {
    var w := FusedScores(alpha, NormalizeVector(vectorScores), NormalizeKeyword(keywordScores));
    var r := SortByScore(w);
    assert |r| == |w| by {
      assert |multiset(r)| == |multiset(w)|;
    }
    r
  }

  /** Sorting a list whose entry k carries index k: the result holds each
      index below the length exactly once, each with its own entry, in
      ranking order. */
  lemma SortEnumerated(w: seq<Ranked>)
    requires forall k :: 0 <= k < |w| ==> w[k].index == k
    ensures var r := SortByScore(w);
            && |r| == |w|
            && (forall i :: 0 <= i < |r| ==> r[i].index < |w| && r[i] == w[r[i].index])
            && (forall k :: 0 <= k < |w| ==> k in IndexSet(r))
            && (forall i, j :: 0 <= i < j < |r| ==> r[i].index != r[j].index)
            && RankedOrder(r)
  {
    var r := SortByScore(w);
    SortRankedOrder(w);
    assert |r| == |w| by {
      assert |multiset(r)| == |multiset(w)|;
    }
    forall i | 0 <= i < |r|
      ensures r[i].index < |w| && r[i] == w[r[i].index]
    {
      assert r[i] in multiset(w);
    }
    forall k | 0 <= k < |w| ensures k in IndexSet(r) {
      assert w[k] in multiset(r);
    }
  }

  /** The fused ranking: with n the shorter length, its indices are a
      permutation of 0..n-1; each entry carries alpha times the normalised
      vector score plus (1 - alpha) times the normalised BM25 score of its
      document; scores do not increase along the list and equal scores keep
      index order; and every score lies in [0, 1] when alpha does. */
  lemma FuseRanking(alpha: real, vectorScores: seq<real>, keywordScores: seq<real>)
    requires |vectorScores| > 0 && |keywordScores| > 0
    ensures var n := Min(|vectorScores|, |keywordScores|);
            var v := NormalizeVector(vectorScores);
            var b := NormalizeKeyword(keywordScores);
            var r := Fuse(alpha, vectorScores, keywordScores);
            && |r| == n
            && (forall i :: 0 <= i < n ==>
                  r[i].index < n && r[i].score == Blend(alpha, v[r[i].index], b[r[i].index]))
            && (forall k :: 0 <= k < n ==> k in IndexSet(r))
            && (forall i, j :: 0 <= i < j < n ==> r[i].index != r[j].index)
            && RankedOrder(r)
            && (0.0 <= alpha <= 1.0 ==> forall i :: 0 <= i < n ==> 0.0 <= r[i].score <= 1.0)
  {
    var n := Min(|vectorScores|, |keywordScores|);
    var v := NormalizeVector(vectorScores);
    var b := NormalizeKeyword(keywordScores);
    var w := FusedScores(alpha, v, b);
    var r := Fuse(alpha, vectorScores, keywordScores);
    assert r == SortByScore(w);
    SortEnumerated(w);
    forall i | 0 <= i < n
      ensures r[i].index < n && r[i].score == Blend(alpha, v[r[i].index], b[r[i].index])
    {
      assert r[i] == w[r[i].index];
    }
    if 0.0 <= alpha <= 1.0 {
      forall i | 0 <= i < n ensures 0.0 <= r[i].score <= 1.0 {
        FusedScoreBounds(alpha, vectorScores, keywordScores, r[i].index);
      }
    }
  }

  /** Each fused score lies in [0, 1] when alpha does. */
  lemma FusedScoreBounds(alpha: real, vectorScores: seq<real>, keywordScores: seq<real>, k: nat)
    requires 0.0 <= alpha <= 1.0
    requires k < |vectorScores| && k < |keywordScores|
    ensures var v := NormalizeVector(vectorScores);
            var b := NormalizeKeyword(keywordScores);
            0.0 <= Blend(alpha, v[k], b[k]) <= 1.0
  {
    var x := NormalizeVector(vectorScores)[k];
    var y := NormalizeKeyword(keywordScores)[k];
    NormalizeAt(vectorScores, 1.0, k);
    NormalizeAt(keywordScores, 0.5, k);
    assert 0.0 <= x <= 1.0 && 0.0 <= y <= 1.0;
    ConvexInUnit(alpha, x, y);
  }

  /** A convex combination of two values in [0, 1] lies in [0, 1]. */
  lemma ConvexInUnit(alpha: real, x: real, y: real)
    requires 0.0 <= alpha <= 1.0 && 0.0 <= x <= 1.0 && 0.0 <= y <= 1.0
    ensures 0.0 <= Blend(alpha, x, y) <= 1.0
  {
    MulNonNegative(alpha, x);
    MulNonNegative(alpha, 1.0 - x);
    MulNonNegative(1.0 - alpha, y);
    MulNonNegative(1.0 - alpha, 1.0 - y);
  }

  /** The enumerate/zip loop of fuse_results: one (index, fused score) pair
      per position of the shorter list, appended in index order. */
  method FuseLoop(alpha: real, v: seq<real>, b: seq<real>) returns (fused: seq<Ranked>)
    ensures fused == FusedScores(alpha, v, b)
  {
    var n := Min(|v|, |b|);
    fused := [];
    var i := 0;
    while i < n
      invariant 0 <= i <= n
      invariant fused == FusedScores(alpha, v, b)[..i]
    {
      fused := fused + [Ranked(i, Blend(alpha, v[i], b[i]))];
      i := i + 1;
    }
  }

  class FusionRetriever {
    const alpha: real
    const indexer: Bm25.BM25Indexer

    /** `alpha` is the vector weight, fixed for the retriever's lifetime;
        the retriever owns a fresh, empty BM25 indexer. */
    constructor (nlp: string -> seq<Tokenizer.Token>, okapi: Bm25.Okapi, alpha: real := DefaultAlpha)
      ensures this.alpha == alpha && fresh(indexer)
      ensures indexer.index == None && indexer.documents == []
      ensures indexer.nlp == nlp && indexer.okapi == okapi
    {
      this.alpha := alpha;
      indexer := new Bm25.BM25Indexer(nlp, okapi);
    }

    /** Whether the BM25 library builds an index over these documents. */
    predicate Accepts(documents: seq<string>)
      reads this
    {
      indexer.okapi.accepts(Bm25.TokenizeAll(documents, indexer.nlp))
    }

    /** fuse_results. No documents: an empty ranking and no index built.
        An empty vector score list raises before the index is touched. A
        failing index build is re-raised. Otherwise the indexer holds the
        documents and their index, and the result is the fused ranking of
        the vector scores and the query's BM25 scores. */
    method FuseResults(documents: seq<string>, vectorScores: seq<real>, query: string)
      returns (r: Result<seq<Ranked>, FuseError>)
      modifies indexer
      ensures documents == [] ==> r == Ok([]) && unchanged(indexer)
      ensures documents != [] && vectorScores == [] ==> r == Err(EmptyVectorScores) && unchanged(indexer)
      ensures documents != [] && vectorScores != [] ==>
                indexer.documents == documents
      ensures documents != [] && vectorScores != [] && !Accepts(documents) ==>
                r == Err(IndexBuildFailed) && indexer.index == old(indexer.index)
      ensures documents != [] && vectorScores != [] && Accepts(documents) ==>
                && indexer.index == Some(Bm25.TokenizeAll(documents, indexer.nlp))
                && r == Ok(Fuse(alpha, vectorScores, Bm25.KeywordScores(indexer.nlp, indexer.okapi, documents, query)))
    {
      if documents == [] {
        return Ok([]);
      }
      if vectorScores == [] {
        return Err(EmptyVectorScores);
      }
      var vectorNormalized := NormalizeVector(vectorScores);
      var built := indexer.BuildIndex(documents);
      if !built {
        return Err(IndexBuildFailed);
      }
      var bm25Scores := indexer.GetScores(query);
      assert bm25Scores == Bm25.KeywordScores(indexer.nlp, indexer.okapi, documents, query);
      var bm25Normalized := NormalizeKeyword(bm25Scores);
      var fused := FuseLoop(alpha, vectorNormalized, bm25Normalized);
      r := Ok(SortByScore(fused));
    }
  }
}
