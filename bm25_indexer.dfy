/** BM25Indexer: a keyword index over one candidate document set. The
    rank_bm25 library is the parameter `okapi`; the spaCy pipeline used by
    tokenize is the parameter `nlp`. */
module Bm25 {
  import opened Wrappers
  import opened Seqs
  import Tokenizer

  /** rank_bm25's BM25Okapi. `accepts(corpus)` is false when its
      constructor raises on that tokenized corpus (the source warns that an
      all-empty corpus divides by zero); `score(corpus, query, i)` is the
      Okapi score of document i for the query tokens. */
  datatype Okapi = Okapi(
    accepts: seq<seq<string>> -> bool,
    score: (seq<seq<string>>, seq<string>, nat) -> real)

  function TokenizeAll(docs: seq<string>, nlp: string -> seq<Tokenizer.Token>): seq<seq<string>>
  {
    Map(docs, d => Tokenizer.Tokenize(d, nlp))
  }

  /** `[0.0] * n`. */
  function Zeros(n: nat): (r: seq<real>)
    ensures |r| == n && forall i :: 0 <= i < n ==> r[i] == 0.0
  {
    seq(n, _ => 0.0)
  }

  /** BM25Okapi.get_scores: one score per indexed document, in corpus order. */
  function OkapiScores(okapi: Okapi, corpus: seq<seq<string>>, query: seq<string>): (r: seq<real>)
    ensures |r| == |corpus|
    ensures forall i :: 0 <= i < |corpus| ==> r[i] == okapi.score(corpus, query, i)
  {
    seq(|corpus|, i requires 0 <= i < |corpus| => okapi.score(corpus, query, i))
  }

  /** The scores of `query` against an index freshly built over `docs`. */
  function KeywordScores(nlp: string -> seq<Tokenizer.Token>, okapi: Okapi, docs: seq<string>, query: string): (r: seq<real>)
    ensures |r| == |docs|
    ensures Tokenizer.Tokenize(query, nlp) == [] ==> r == Zeros(|docs|)
  {
    var q := Tokenizer.Tokenize(query, nlp);
    if q == [] then Zeros(|docs|) else OkapiScores(okapi, TokenizeAll(docs, nlp), q)
  }

  class BM25Indexer {
    const nlp: string -> seq<Tokenizer.Token>
    const okapi: Okapi
    /** None when no index was built; otherwise the tokenized corpus the
        BM25Okapi index was built over. */
    var index: Option<seq<seq<string>>>
    var documents: seq<string>

    /** The index, when there is one, covers exactly `documents`. */
    predicate Consistent()
      reads this
    {
      index.Some? ==> |index.value| == |documents|
    }

    constructor (nlp: string -> seq<Tokenizer.Token>, okapi: Okapi)
      ensures index == None && documents == []
      ensures this.nlp == nlp && this.okapi == okapi
    {
      this.nlp := nlp;
      this.okapi := okapi;
      index := None;
      documents := [];
    }

    /** build_index. An empty list changes nothing. Otherwise `documents` is
        set first and the index is built over the tokenized documents; `ok`
        is false when the BM25Okapi constructor raises, which leaves the
        old index in place beside the new documents. */
    method BuildIndex(docs: seq<string>) returns (ok: bool)
      modifies this
      ensures docs == [] ==> ok && index == old(index) && documents == old(documents)
      ensures docs != [] ==> documents == docs && ok == okapi.accepts(TokenizeAll(docs, nlp))
      ensures docs != [] && ok ==> index == Some(TokenizeAll(docs, nlp))
      ensures !ok ==> index == old(index)
      ensures ok && old(Consistent()) ==> Consistent()
    {
      if docs == [] {
        return true;
      }
      documents := docs;
      var tokenizedDocs := TokenizeAll(docs, nlp);
      ok := okapi.accepts(tokenizedDocs);
      if ok {
        index := Some(tokenizedDocs);
      }
    }

    /** get_scores: zeros, one per document, when no index is built or the
        query has no tokens; otherwise the index's Okapi scores, one per
        indexed document in order. Reads the indexer and changes nothing. */
    method GetScores(query: string) returns (scores: seq<real>)
      ensures index.None? ==> scores == Zeros(|documents|)
      ensures index.Some? && Tokenizer.Tokenize(query, nlp) == [] ==> scores == Zeros(|documents|)
      ensures index.Some? && Tokenizer.Tokenize(query, nlp) != [] ==>
                scores == OkapiScores(okapi, index.value, Tokenizer.Tokenize(query, nlp))
      ensures Consistent() ==> |scores| == |documents|
    {
      if index.None? {
        return Zeros(|documents|);
      }
      var queryTokens := Tokenizer.Tokenize(query, nlp);
      if queryTokens == [] {
        return Zeros(|documents|);
      }
      scores := OkapiScores(okapi, index.value, queryTokens);
    }
  }
}
