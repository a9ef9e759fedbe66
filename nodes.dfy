/** The graph's node functions and decision rules. The LLM judges, the
    generator, the retriever and the web search are parameters: each is
    any function of its inputs, so everything proved holds whatever they
    answer. */
module Nodes {
  import opened Wrappers
  import opened Seqs
  import opened State

  /** Fewer relevant documents than this make the grading node ask for a web search. */
  const RelevanceThreshold: int := 2
  /** decide_to_generate allows a web search only below this many retrieval attempts. */
  const MaxRetrievalAttempts: int := 2
  /** grade_generation_quality accepts any answer from this many generation attempts on. */
  const MaxGenerationAttempts: int := 3
  const ContextSeparator: string := "\n\n"

  /** router_node: route to web search iff the router answers exactly "websearch". */
  function RouterNode(s: AgentState, routeQuestion: string -> string): (u: Update)
    ensures u.webSearch == Some(routeQuestion(s.question) == "websearch")
    ensures u.(webSearch := None) == NoUpdate
  {
    if routeQuestion(s.question) == "websearch" then NoUpdate.(webSearch := Some(true))
    else NoUpdate.(webSearch := Some(false))
  }

  /** retrieve_node: the retriever's documents for the question, to be appended. */
  function RetrieveNode(s: AgentState, retriever: string -> seq<string>): (u: Update)
    ensures u.documents == Some(retriever(s.question))
    ensures u.(documents := None) == NoUpdate
  {
    NoUpdate.(documents := Some(retriever(s.question)))
  }

  /** web_search_node: `search` answers None when the search tool raises;
      the node then contributes no document instead of failing. */
  function WebSearchNode(s: AgentState, search: string -> Option<string>): (u: Update)
    ensures u.documents.Some? && |u.documents.value| <= 1
    ensures u.documents.value == [] <==> search(s.question).None?
    ensures search(s.question).Some? ==> u.documents.value == [search(s.question).value]
    ensures u.(documents := None) == NoUpdate
  {
    match search(s.question)
    case None => NoUpdate.(documents := Some([]))
    case Some(result) => NoUpdate.(documents := Some([result]))
  }

  /** The documents the relevance judge grades exactly "yes", in order:
      every copy of a relevant document is kept and no copy of another. */
  function RelevantDocuments(docs: seq<string>, question: string, grade: (string, string) -> string): (r: seq<string>)
    ensures forall d :: Count(r, d) == if grade(question, d) == "yes" then Count(docs, d) else 0
  {
    var keep := d => grade(question, d) == "yes";
    var r := Filter(docs, keep);
    assert forall d :: Count(r, d) == if keep(d) then Count(docs, d) else 0 by {
      forall d ensures Count(r, d) == if keep(d) then Count(docs, d) else 0 {
        FilterCount(docs, keep, d);
      }
    }
    r
  }

  /** grade_documents_node: keep the documents graded relevant, ask for a
      web search iff fewer than two were kept, count one retrieval attempt. */
  method GradeDocumentsNode(s: AgentState, grade: (string, string) -> string) returns (u: Update)
    ensures u.documents == Some(RelevantDocuments(s.documents, s.question, grade))
    ensures u.webSearch == Some(|RelevantDocuments(s.documents, s.question, grade)| < RelevanceThreshold)
    ensures u.retrievalAttempts == Some(RetrievalAttempts(s) + 1)
    ensures u.question.None? && u.generation.None? && u.generationAttempts.None?
  {
    var documents := s.documents;
    var filtered: seq<string> := [];
    var i := 0;
    while i < |documents|
      invariant 0 <= i <= |documents|
      invariant filtered == RelevantDocuments(documents[..i], s.question, grade)
    {
      assert documents[..i + 1][..i] == documents[..i];
      if grade(s.question, documents[i]) == "yes" {
        filtered := filtered + [documents[i]];
      }
      i := i + 1;
    }
    assert documents[..i] == documents;
    var webSearchNeeded := |filtered| < RelevanceThreshold;
    var attempts := RetrievalAttempts(s);
    u := NoUpdate.(documents := Some(filtered), webSearch := Some(webSearchNeeded),
                   retrievalAttempts := Some(attempts + 1));
  }

  /** Grading keeps exactly the documents judged relevant, in their
      original order: a subsequence holding every "yes" document and no other. */
  lemma RelevantDocumentsExact(docs: seq<string>, question: string, grade: (string, string) -> string)
    ensures IsSubsequence(RelevantDocuments(docs, question, grade), docs)
    ensures forall d :: d in RelevantDocuments(docs, question, grade) <==> d in docs && grade(question, d) == "yes"
  {
    var keep := d => grade(question, d) == "yes";
    FilterIsSubsequence(docs, keep);
    forall d | d in docs && grade(question, d) == "yes"
      ensures d in RelevantDocuments(docs, question, grade)
    {
      var i :| 0 <= i < |docs| && docs[i] == d;
      FilterKeepsAccepted(docs, keep, i);
    }
  }

  /** With a judge that always answers "yes" nothing is dropped, and
      grading an already graded list again changes nothing. */
  lemma RelevantDocumentsStable(docs: seq<string>, question: string, grade: (string, string) -> string)
    ensures (forall d :: grade(question, d) == "yes") ==> RelevantDocuments(docs, question, grade) == docs
    ensures RelevantDocuments(RelevantDocuments(docs, question, grade), question, grade)
         == RelevantDocuments(docs, question, grade)
  {
    var keep := d => grade(question, d) == "yes";
    if forall d :: grade(question, d) == "yes" {
      FilterAllAccepted(docs, keep);
    }
    FilterIdempotent(docs, keep);
  }

  /** Merging the grading node's output appends the relevant documents
      after the ungraded ones: a document graded "no" stays in the state,
      and a relevant one is then held at least twice. Grading the merged
      list again with the same judge therefore keeps the relevant documents
      twice over. */
  lemma GradedDocumentsAppended(s: AgentState, u: Update, grade: (string, string) -> string, d: string)
    requires u.documents == Some(RelevantDocuments(s.documents, s.question, grade))
    ensures Apply(s, u).documents == s.documents + RelevantDocuments(s.documents, s.question, grade)
    ensures d in s.documents ==> d in Apply(s, u).documents
    ensures d in s.documents && grade(s.question, d) == "yes" ==> Count(Apply(s, u).documents, d) >= 2
    ensures RelevantDocuments(Apply(s, u).documents, s.question, grade)
         == RelevantDocuments(s.documents, s.question, grade) + RelevantDocuments(s.documents, s.question, grade)
  {
    var relevant := RelevantDocuments(s.documents, s.question, grade);
    var r := Apply(s, u).documents;
    assert r == s.documents + relevant by {
      assert r == r[..|s.documents|] + r[|s.documents|..];
    }
    var keep := d => grade(s.question, d) == "yes";
    FilterAppend(s.documents, relevant, keep);
    FilterIdempotent(s.documents, keep);
    if d in s.documents && grade(s.question, d) == "yes" {
      RelevantDocumentsExact(s.documents, s.question, grade);
      CountAppend(s.documents, relevant, d);
      CountPositive(s.documents, d);
      CountPositive(relevant, d);
    }
  }

  /** The generator's context: the documents joined with a blank line; its
      length is the documents' total length plus 2 per gap. */
  function Context(docs: seq<string>): (r: string)
    ensures docs != [] ==> |r| == SumLengths(docs) + 2 * (|docs| - 1)
  {
    var r := Join(docs, ContextSeparator);
    if docs == [] then r else JoinLength(docs, ContextSeparator); r
  }

  /** Document `i` appears in the context at offset
      Offset(docs, ContextSeparator, i), and exactly "\n\n" lies between
      it and the next document. */
  lemma ContextLayout(docs: seq<string>, i: nat)
    requires i < |docs|
    ensures var at := Offset(docs, ContextSeparator, i);
            at + |docs[i]| <= |Context(docs)| && Context(docs)[at..at + |docs[i]|] == docs[i]
    ensures i + 1 < |docs| ==>
              var end := Offset(docs, ContextSeparator, i) + |docs[i]|;
              end + 2 <= |Context(docs)| && Context(docs)[end..end + 2] == "\n\n"
  {
    JoinPartAt(docs, ContextSeparator, i);
    if i + 1 < |docs| {
      JoinSepAt(docs, ContextSeparator, i);
    }
  }

  /** Because documents are only ever appended, the context built from an
      earlier document list is a prefix of the one built from a later list. */
  lemma ContextExtends(docs: seq<string>, more: seq<string>)
    ensures Context(docs) <= Context(docs + more)
  {
    JoinPrefix(docs, more, ContextSeparator);
  }

  /** generate_node: the generator's answer for the question and the joined
      documents, and one more generation attempt. */
  function GenerateNode(s: AgentState, llm: (string, string) -> string): (u: Update)
    ensures u.generation == Some(llm(s.question, Context(s.documents)))
    ensures u.generationAttempts == Some(GenerationAttempts(s) + 1)
    ensures u.(generation := None, generationAttempts := None) == NoUpdate
  {
    var context := Context(s.documents);
    NoUpdate.(generation := Some(llm(s.question, context)),
              generationAttempts := Some(GenerationAttempts(s) + 1))
  }

  /** rewrite_query_node: the only node function that writes the question;
      it is not added to the graph. */
  function RewriteQueryNode(s: AgentState, rewrite: string -> string): (u: Update)
    ensures u.question == Some(rewrite(s.question))
    ensures u.(question := None) == NoUpdate
  {
    NoUpdate.(question := Some(rewrite(s.question)))
  }

  /** decide_to_generate: a web search only while one is wanted and fewer
      than two retrieval attempts were made; absent keys read as False and 0. */
  function DecideToGenerate(s: AgentState): (r: string)
    ensures r == "websearch" <==> WebSearch(s) && RetrievalAttempts(s) < MaxRetrievalAttempts
    ensures r == "generate" <==> !(WebSearch(s) && RetrievalAttempts(s) < MaxRetrievalAttempts)
  {
    var webSearch := WebSearch(s);
    var attempts := RetrievalAttempts(s);
    if webSearch && attempts < MaxRetrievalAttempts then "websearch" else "generate"
  }

  /** grade_generation_grounded: "useful" iff the hallucination judge says "yes". */
  function GradeGenerationGrounded(s: AgentState, checkHallucination: (seq<string>, string) -> string): (r: string)
    ensures r == "useful" <==> checkHallucination(s.documents, Generation(s)) == "yes"
    ensures r == "not useful" <==> checkHallucination(s.documents, Generation(s)) != "yes"
  {
    if checkHallucination(s.documents, Generation(s)) == "yes" then "useful" else "not useful"
  }

  /** grade_generation_quality: from the third generation attempt on the
      answer is accepted whatever the judge would say; before that it is
      "useful" iff the quality judge says "yes". */
  function GradeGenerationQuality(s: AgentState, gradeQuality: (string, string) -> string): (r: string)
    ensures r == "useful" || r == "not useful"
    ensures GenerationAttempts(s) >= MaxGenerationAttempts ==> r == "useful"
    ensures GenerationAttempts(s) < MaxGenerationAttempts ==>
              (r == "useful" <==> gradeQuality(s.question, Generation(s)) == "yes")
  {
    if GenerationAttempts(s) >= MaxGenerationAttempts then "useful"
    else if gradeQuality(s.question, Generation(s)) == "yes" then "useful"
    else "not useful"
  }

  /** grade_generation_grounded_node and grade_answer_quality_node are named
      by the graph but not defined in nodes.py. Assumption: whatever they
      return, they write neither the question, the documents nor the
      attempt counters. */
  function UndefinedCheckNode(raw: Update): (u: Update)
    ensures u.question.None? && u.documents.None?
    ensures u.retrievalAttempts.None? && u.generationAttempts.None?
    ensures u.generation == raw.generation && u.webSearch == raw.webSearch
  {
    raw.(question := None, documents := None, retrievalAttempts := None, generationAttempts := None)
  }
}
