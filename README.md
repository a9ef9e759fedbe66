# Document research agent: control flow, hybrid ranking and evaluation metrics

This project is a Dafny model of three parts of a retrieval-augmented question-answering agent.

**The agent's control flow.** A LangGraph state machine routes a question to the vector store or to web search. It grades the retrieved documents and may fall back to web search. It then generates an answer, checks it and may regenerate. The model covers:
- the shared state record and its merge rule (module `State`);
- the node functions, with the language model, judges, retriever and search tool as oracle parameters (module `Nodes`);
- the graph builder, the compiled graph and a run loop over it (module `AgentGraph`).

The headline theorem is `AgentGraph.AgentRun.Invoke`. It starts from the input the query handler builds. For every sequence of judge, generator and search answers (each oracle returning an answer), the run reaches END after at most 14 node steps, with one or two retrieval attempts and one to three generation attempts. The recorded trace and node outputs are a run of the wired graph under those oracles (`AgentGraph.IsRun`): each output is its node's function on the state merged so far, and each next node is the one the graph's edges choose. Such a run is unique (`AgentGraph.IsRunUnique`).

**Hybrid ranking.** The model covers the spaCy-based tokenizer (`Tokenizer`), a stateful BM25 indexer (`Bm25`) and the fusion retriever (`Fusion`). The fusion retriever min-max normalises vector and BM25 scores, mixes them with weight alpha, and sorts the result stably in descending order.

**Evaluation.** The model covers the per-query evaluation record and the tracker that counts passes and sums totals (`Metrics`).

Generic sequence helpers live in `Seqs`: order-preserving filter, subsequence, occurrence count and join. `Wrappers` holds `Option` and `Result`.

Modelling conventions:
- **Oracles.** Each external capability is a function-valued parameter. This covers the router, relevance, hallucination and quality judges, the generator, the retriever, the web search tool, spaCy's `nlp` and the BM25 library. In a graph run each oracle also receives the step number, so repeated calls may answer differently.
- **Scores.** Floating-point scores are reals.
- **Python's sort.** `list.sort(key=..., reverse=True)` is modelled as a stable descending insertion sort (every stable sort yields the same list).
- **Raising calls.** Three raising paths are modelled: the web search tool (its oracle answers None, and the node writes no document), `np.min` on an empty vector score list (an error value), and the BM25Okapi constructor (a parameter that says whether it accepts a corpus; a refusal is reported as an error). The other oracles are total.

## Model

| member | source | states |
|---|---|---|
| State.InitialState | src/api/handlers/query.py:21-29 | The handler's input has the question, no documents, an empty generation, web search off and both attempt counters at 0 |
| State.Apply | src/core/state.py:5-11 | Merging a node output appends written documents after the existing ones (the old list is a prefix and the new tail is exactly what was written); `question` and every other field take the written value if any, else keep the old one |
| State.ApplyAllDocuments | src/core/state.py:9 | Over any sequence of node outputs, the final documents are the initial documents followed by everything written, in order |
| State.DocumentsOnlyGrow | src/core/state.py:9 | The document list after any prefix of a run is a prefix of the list after the whole run |
| State.RunDocuments | src/core/state.py:9 | Over one run, the final documents are the initial ones followed by everything written, and the documents after any prefix of the run are a prefix of the final ones |
| State.WrittenPrefix | src/core/state.py:9 | The documents written by a prefix of the outputs are a prefix of those written by all of them |
| State.ApplyAllLatest | src/core/state.py:7-11 | Fields without a reducer, and `question`, hold the latest value written during the run, or their initial value if never written |
| Nodes.RouterNode | src/core/nodes.py:41-52 | Writes only `web_search`, true exactly when the router answers "websearch" |
| Nodes.RetrieveNode | src/core/nodes.py:55-69 | Writes only `documents`: the retriever's documents for the question |
| Nodes.WebSearchNode | src/core/nodes.py:72-86 | Writes only `documents`: at most one document, none exactly when the search raises, otherwise the search result |
| Nodes.GradeDocumentsNode | src/core/nodes.py:89-116 | The loop returns the documents graded "yes" in order; `web_search` is true iff fewer than 2 were kept; `retrieval_attempts` is the previous value (default 0) plus 1; nothing else is written |
| Nodes.RelevantDocumentsExact | src/core/nodes.py:95-103 | The graded documents are a subsequence of the input, and a document is kept iff it is in the input and graded "yes" |
| Nodes.RelevantDocumentsStable | src/core/nodes.py:95-103 | With an always-"yes" judge the documents come back unchanged; grading the graded list again changes nothing |
| Nodes.RelevantDocuments | src/core/nodes.py:95-103 | Each document occurs in the graded list exactly as often as in the input when the judge says "yes" for it, and never otherwise |
| Nodes.GradedDocumentsAppended | src/core/nodes.py:112-116 | After merging the grading output, the state holds the ungraded documents followed by the relevant ones; a document graded "no" stays, and a relevant one is held at least twice; grading the merged list again yields the relevant documents twice over |
| Nodes.Context | src/core/nodes.py:126 | The context of a non-empty document list is as long as the documents together plus 2 characters per gap |
| Nodes.ContextLayout | src/core/nodes.py:126 | Each document appears in the context at its offset (the lengths of the documents before it plus 2 per gap), and exactly "\n\n" lies between consecutive documents |
| Nodes.ContextExtends | src/core/nodes.py:126 | Appending documents only extends the context: the old context is a prefix of the new one |
| Nodes.GenerateNode | src/core/nodes.py:119-141 | Writes the generator's answer for the question and the joined documents, and `generation_attempts` = previous (default 0) + 1; nothing else |
| Nodes.RewriteQueryNode | src/core/nodes.py:144-151 | The only node function that writes `question`; it writes nothing else and is not part of the graph |
| Nodes.DecideToGenerate | src/core/nodes.py:154-165 | "websearch" iff `web_search` (default False) holds and `retrieval_attempts` (default 0) < 2; "generate" iff not |
| Nodes.GradeGenerationGrounded | src/core/nodes.py:168-181 | "useful" iff the hallucination judge says exactly "yes", "not useful" iff it does not |
| Nodes.GradeGenerationQuality | src/core/nodes.py:184-203 | Always "useful" or "not useful"; "useful" once `generation_attempts` >= 3, whatever the judge says; below that, "useful" iff the quality judge says "yes" |
| Nodes.UndefinedCheckNode | src/core/agent.py:28-29 | The two check nodes the graph registers write neither the question, the documents nor the attempt counters |
| AgentGraph.Evaluate | src/core/agent.py:33-64 | Each routing function returns one of the labels its edge map covers |
| AgentGraph.Next | src/core/agent.py:33-64 | On a well-formed graph, the target after a node is one of its successors and is in the graph or END |
| AgentGraph.StateGraph.constructor | src/core/agent.py:21 | A new builder has no nodes, no entry point and no edges |
| AgentGraph.StateGraph.AddNode | src/core/agent.py:23-29 | Registering a node adds it to the node set and changes nothing else |
| AgentGraph.StateGraph.SetEntryPoint | src/core/agent.py:31 | Sets the entry point and changes nothing else |
| AgentGraph.StateGraph.AddEdge | src/core/agent.py:42-43 | Sets the one unconditional edge out of the node and changes nothing else |
| AgentGraph.StateGraph.AddConditionalEdges | src/core/agent.py:33-40 | Sets the one branch (routing function and label map) out of the node and changes nothing else |
| AgentGraph.StateGraph.Compile | src/core/agent.py:66 | In this reduced builder, compiling fails exactly when no entry point was set; otherwise the graph holds the registered nodes, entry and edges. LangGraph's compile also rejects edges to unregistered nodes, which this builder cannot express because nodes are an enumeration |
| AgentGraph.AgentGraph | src/core/agent.py:21-64 | The wired graph is entered at the router, which is one of its nodes |
| AgentGraph.AgentGraphWellFormed | src/core/agent.py:21-64 | The wired graph is well formed: every node has either one edge or one branch, every branch's labels are covered by its map, and every target is a node of the graph or END |
| AgentGraph.BuildGraph | src/core/agent.py:18-70 | The builder calls produce exactly the wired graph, and that graph is well formed |
| AgentGraph.AgentGraphShape | src/core/agent.py:31-64 | Entry is the router, which goes to websearch or retrieve. Both go on to grade_documents, which branches only through decide_to_generate. generate → check_hallucination → check_quality are unconditional. Only check_quality reaches END. No edge leads back to the router, and only the router leads to retrieve |
| AgentGraph.NodeOutput | src/core/agent.py:23-29 | A node's output never writes `question`; only grade_documents writes `retrieval_attempts` (previous + 1) and only generate writes `generation_attempts` (previous + 1) |
| AgentGraph.ExecuteNode | src/core/agent.py:23-29 | Running a node returns its output as NodeOutput defines it, that is, its node function on that step's oracle answers; no node writes `question`; only grade_documents writes `retrieval_attempts` (+1) and only generate writes `generation_attempts` (+1) |
| AgentGraph.NextOnAgentGraph | src/core/agent.py:33-64 | Following the compiled graph's edges from any node equals the transition table written out node by node |
| AgentGraph.StepKeepsInvariant | src/core/agent.py:42-64 | One step from a state satisfying the run invariant reaches a state satisfying it, with a strictly smaller remaining-steps bound. The invariant: the counters count grading and generation steps, the router runs once, retrieve at most once, and steps taken plus steps left stay at most 14 |
| AgentGraph.RunInvariantAtEnd | src/core/nodes.py:160 | A run that reached END has 1-2 retrieval and 1-3 generation attempts, one router step, at most one retrieve step, and at most 14 steps ending with check_quality |
| AgentGraph.IsRunExtend | src/core/agent.py:31-64 | A run extends by one step: the node the graph's edges choose after the last node (the router at the start), with its node output on the merged state |
| AgentGraph.IsRunAgree | src/core/agent.py:31-64 | Two runs from the same state under the same oracles agree on every step both have taken |
| AgentGraph.IsRunUnique | src/core/agent.py:31-64 | The oracles decide the run: two runs of the same length from the same state are identical in nodes and outputs |
| AgentGraph.ReachedStep | src/core/agent.py:31-64 | Running the next node keeps the run bookkeeping: the merged state, the run relation, the next node chosen by the edges, the unchanged question and the growing documents |
| AgentGraph.ReachedEnd | src/core/agent.py:31-64 | A run that reached END is a run of the graph whose last node leads to END; the question was never written; the documents are the input's followed by everything written, each earlier list a prefix of the final one |
| AgentGraph.RunGraph | src/core/agent.py:18-64 | The invocation loop reaches END from zero counters, with the run invariant and a recorded run of the graph |
| AgentGraph.AgentRun.constructor | src/api/handlers/query.py:20-30 | A run starts from the handler's input state for the question, with no steps taken and no outputs recorded |
| AgentGraph.AgentRun.Invoke | src/core/agent.py:18-64 | From zero counters the run reaches END whatever answers the oracles return. It ends with 1 <= retrieval_attempts <= 2 and 1 <= generation_attempts <= 3, equal to the number of grading and generation steps. It takes at most 14 steps, runs the router once and retrieve at most once, leaves the question unchanged and only appends documents. The final state is the input merged with the executed nodes' outputs in order (so every earlier document list is a prefix of the final one and each reducer-less field holds its latest write), and no output writes the question. The trace and outputs are the run of the wired graph under the given oracles (`IsRun`: each output is NodeOutput of its node on the state merged so far, the first node is the router, each later node is the one AgentNext chooses), and the last node leads to END |
| Tokenizer.Tokenize | src/core/retrieval/tokenizer.py:24-58 | Blank text gives []; otherwise the text is lower-cased and segmented, and the result is the primary filter's lemmas when any, else the fallback's lower-cased alphabetic texts |
| Tokenizer.TokenizeEmptyIff | src/core/retrieval/tokenizer.py:40-58 | The result is empty iff the text is blank or both filters reject every token |
| Tokenizer.TokenizeSources | src/core/retrieval/tokenizer.py:40-56 | Every output token is the lemma of a token the primary filter accepts or the lower-cased text of one the fallback accepts; a non-empty result means non-blank text |
| Tokenizer.TokenizeFallbackLower | src/core/retrieval/tokenizer.py:51-56 | Fallback tokens are longer than one character and contain no upper-case ASCII letter |
| Bm25.KeywordScores | src/core/retrieval/bm25_indexer.py:59-66 | One score per document; all zeros when the query has no tokens |
| Bm25.BM25Indexer.constructor | src/core/retrieval/bm25_indexer.py:10-12 | A new indexer has no index and no documents |
| Bm25.BM25Indexer.BuildIndex | src/core/retrieval/bm25_indexer.py:14-42 | An empty list changes nothing. Otherwise the documents are stored. If the library accepts the tokenized corpus the index is built over it; if it raises, the previous index stays and the failure is reported |
| Bm25.BM25Indexer.GetScores | src/core/retrieval/bm25_indexer.py:45-66 | No index: zeros, one per stored document. A query with no tokens: zeros. Otherwise the library's score for each indexed document, in order. Changes nothing |
| Fusion.MinMaxNormalize | src/core/retrieval/fusion_retriever.py:40-52 | Same length; all scores equal gives the degenerate constant everywhere; otherwise each score is (s - min)/(max - min) |
| Fusion.NormalizeProperties | src/core/retrieval/fusion_retriever.py:44-52 | Normalised scores keep the order of the raw scores and lie in [0, 1]; when scores differ the minimum goes to 0 and the maximum to 1 |
| Fusion.NormalizeAt | src/core/retrieval/fusion_retriever.py:82-87 | One normalised score lies in [0, 1] when the constant does (1.0 for vector scores, 0.5 for BM25); min maps to 0 and max to 1 |
| Fusion.FusedScores | src/core/retrieval/fusion_retriever.py:93-96 | zip/enumerate pairs: as many as the shorter list, entry i carrying index i and alpha·v[i] + (1 - alpha)·b[i] |
| Fusion.NormalizeVector | src/core/retrieval/fusion_retriever.py:40-52 | Vector scores normalise to a list of the same length with every entry in [0, 1], all 1.0 when the scores are all equal |
| Fusion.NormalizeKeyword | src/core/retrieval/fusion_retriever.py:74-87 | BM25 scores normalise to a list of the same length with every entry in [0, 1], all 0.5 when the scores are all equal |
| Fusion.FuseLoop | src/core/retrieval/fusion_retriever.py:93-96 | The enumerate/zip loop appends exactly the fused (index, score) pairs, in index order |
| Fusion.Insert | src/core/retrieval/fusion_retriever.py:102 | Inserting into a sorted list adds exactly that entry: the result is a permutation of the list plus the entry |
| Fusion.SortByScore | src/core/retrieval/fusion_retriever.py:102 | Sorting is a permutation of its input |
| Fusion.Fuse | src/core/retrieval/fusion_retriever.py:93-102 | The fused ranking is a permutation of the fused pairs of the normalised scores, one per position of the shorter list |
| Fusion.SortNonIncreasing | src/core/retrieval/fusion_retriever.py:102 | The sorted list's scores never increase |
| Fusion.SortRankedOrder | src/core/retrieval/fusion_retriever.py:102 | Stability: when input indices increase, equal scores come out in increasing index order |
| Fusion.SortEnumerated | src/core/retrieval/fusion_retriever.py:93-102 | Sorting the enumerated pairs yields each index below the length exactly once, each with its own score, in ranking order |
| Fusion.FuseRanking | src/core/retrieval/fusion_retriever.py:93-109 | The ranking's indices are a permutation of 0..n-1 (n the shorter length); each entry's score is alpha times the normalised vector score plus (1 - alpha) times the normalised BM25 score of that document; scores do not increase and ties keep index order; scores lie in [0, 1] when alpha does |
| Fusion.FusedScoreBounds | src/core/retrieval/fusion_retriever.py:95 | Each fused score lies in [0, 1] when alpha does |
| Fusion.ConvexInUnit | src/core/retrieval/fusion_retriever.py:95 | A convex combination of two values in [0, 1] lies in [0, 1] |
| Fusion.FusionRetriever.constructor | src/core/retrieval/fusion_retriever.py:10-19 | alpha is fixed at construction (default 0.6) and the retriever owns a fresh, empty BM25 indexer |
| Fusion.FusionRetriever.FuseResults | src/core/retrieval/fusion_retriever.py:21-109 | No documents: empty result, indexer untouched. Empty vector scores: error, indexer untouched. A failing index build is re-raised. Otherwise the indexer holds the documents and their index, and the result is the fused ranking of the vector scores and the query's BM25 scores |
| Metrics.ToDict | src/core/evaluation/metrics.py:18-29 | The dictionary has exactly the nine field names as keys |
| Metrics.ToDictRoundTrip | src/core/evaluation/metrics.py:18-29 | Reading the dictionary back gives the evaluation, so distinct evaluations give distinct dictionaries |
| Metrics.Counted | src/core/evaluation/metrics.py:44-60 | Recording an evaluation keeps every pass count between 0 and the number of queries |
| Metrics.CountedAllAggregates | src/core/evaluation/metrics.py:44-60 | After recording a history from zero: total_queries is its length, each pass count is the number of evaluations whose check is exactly "yes" (or whose flag is set), and each total is the sum of that field |
| Metrics.CountedAllConsistent | src/core/evaluation/metrics.py:46-55 | From zero, pass counts stay between 0 and total_queries over any history |
| Metrics.StatsOf | src/core/evaluation/metrics.py:62-91 | With zero queries everything is 0; otherwise each rate and average times the number of queries is its count or total; precision times retrieved is relevant when retrieved > 0, else precision is 0.0 |
| Metrics.StatsRatesInUnit | src/core/evaluation/metrics.py:77-91 | With consistent counters the three pass rates lie in [0, 1], and so does precision when relevant <= retrieved |
| Metrics.HistoryPrecisionInUnit | src/core/evaluation/metrics.py:84-88 | If every recorded evaluation has 0 <= relevant <= retrieved, the totals keep that order and the reported precision lies in [0, 1] |
| Metrics.EvaluationTracker.constructor | src/core/evaluation/metrics.py:33-41 | A new tracker has every counter and total at zero |
| Metrics.EvaluationTracker.Record | src/core/evaluation/metrics.py:44-60 | total_queries rises by 1; each pass count rises by 1 iff its check is exactly "yes" (or the flag is set); the four totals grow by the evaluation's fields; pass counts stay within total_queries |
| Metrics.EvaluationTracker.GetStats | src/core/evaluation/metrics.py:62-91 | Returns the statistics of the current counters without changing them; pass rates lie in [0, 1] |
| Metrics.TrackerRegistry.constructor | src/core/evaluation/metrics.py:94 | The module-level tracker starts out unset |
| Metrics.TrackerRegistry.GetEvaluationTracker | src/core/evaluation/metrics.py:94-104 | The first call creates a fresh zeroed tracker; every later call returns that same tracker |

## Left out

- AgentGraph.AgentRun.Invoke: judges, generator and retriever are total; an exception from any of them aborts the run in the source and is not modelled.
- Language model, judges, retriever, web search, spaCy and rank_bm25 are oracle parameters. Prompt text, the network, logging and library loading are not part of this model.
- Nodes.UndefinedCheckNode: `grade_generation_grounded_node` and `grade_answer_quality_node` are imported at src/core/agent.py:6-8 but nodes.py does not define them. The model assumes they write neither the question, the documents nor the attempt counters, and takes any other output from an oracle.
- Document merging follows the code: `documents` carries the `add` reducer, so the grading node's relevant documents are appended after the ungraded ones rather than replacing them (`Nodes.GradedDocumentsAppended`).
- The relevance judge is a function of (question, document) within one grading step; it may differ between steps.
- `explicit_web_search` in the handler's input is not a key of the state and is never read. Forcing web search from phrases in the question is not implemented in the code.
- AgentGraph.StateGraph: the builder is reduced. LangGraph's `add_node` raises on a duplicate or reserved node name, while `AddNode` takes a set union. LangGraph allows several plain edges from one node, while `AddEdge` overwrites. LangGraph raises on a repeated branch, while `AddConditionalEdges` overwrites. `build_graph` reaches none of these cases.
- LangGraph's recursion limit is not modelled. The run ends after at most 14 steps, which is below that limit.
- `rewrite_query_node` is modelled (`Nodes.RewriteQueryNode`) but is not part of the graph, so no run rewrites the question.
- The locks in metrics.py and the double-checked locking of the tracker singleton are concurrency; calls are modelled as sequential.
- Floating point is modelled by reals. Python's int-by-int true division is real division; rounding, overflow, NaN and infinity are not modelled.
- Lower-casing in the tokenizer covers ASCII letters only. Unicode case mapping is not modelled.
- Bm25.BM25Indexer.GetScores: the library's scoring is modelled as total. When every document tokenizes to empty, the code itself expects a division by zero; the model promises nothing about the score values there, and the error it could raise inside `get_scores` is not modelled.
- Fusion.FusionRetriever.FuseResults: the `except` branch around the vector normalisation (src/core/retrieval/fusion_retriever.py:47-49) cannot be reached with real arithmetic and is not modelled. numpy's array conversions are not modelled either.
- Fusion.FuseRanking: when the vector score list and the document list differ in length, `zip` truncates to the shorter one. The ranking covers the first n indices only, as the code does.
- Blank-document filtering in fusion and a configurable relevance threshold are not in the code. The threshold is the constant 2.
