/** The agent's state record and the way LangGraph merges a node's partial
    output into it: `documents` carries the `add` reducer (list
    concatenation), every other field keeps the latest value written. */
module State {
  import opened Wrappers
  import Seqs

  /** AgentState is a TypedDict with total=False: `question` is the only
      required key, every other key may be absent and is read with a
      default. `documents` is never absent: its reducer channel starts as
      the empty list, which is also the default the nodes read it with. */
  datatype AgentState = AgentState(
    question: string,
    generation: Option<string>,
    webSearch: Option<bool>,
    documents: seq<string>,
    retrievalAttempts: Option<int>,
    generationAttempts: Option<int>)

  /** A node's return value: a partial dictionary of the state's keys. */
  datatype Update = Update(
    question: Option<string>,
    generation: Option<string>,
    webSearch: Option<bool>,
    documents: Option<seq<string>>,
    retrievalAttempts: Option<int>,
    generationAttempts: Option<int>)

  const NoUpdate: Update := Update(None, None, None, None, None, None)

  // Reads with the defaults the nodes use (`state.get(key, default)`).
  function Generation(s: AgentState): string { s.generation.GetOr("") }
  function WebSearch(s: AgentState): bool { s.webSearch.GetOr(false) }
  function RetrievalAttempts(s: AgentState): int { s.retrievalAttempts.GetOr(0) }
  function GenerationAttempts(s: AgentState): int { s.generationAttempts.GetOr(0) }

  /** The input the query handler passes to the compiled graph. Its
      `explicit_web_search` key is not a key of AgentState and is dropped. */
  function InitialState(question: string): (s: AgentState)
    ensures s.question == question && s.documents == []
    ensures Generation(s) == "" && !WebSearch(s)
    ensures RetrievalAttempts(s) == 0 && GenerationAttempts(s) == 0
  {
    AgentState(question, Some(""), Some(false), [], Some(0), Some(0))
  }

  /** Merging one node output into the state. */
  function Apply(s: AgentState, u: Update): (r: AgentState)
    ensures s.documents <= r.documents
    ensures u.documents.None? ==> r.documents == s.documents
    ensures u.documents.Some? ==> r.documents[|s.documents|..] == u.documents.value
    ensures u.question.None? ==> r.question == s.question
    ensures u.question.Some? ==> r.question == u.question.value
    ensures r.generation == Latest([u.generation], s.generation)
    ensures r.webSearch == Latest([u.webSearch], s.webSearch)
    ensures r.retrievalAttempts == Latest([u.retrievalAttempts], s.retrievalAttempts)
    ensures r.generationAttempts == Latest([u.generationAttempts], s.generationAttempts)
  {
    AgentState(
      question := u.question.GetOr(s.question),
      generation := if u.generation.Some? then u.generation else s.generation,
      webSearch := if u.webSearch.Some? then u.webSearch else s.webSearch,
      documents := s.documents + (if u.documents.Some? then u.documents.value else []),
      retrievalAttempts := if u.retrievalAttempts.Some? then u.retrievalAttempts else s.retrievalAttempts,
      generationAttempts := if u.generationAttempts.Some? then u.generationAttempts else s.generationAttempts)
  }

  /** Merging a run's node outputs one after the other. */
  function ApplyAll(s: AgentState, us: seq<Update>): AgentState
  {
    if us == [] then s else Apply(ApplyAll(s, us[..|us| - 1]), us[|us| - 1])
  }

  /** The value a last-value-wins field holds after the writes `ws`,
      starting from `current`: the latest write, or `current` if none. */
  function Latest<T>(ws: seq<Option<T>>, current: Option<T>): Option<T>
  {
    if ws == [] then current
    else if ws[|ws| - 1].Some? then ws[|ws| - 1]
    else Latest(ws[..|ws| - 1], current)
  }

  /** All document lists written by `us`, concatenated in order. */
  function Written(us: seq<Update>): seq<string>
  {
    if us == [] then []
    else Written(us[..|us| - 1]) + (if us[|us| - 1].documents.Some? then us[|us| - 1].documents.value else [])
  }

  /** The `add` reducer over a whole run: the final document list is the
      initial one followed by everything any node wrote, in order; nothing
      a node returns ever replaces what is already there. */
  lemma {:induction false} ApplyAllDocuments(s: AgentState, us: seq<Update>)
    ensures ApplyAll(s, us).documents == s.documents + Written(us)
  {
    if us != [] {
      ApplyAllDocuments(s, us[..|us| - 1]);
    }
  }

  /** Hence every earlier document list is a prefix of every later one. */
  lemma {:induction false} DocumentsOnlyGrow(s: AgentState, us: seq<Update>, k: nat)
    requires k <= |us|
    ensures ApplyAll(s, us[..k]).documents <= ApplyAll(s, us).documents
  {
    ApplyAllDocuments(s, us[..k]);
    ApplyAllDocuments(s, us);
    WrittenPrefix(us, k);
  }

  /** Both document facts about one run at once: the final list is the
      initial one followed by everything written, and the list after any
      prefix of the run is a prefix of the final one. */
  lemma RunDocuments(s: AgentState, us: seq<Update>)
    ensures ApplyAll(s, us).documents == s.documents + Written(us)
    ensures forall k :: 0 <= k <= |us| ==> ApplyAll(s, us[..k]).documents <= ApplyAll(s, us).documents
  {
    ApplyAllDocuments(s, us);
    forall k | 0 <= k <= |us|
      ensures ApplyAll(s, us[..k]).documents <= ApplyAll(s, us).documents
    {
      DocumentsOnlyGrow(s, us, k);
    }
  }

  lemma {:induction false} WrittenPrefix(us: seq<Update>, k: nat)
    requires k <= |us|
    ensures Written(us[..k]) <= Written(us)
  {
    if k < |us| {
      assert us[..|us| - 1][..k] == us[..k];
      WrittenPrefix(us[..|us| - 1], k);
    } else {
      assert us[..k] == us;
    }
  }

  /** Fields without a reducer hold the latest value written during the
      run, or their initial value when no node wrote them; the same holds
      for `question`. */
  lemma {:induction false} ApplyAllLatest(s: AgentState, us: seq<Update>)
    ensures ApplyAll(s, us).generation == Latest(Seqs.Map(us, (u: Update) => u.generation), s.generation)
    ensures ApplyAll(s, us).webSearch == Latest(Seqs.Map(us, (u: Update) => u.webSearch), s.webSearch)
    ensures ApplyAll(s, us).retrievalAttempts
         == Latest(Seqs.Map(us, (u: Update) => u.retrievalAttempts), s.retrievalAttempts)
    ensures ApplyAll(s, us).generationAttempts
         == Latest(Seqs.Map(us, (u: Update) => u.generationAttempts), s.generationAttempts)
    ensures Some(ApplyAll(s, us).question) == Latest(Seqs.Map(us, (u: Update) => u.question), Some(s.question))
  {
    if us != [] {
      var init := us[..|us| - 1];
      ApplyAllLatest(s, init);
      assert Seqs.Map(us, (u: Update) => u.generation)[..|us| - 1] == Seqs.Map(init, (u: Update) => u.generation);
      assert Seqs.Map(us, (u: Update) => u.webSearch)[..|us| - 1] == Seqs.Map(init, (u: Update) => u.webSearch);
      assert Seqs.Map(us, (u: Update) => u.retrievalAttempts)[..|us| - 1]
          == Seqs.Map(init, (u: Update) => u.retrievalAttempts);
      assert Seqs.Map(us, (u: Update) => u.generationAttempts)[..|us| - 1]
          == Seqs.Map(init, (u: Update) => u.generationAttempts);
      assert Seqs.Map(us, (u: Update) => u.question)[..|us| - 1] == Seqs.Map(init, (u: Update) => u.question);
    }
  }
}
