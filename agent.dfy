/** The agent graph: the builder calls that wire the nodes together, the
    compiled graph as a value, and one invocation of the compiled graph,
    which runs node after node, merging each output into the state. */
module AgentGraph {
  import opened Wrappers
  import opened Seqs
  import State
  import Nodes

  datatype NodeName =
    Router | Retrieve | GradeDocuments | WebSearch | Generate | CheckHallucination | CheckQuality

  /** Where an edge leads: a node or the graph's END. */
  datatype Target = Node(name: NodeName) | End

  /** The three routing functions the graph's conditional edges call. */
  datatype Condition = RouteOnWebSearch | DecideToGenerate | GradeGenerationQuality

  /** A conditional edge: a routing function and its label-to-target map. */
  datatype Branch = Branch(condition: Condition, targets: map<string, Target>)

  /** A compiled graph. Each node has at most one unconditional edge here,
      so unconditional edges are a map. */
  datatype Graph = Graph(
    nodes: set<NodeName>,
    entry: NodeName,
    edges: map<NodeName, Target>,
    branches: map<NodeName, Branch>)

  /** The labels a routing function can return. */
  function Labels(c: Condition): set<string>
  {
    match c
    case RouteOnWebSearch => {"websearch", "retrieve"}
    case DecideToGenerate => {"websearch", "generate"}
    case GradeGenerationQuality => {"useful", "not useful"}
  }

  /** Runs a routing function on the merged state. The router's edge reads
      `web_search` without a default, and an absent key is falsy. */
  function Evaluate(c: Condition, s: State.AgentState, gradeQuality: (string, string) -> string): (choice: string)
    ensures choice in Labels(c)
  {
    match c
    case RouteOnWebSearch => if State.WebSearch(s) then "websearch" else "retrieve"
    case DecideToGenerate => Nodes.DecideToGenerate(s)
    case GradeGenerationQuality => Nodes.GradeGenerationQuality(s, gradeQuality)
  }

  predicate InGraph(g: Graph, t: Target)
  {
    t.End? || t.name in g.nodes
  }

  /** Every node has exactly one way out, and every way out leads to a node
      of the graph or to END, whichever label its routing function returns. */
  ghost predicate WellFormed(g: Graph)
  {
    && g.entry in g.nodes
    && (forall n :: n in g.nodes ==> (n in g.edges) != (n in g.branches))
    && (forall n :: n in g.edges ==> n in g.nodes && InGraph(g, g.edges[n]))
    && (forall n :: n in g.branches ==>
          && n in g.nodes
          && Labels(g.branches[n].condition) <= g.branches[n].targets.Keys
          && (forall l :: l in g.branches[n].targets ==> InGraph(g, g.branches[n].targets[l])))
  }

  /** The targets a node can move to. */
  function Successors(g: Graph, n: NodeName): set<Target>
  {
    if n in g.edges then {g.edges[n]}
    else if n in g.branches then g.branches[n].targets.Values
    else {}
  }

  /** The transition after `node` has run and its output was merged into `s`. */
  function Next(g: Graph, node: NodeName, s: State.AgentState, gradeQuality: (string, string) -> string): (t: Target)
    requires WellFormed(g) && node in g.nodes
    ensures InGraph(g, t) && t in Successors(g, node)
  {
    if node in g.edges then g.edges[node]
    else
      var b := g.branches[node];
      b.targets[Evaluate(b.condition, s, gradeQuality)]
  }

  /** The LangGraph builder, reduced to what build_graph uses. */
  class StateGraph {
    var nodes: set<NodeName>
    var entry: Option<NodeName>
    var edges: map<NodeName, Target>
    var branches: map<NodeName, Branch>

    constructor ()
      ensures nodes == {} && entry == None && edges == map[] && branches == map[]
    {
      nodes, entry, edges, branches := {}, None, map[], map[];
    }

    method AddNode(n: NodeName)
      modifies this
      ensures nodes == old(nodes) + {n}
      ensures entry == old(entry) && edges == old(edges) && branches == old(branches)
    {
      nodes := nodes + {n};
    }

    method SetEntryPoint(n: NodeName)
      modifies this
      ensures entry == Some(n)
      ensures nodes == old(nodes) && edges == old(edges) && branches == old(branches)
    {
      entry := Some(n);
    }

    method AddEdge(from: NodeName, to: Target)
      modifies this
      ensures edges == old(edges)[from := to]
      ensures nodes == old(nodes) && entry == old(entry) && branches == old(branches)
    {
      edges := edges[from := to];
    }

    method AddConditionalEdges(from: NodeName, condition: Condition, targets: map<string, Target>)
      modifies this
      ensures branches == old(branches)[from := Branch(condition, targets)]
      ensures nodes == old(nodes) && entry == old(entry) && edges == old(edges)
    {
      branches := branches[from := Branch(condition, targets)];
    }

    /** Compiling fails when no entry point was set (the only check this
        reduced builder can fail: edges here name nodes by an enumeration). */
    method Compile() returns (r: Result<Graph, string>)
      ensures entry.None? <==> r.Err?
      ensures r.Ok? ==> r.value == Graph(nodes, entry.value, edges, branches)
    {
      if entry.None? {
        r := Err("Graph must have an entrypoint");
      } else {
        r := Ok(Graph(nodes, entry.value, edges, branches));
      }
    }
  }

  /** The graph build_graph wires: seven nodes, entered at the router,
      every way out leading to a node of the graph or to END. */
  function AgentGraph(): (g: Graph)
    ensures g.entry == Router && g.entry in g.nodes
  {
    Graph(
      {Router, Retrieve, GradeDocuments, WebSearch, Generate, CheckHallucination, CheckQuality},
      Router,
      map[Retrieve := Node(GradeDocuments), WebSearch := Node(GradeDocuments),
          Generate := Node(CheckHallucination), CheckHallucination := Node(CheckQuality)],
      map[Router := Branch(RouteOnWebSearch, map["websearch" := Node(WebSearch), "retrieve" := Node(Retrieve)]),
          GradeDocuments := Branch(DecideToGenerate, map["websearch" := Node(WebSearch), "generate" := Node(Generate)]),
          CheckQuality := Branch(GradeGenerationQuality, map["useful" := End, "not useful" := Node(Generate)])])
  }

  /** build_graph: register the seven nodes, set the router as entry point,
      add the unconditional and conditional edges, and compile. */
  method BuildGraph() returns (g: Graph)
    ensures g == AgentGraph() && WellFormed(g)
  {
    var workflow := new StateGraph();
    workflow.AddNode(Router);
    workflow.AddNode(Retrieve);
    workflow.AddNode(GradeDocuments);
    workflow.AddNode(WebSearch);
    workflow.AddNode(Generate);
    workflow.AddNode(CheckHallucination);
    workflow.AddNode(CheckQuality);
    workflow.SetEntryPoint(Router);
    workflow.AddConditionalEdges(Router, RouteOnWebSearch,
      map["websearch" := Node(WebSearch), "retrieve" := Node(Retrieve)]);
    workflow.AddEdge(Retrieve, Node(GradeDocuments));
    workflow.AddEdge(WebSearch, Node(GradeDocuments));
    workflow.AddConditionalEdges(GradeDocuments, DecideToGenerate,
      map["websearch" := Node(WebSearch), "generate" := Node(Generate)]);
    workflow.AddEdge(Generate, Node(CheckHallucination));
    workflow.AddEdge(CheckHallucination, Node(CheckQuality));
    workflow.AddConditionalEdges(CheckQuality, GradeGenerationQuality,
      map["useful" := End, "not useful" := Node(Generate)]);
    assert workflow.entry == Some(Router);
    assert workflow.nodes == AgentGraph().nodes;
    assert workflow.edges == AgentGraph().edges;
    assert workflow.branches == AgentGraph().branches;
    var compiled := workflow.Compile();
    g := compiled.value;
    AgentGraphWellFormed();
  }

  lemma AgentGraphWellFormed()
    ensures WellFormed(AgentGraph())
  {
    var g := AgentGraph();
    forall n | n in g.edges ensures n in g.nodes && InGraph(g, g.edges[n]) {
    }
    forall n | n in g.branches
      ensures n in g.nodes
      ensures Labels(g.branches[n].condition) <= g.branches[n].targets.Keys
      ensures forall l :: l in g.branches[n].targets ==> InGraph(g, g.branches[n].targets[l])
    {
      assert n == Router || n == GradeDocuments || n == CheckQuality;
    }
  }

  /** The shape of the wired graph: the run starts at the router; retrieve
      and websearch always go on to grading; grading branches only through
      decide_to_generate; the grounding check is followed unconditionally by
      the quality check, so its verdict never selects a transition; only
      the quality check can end the run or send it back to generation. */
  lemma AgentGraphShape(n: NodeName)
    ensures AgentGraph().entry == Router
    ensures Successors(AgentGraph(), Router) == {Node(WebSearch), Node(Retrieve)}
    ensures Successors(AgentGraph(), Retrieve) == {Node(GradeDocuments)}
    ensures Successors(AgentGraph(), WebSearch) == {Node(GradeDocuments)}
    ensures Successors(AgentGraph(), GradeDocuments) == {Node(WebSearch), Node(Generate)}
    ensures GradeDocuments in AgentGraph().branches
         && AgentGraph().branches[GradeDocuments].condition == DecideToGenerate
    ensures CheckHallucination in AgentGraph().edges && CheckHallucination !in AgentGraph().branches
    ensures Successors(AgentGraph(), Generate) == {Node(CheckHallucination)}
    ensures Successors(AgentGraph(), CheckHallucination) == {Node(CheckQuality)}
    ensures Successors(AgentGraph(), CheckQuality) == {End, Node(Generate)}
    ensures End in Successors(AgentGraph(), n) <==> n == CheckQuality
    ensures Node(Router) !in Successors(AgentGraph(), n)
    ensures Node(Retrieve) in Successors(AgentGraph(), n) <==> n == Router
  {
    var g := AgentGraph();
    assert g.branches[Router].targets.Values == {Node(WebSearch), Node(Retrieve)} by {
      assert g.branches[Router].targets["websearch"] == Node(WebSearch);
      assert g.branches[Router].targets["retrieve"] == Node(Retrieve);
    }
    assert g.branches[GradeDocuments].targets.Values == {Node(WebSearch), Node(Generate)} by {
      assert g.branches[GradeDocuments].targets["websearch"] == Node(WebSearch);
      assert g.branches[GradeDocuments].targets["generate"] == Node(Generate);
    }
    assert g.branches[CheckQuality].targets.Values == {End, Node(Generate)} by {
      assert g.branches[CheckQuality].targets["useful"] == End;
      assert g.branches[CheckQuality].targets["not useful"] == Node(Generate);
    }
  }

  /** The external capabilities. Each takes the number of nodes run so far,
      so that repeated calls may answer differently. `webSearch` answers
      None when the search tool raises; `groundedNode` and `qualityNode`
      stand for the two node functions the graph names but nodes.py does
      not define. */
  datatype Oracles = Oracles(
    routeQuestion: (nat, string) -> string,
    retrieve: (nat, string) -> seq<string>,
    webSearch: (nat, string) -> Option<string>,
    gradeRelevance: (nat, string, string) -> string,
    generate: (nat, string, string) -> string,
    groundedNode: (nat, State.AgentState) -> State.Update,
    qualityNode: (nat, State.AgentState) -> State.Update,
    gradeQuality: (nat, string, string) -> string)
  {
    function RouteAt(step: nat): string -> string { q => routeQuestion(step, q) }
    function RetrieveAt(step: nat): string -> seq<string> { q => retrieve(step, q) }
    function SearchAt(step: nat): string -> Option<string> { q => webSearch(step, q) }
    function RelevanceAt(step: nat): (string, string) -> string { (q, d) => gradeRelevance(step, q, d) }
    function GenerateAt(step: nat): (string, string) -> string { (q, c) => generate(step, q, c) }
    function QualityAt(step: nat): (string, string) -> string { (q, a) => gradeQuality(step, q, a) }
  }

  /** The output of node `node` run as step `step` on state `s`: its node
      function applied to that step's oracle answers. No node writes the
      question, and only grading and generation bump their counter. */
  function NodeOutput(node: NodeName, step: nat, s: State.AgentState, o: Oracles): (u: State.Update)
    ensures u.question.None?
    ensures u.retrievalAttempts
         == if node == GradeDocuments then Some(State.RetrievalAttempts(s) + 1) else None
    ensures u.generationAttempts
         == if node == Generate then Some(State.GenerationAttempts(s) + 1) else None
  {
    match node
    case Router => Nodes.RouterNode(s, o.RouteAt(step))
    case Retrieve => Nodes.RetrieveNode(s, o.RetrieveAt(step))
    case WebSearch => Nodes.WebSearchNode(s, o.SearchAt(step))
    case GradeDocuments =>
      var relevant := Nodes.RelevantDocuments(s.documents, s.question, o.RelevanceAt(step));
      State.NoUpdate.(documents := Some(relevant),
                      webSearch := Some(|relevant| < Nodes.RelevanceThreshold),
                      retrievalAttempts := Some(State.RetrievalAttempts(s) + 1))
    case Generate => Nodes.GenerateNode(s, o.GenerateAt(step))
    case CheckHallucination => Nodes.UndefinedCheckNode(o.groundedNode(step, s))
    case CheckQuality => Nodes.UndefinedCheckNode(o.qualityNode(step, s))
  }

  /** Runs one node on the current state and returns its output. */
  method ExecuteNode(node: NodeName, step: nat, s: State.AgentState, o: Oracles) returns (u: State.Update)
    ensures u == NodeOutput(node, step, s, o)
    ensures u.question.None?
    ensures u.retrievalAttempts
         == if node == GradeDocuments then Some(State.RetrievalAttempts(s) + 1) else None
    ensures u.generationAttempts
         == if node == Generate then Some(State.GenerationAttempts(s) + 1) else None
    ensures node == Router ==> u == Nodes.RouterNode(s, o.RouteAt(step))
    ensures node == Retrieve ==> u == Nodes.RetrieveNode(s, o.RetrieveAt(step))
    ensures node == WebSearch ==> u == Nodes.WebSearchNode(s, o.SearchAt(step))
    ensures node == GradeDocuments ==>
              && u.documents == Some(Nodes.RelevantDocuments(s.documents, s.question, o.RelevanceAt(step)))
              && u.generation.None?
              && u.webSearch
                 == Some(|Nodes.RelevantDocuments(s.documents, s.question, o.RelevanceAt(step))| < Nodes.RelevanceThreshold)
    ensures node == Generate ==> u == Nodes.GenerateNode(s, o.GenerateAt(step))
    ensures node == CheckHallucination ==> u == Nodes.UndefinedCheckNode(o.groundedNode(step, s))
    ensures node == CheckQuality ==> u == Nodes.UndefinedCheckNode(o.qualityNode(step, s))
  {
    match node
    case Router => u := Nodes.RouterNode(s, o.RouteAt(step));
    case Retrieve => u := Nodes.RetrieveNode(s, o.RetrieveAt(step));
    case WebSearch => u := Nodes.WebSearchNode(s, o.SearchAt(step));
    case GradeDocuments => u := Nodes.GradeDocumentsNode(s, o.RelevanceAt(step));
    case Generate => u := Nodes.GenerateNode(s, o.GenerateAt(step));
    case CheckHallucination => u := Nodes.UndefinedCheckNode(o.groundedNode(step, s));
    case CheckQuality => u := Nodes.UndefinedCheckNode(o.qualityNode(step, s));
  }

  /** Most nodes still to run from `cur` on the wired graph. */
  function Rank(cur: Target, s: State.AgentState): int
  {
    var ra := State.RetrievalAttempts(s);
    var ga := State.GenerationAttempts(s);
    match cur
    case End => 0
    case Node(n) =>
      match n
      case Router => 14
      case Retrieve => 13
      case WebSearch => 13 - 2 * ra
      case GradeDocuments => 12 - 2 * ra
      case Generate => 9 - 3 * ga
      case CheckHallucination => 11 - 3 * ga
      case CheckQuality => 10 - 3 * ga
  }

  /** What holds between steps of a run of the wired graph from zero counters:
      the counters count the grading and generation steps taken, each node
      bounds them, and the steps taken plus those left never exceed 14. */
  ghost predicate RunInvariant(cur: Target, s: State.AgentState, trace: seq<NodeName>)
  {
    var ra := State.RetrievalAttempts(s);
    var ga := State.GenerationAttempts(s);
    && Count(trace, GradeDocuments) == ra
    && Count(trace, Generate) == ga
    && Count(trace, Router) + (if cur == Node(Router) then 1 else 0) == 1
    && Count(trace, Retrieve) + (if cur == Node(Retrieve) then 1 else 0) <= 1
    && (trace == [] <==> cur == Node(Router))
    && (trace != [] ==> trace[0] == Router)
    && 0 <= Rank(cur, s)
    && |trace| + Rank(cur, s) <= 14
    && match cur
       case End => 1 <= ra <= 2 && 1 <= ga <= 3 && trace[|trace| - 1] == CheckQuality
       case Node(n) =>
         match n
         case Router => ra == 0 && ga == 0
         case Retrieve => ra == 0 && ga == 0
         case WebSearch => 0 <= ra <= 1 && ga == 0
         case GradeDocuments => 0 <= ra <= 1 && ga == 0
         case Generate => 1 <= ra <= 2 && 0 <= ga <= 2
         case CheckHallucination => 1 <= ra <= 2 && 1 <= ga <= 3
         case CheckQuality => 1 <= ra <= 2 && 1 <= ga <= 3
  }

  /** The transitions of the wired graph, written out node by node. */
  function AgentNext(node: NodeName, s: State.AgentState, gradeQuality: (string, string) -> string): Target
  {
    match node
    case Router => if State.WebSearch(s) then Node(WebSearch) else Node(Retrieve)
    case Retrieve => Node(GradeDocuments)
    case WebSearch => Node(GradeDocuments)
    case GradeDocuments =>
      if Nodes.DecideToGenerate(s) == "websearch" then Node(WebSearch) else Node(Generate)
    case Generate => Node(CheckHallucination)
    case CheckHallucination => Node(CheckQuality)
    case CheckQuality =>
      if Nodes.GradeGenerationQuality(s, gradeQuality) == "useful" then End else Node(Generate)
  }

  /** Following the compiled graph's edges is exactly AgentNext. */
  lemma NextOnAgentGraph(node: NodeName, s: State.AgentState, gradeQuality: (string, string) -> string)
    ensures WellFormed(AgentGraph()) && Next(AgentGraph(), node, s, gradeQuality) == AgentNext(node, s, gradeQuality)
  {
    AgentGraphWellFormed();
    var g := AgentGraph();
    match node
    case Router =>
      assert g.branches[Router].targets["websearch"] == Node(WebSearch);
      assert g.branches[Router].targets["retrieve"] == Node(Retrieve);
    case GradeDocuments =>
      assert g.branches[GradeDocuments].targets["websearch"] == Node(WebSearch);
      assert g.branches[GradeDocuments].targets["generate"] == Node(Generate);
    case CheckQuality =>
      assert g.branches[CheckQuality].targets["useful"] == End;
      assert g.branches[CheckQuality].targets["not useful"] == Node(Generate);
    case _ =>
  }

  /** One step of the wired graph keeps the run invariant and lowers the rank. */
  lemma StepKeepsInvariant(node: NodeName, s: State.AgentState, u: State.Update, trace: seq<NodeName>,
                           gradeQuality: (string, string) -> string)
    requires RunInvariant(Node(node), s, trace)
    requires u.retrievalAttempts
          == if node == GradeDocuments then Some(State.RetrievalAttempts(s) + 1) else None
    requires u.generationAttempts
          == if node == Generate then Some(State.GenerationAttempts(s) + 1) else None
    ensures var s' := State.Apply(s, u);
            var next := AgentNext(node, s', gradeQuality);
            RunInvariant(next, s', trace + [node]) && Rank(next, s') < Rank(Node(node), s)
  {
    var s' := State.Apply(s, u);
    CountSnoc(trace, node, GradeDocuments);
    CountSnoc(trace, node, Generate);
    CountSnoc(trace, node, Router);
    CountSnoc(trace, node, Retrieve);
    assert State.RetrievalAttempts(s')
        == State.RetrievalAttempts(s) + (if node == GradeDocuments then 1 else 0);
    assert State.GenerationAttempts(s')
        == State.GenerationAttempts(s) + (if node == Generate then 1 else 0);
    assert (trace + [node])[0] == if trace == [] then node else trace[0];
    match node
    case Router =>
    case Retrieve =>
    case WebSearch =>
    case GradeDocuments =>
    case Generate =>
    case CheckHallucination =>
    case CheckQuality =>
  }

  /** What a finished run satisfies. */
  lemma RunInvariantAtEnd(s: State.AgentState, trace: seq<NodeName>)
    requires RunInvariant(End, s, trace)
    ensures 1 <= State.RetrievalAttempts(s) <= 2 && 1 <= State.GenerationAttempts(s) <= 3
    ensures Count(trace, GradeDocuments) == State.RetrievalAttempts(s)
    ensures Count(trace, Generate) == State.GenerationAttempts(s)
    ensures Count(trace, Router) == 1 && Count(trace, Retrieve) <= 1
    ensures 0 < |trace| <= 14 && trace[0] == Router && trace[|trace| - 1] == CheckQuality
  {
  }

  /** Step `k` of `trace`/`outputs` is a step of the wired graph run from
      `s0` with oracles `o`: its output is its node's output on the state
      merged from the earlier outputs, and its node is the router (first
      step) or the node the graph's edges choose after the previous one. */
  ghost predicate StepAt(s0: State.AgentState, o: Oracles, trace: seq<NodeName>, outputs: seq<State.Update>, k: nat)
    requires k < |trace| && k < |outputs|
  {
    var s := State.ApplyAll(s0, outputs[..k]);
    && outputs[k] == NodeOutput(trace[k], k, s, o)
    && (if k == 0 then trace[k] == Router else AgentNext(trace[k - 1], s, o.QualityAt(k)) == Node(trace[k]))
  }

  /** `trace` and `outputs` are the first |trace| steps of the wired graph
      run from `s0` with oracles `o`. */
  ghost predicate IsRun(s0: State.AgentState, o: Oracles, trace: seq<NodeName>, outputs: seq<State.Update>)
  {
    && |trace| == |outputs|
    && forall k :: 0 <= k < |trace| ==> StepAt(s0, o, trace, outputs, k)
  }

  /** A run extends by one step: the node the edges choose, and its output. */
  lemma IsRunExtend(s0: State.AgentState, o: Oracles, trace: seq<NodeName>, outputs: seq<State.Update>,
                    node: NodeName, u: State.Update)
    requires IsRun(s0, o, trace, outputs)
    requires trace == [] ==> node == Router
    requires trace != [] ==>
               AgentNext(trace[|trace| - 1], State.ApplyAll(s0, outputs), o.QualityAt(|trace|)) == Node(node)
    requires u == NodeOutput(node, |trace|, State.ApplyAll(s0, outputs), o)
    ensures IsRun(s0, o, trace + [node], outputs + [u])
  {
    var t', o' := trace + [node], outputs + [u];
    var n := |trace|;
    forall k | 0 <= k < |t'|
      ensures StepAt(s0, o, t', o', k)
    {
      if k < n {
        assert StepAt(s0, o, trace, outputs, k);
        assert t'[k] == trace[k] && o'[k] == outputs[k] && o'[..k] == outputs[..k];
        assert k > 0 ==> t'[k - 1] == trace[k - 1];
      } else {
        assert o'[..k] == outputs && t'[k] == node && o'[k] == u;
        assert k > 0 ==> t'[k - 1] == trace[n - 1];
      }
    }
  }

  /** Two runs from the same state with the same oracles agree on their
      first n steps. */
  lemma {:induction false} IsRunAgree(s0: State.AgentState, o: Oracles, t1: seq<NodeName>, u1: seq<State.Update>,
                                      t2: seq<NodeName>, u2: seq<State.Update>, n: nat)
    requires IsRun(s0, o, t1, u1) && IsRun(s0, o, t2, u2) && n <= |t1| && n <= |t2|
    ensures t1[..n] == t2[..n] && u1[..n] == u2[..n]
  {
    if n > 0 {
      var k := n - 1;
      IsRunAgree(s0, o, t1, u1, t2, u2, k);
      assert StepAt(s0, o, t1, u1, k) && StepAt(s0, o, t2, u2, k);
      assert k > 0 ==> t1[k - 1] == t1[..k][k - 1] == t2[..k][k - 1] == t2[k - 1];
      assert t1[k] == t2[k];
      assert t1[..n] == t1[..k] + [t1[k]] && t2[..n] == t2[..k] + [t2[k]];
      assert u1[..n] == u1[..k] + [u1[k]] && u2[..n] == u2[..k] + [u2[k]];
    }
  }

  /** The oracles decide the run: two runs of the same length from the same
      state with the same oracles are the same run. */
  lemma IsRunUnique(s0: State.AgentState, o: Oracles, t1: seq<NodeName>, u1: seq<State.Update>,
                    t2: seq<NodeName>, u2: seq<State.Update>)
    requires IsRun(s0, o, t1, u1) && IsRun(s0, o, t2, u2) && |t1| == |t2|
    ensures t1 == t2 && u1 == u2
  {
    IsRunAgree(s0, o, t1, u1, t2, u2, |t1|);
    assert t1[..|t1|] == t1 && t2[..|t2|] == t2;
    assert u1[..|u1|] == u1 && u2[..|u2|] == u2;
  }

  /** Where a run of the wired graph from `s0` stands: `t` and `outs` are
      its steps so far, `s` the merged state and `cur` the node to run next
      (or END); the question is never written and documents only grow. */
  ghost predicate Reached(s0: State.AgentState, o: Oracles, cur: Target, s: State.AgentState,
                          t: seq<NodeName>, outs: seq<State.Update>)
  {
    && s == State.ApplyAll(s0, outs)
    && IsRun(s0, o, t, outs)
    && (t == [] ==> cur == Node(Router))
    && (t != [] ==> cur == AgentNext(t[|t| - 1], s, o.QualityAt(|t|)))
    && s.question == s0.question
    && s0.documents <= s.documents
    && (forall k :: 0 <= k < |outs| ==> outs[k].question.None?)
  }

  /** Running the next node keeps the run's bookkeeping. */
  lemma ReachedStep(s0: State.AgentState, o: Oracles, node: NodeName, s: State.AgentState,
                    t: seq<NodeName>, outs: seq<State.Update>, u: State.Update)
    requires Reached(s0, o, Node(node), s, t, outs)
    requires u == NodeOutput(node, |t|, s, o)
    ensures Reached(s0, o, AgentNext(node, State.Apply(s, u), o.QualityAt(|t| + 1)), State.Apply(s, u),
                    t + [node], outs + [u])
  {
    IsRunExtend(s0, o, t, outs, node, u);
    assert (outs + [u])[..|outs|] == outs;
    assert State.ApplyAll(s0, outs + [u]) == State.Apply(s, u);
  }

  /** What a run that reached END has done: every step was the graph's,
      END is where the last node leads, the question was never written and
      the documents grew only by appending what the nodes wrote. */
  lemma ReachedEnd(s0: State.AgentState, o: Oracles, s: State.AgentState, t: seq<NodeName>, outs: seq<State.Update>)
    requires Reached(s0, o, End, s, t, outs)
    ensures t != [] && IsRun(s0, o, t, outs) && |outs| == |t| && s == State.ApplyAll(s0, outs)
    ensures AgentNext(t[|t| - 1], s, o.QualityAt(|t|)) == End
    ensures s.question == s0.question
    ensures forall k :: 0 <= k < |outs| ==> outs[k].question.None?
    ensures s.documents == s0.documents + State.Written(outs)
    ensures forall k :: 0 <= k <= |outs| ==> State.ApplyAll(s0, outs[..k]).documents <= s.documents
  {
    State.RunDocuments(s0, outs);
  }

  /** The loop of one invocation: run the node at hand, merge its output,
      follow the graph's edges, until END. */
  method RunGraph(g: Graph, o: Oracles, s0: State.AgentState)
    returns (s: State.AgentState, ghost t: seq<NodeName>, ghost outs: seq<State.Update>)
    requires g == AgentGraph()
    requires State.RetrievalAttempts(s0) == 0 && State.GenerationAttempts(s0) == 0
    ensures RunInvariant(End, s, t) && Reached(s0, o, End, s, t, outs)
  {
    AgentGraphWellFormed();
    s := s0;
    t, outs := [], [];
    var cur := Node(g.entry);
    var step: nat := 0;
    while cur.Node?
      invariant step == |t|
      invariant InGraph(g, cur)
      invariant RunInvariant(cur, s, t)
      invariant Reached(s0, o, cur, s, t, outs)
      decreases Rank(cur, s)
    {
      var node := cur.name;
      var u := ExecuteNode(node, step, s, o);
      StepKeepsInvariant(node, s, u, t, o.QualityAt(step + 1));
      NextOnAgentGraph(node, State.Apply(s, u), o.QualityAt(step + 1));
      ReachedStep(s0, o, node, s, t, outs, u);
      s := State.Apply(s, u);
      t := t + [node];
      outs := outs + [u];
      step := step + 1;
      cur := Next(g, node, s, o.QualityAt(step));
    }
  }

  /** One invocation of the compiled graph on one input state. */
  class AgentRun {
    var state: State.AgentState
    /** The nodes run so far, in order. */
    ghost var trace: seq<NodeName>
    /** The outputs of those nodes, in the same order. */
    ghost var outputs: seq<State.Update>

    /** The input the query handler builds for a question. */
    constructor (question: string)
      ensures state == State.InitialState(question) && trace == [] && outputs == []
    {
      state := State.InitialState(question);
      trace := [];
      outputs := [];
    }

    /** Runs the wired graph to END. Whatever the judges, the generator and
        the searches answer, the run ends after at most 14 node steps, with
        one or two retrieval attempts and one to three generation attempts;
        the router runs once, the vector store is queried at most once, the
        question is never rewritten and documents are only ever appended.
        The final state is the input merged with every node's output in
        turn, so the run-level merge lemmas of module State apply to it. */
    method Invoke(g: Graph, o: Oracles)
      requires g == AgentGraph()
      requires State.RetrievalAttempts(state) == 0 && State.GenerationAttempts(state) == 0
      requires trace == [] && outputs == []
      modifies this
      ensures 1 <= State.RetrievalAttempts(state) <= Nodes.MaxRetrievalAttempts
      ensures 1 <= State.GenerationAttempts(state) <= Nodes.MaxGenerationAttempts
      ensures Count(trace, GradeDocuments) == State.RetrievalAttempts(state)
      ensures Count(trace, Generate) == State.GenerationAttempts(state)
      ensures Count(trace, Router) == 1 && Count(trace, Retrieve) <= 1
      ensures 0 < |trace| <= 14 && trace[0] == Router && trace[|trace| - 1] == CheckQuality
      ensures state.question == old(state.question)
      ensures old(state.documents) <= state.documents
      ensures |outputs| == |trace| && state == State.ApplyAll(old(state), outputs)
      ensures IsRun(old(state), o, trace, outputs)
      ensures AgentNext(trace[|trace| - 1], state, o.QualityAt(|trace|)) == End
      ensures forall k :: 0 <= k < |outputs| ==> outputs[k].question.None?
      ensures state.documents == old(state.documents) + State.Written(outputs)
      ensures forall k :: 0 <= k <= |outputs| ==>
                State.ApplyAll(old(state), outputs[..k]).documents <= state.documents
    {
      ghost var s0 := state;
      var s;
      ghost var t, outs;
      s, t, outs := RunGraph(g, o, state);
      RunInvariantAtEnd(s, t);
      ReachedEnd(s0, o, s, t, outs);
      state := s;
      trace := t;
      outputs := outs;
    }
  }
}
