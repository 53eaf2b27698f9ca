/**
 * The LangGraph workflow of both `lang.py` revisions: the graph the module builds by successive
 * `add_node` / `set_entry_point` / `add_conditional_edges` / `add_edge` calls, the transition
 * table that graph defines, and a run of the compiled graph from the entry node.
 */
module LangGraph {
  import opened PyCore
  import opened PyText
  import opened Email
  import opened SharedNodes
  import BackendLang
  import AgentsLang

  /** Where an edge leads: another node, or `END`. */
  datatype Target = To(node: NodeName) | End

  /** What a `StateGraph` has been told so far. A conditional edge stores its path map; its
      router is always `route_after_categorization`, the only router the workflow uses. */
  datatype Topology = Topology(
    nodes: set<NodeName>,
    entry: Option<NodeName>,
    edges: set<(NodeName, Target)>,
    branches: map<NodeName, map<string, NodeName>>)

  /** A graph under construction. */
  class StateGraph {
    var nodes: set<NodeName>
    var entry: Option<NodeName>
    var edges: set<(NodeName, Target)>
    var branches: map<NodeName, map<string, NodeName>>

    function Snapshot(): Topology
      reads this
    {
      Topology(nodes, entry, edges, branches)
    }

    /** `StateGraph(EmailState)`: no nodes, no entry point, no edges. */
    constructor ()
      ensures nodes == {} && entry == None && edges == {} && branches == map[]
    {
      nodes := {};
      entry := None;
      edges := {};
      branches := map[];
    }

    /** `add_node(name, action)`: the action bound to a name is the node function for that name. */
    method AddNode(n: NodeName)
      modifies this
      ensures nodes == old(nodes) + {n}
      ensures entry == old(entry) && edges == old(edges) && branches == old(branches)
    {
      nodes := nodes + {n};
    }

    /** `set_entry_point(name)`. */
    method SetEntryPoint(n: NodeName)
      modifies this
      ensures entry == Some(n)
      ensures nodes == old(nodes) && edges == old(edges) && branches == old(branches)
    {
      entry := Some(n);
    }

    /** `add_conditional_edges(source, router, path_map)`. */
    method AddConditionalEdges(source: NodeName, pathMap: map<string, NodeName>)
      modifies this
      ensures branches == old(branches)[source := pathMap]
      ensures nodes == old(nodes) && entry == old(entry) && edges == old(edges)
    {
      branches := branches[source := pathMap];
    }

    /** `add_edge(source, target)`. */
    method AddEdge(source: NodeName, target: Target)
      modifies this
      ensures edges == old(edges) + {(source, target)}
      ensures nodes == old(nodes) && entry == old(entry) && branches == old(branches)
    {
      edges := edges + {(source, target)};
    }
  }

  /** The path map given with the conditional edge out of `categorize_problem`. */
  const CategorizationPaths: map<string, NodeName> := map[
    "account_management" := AccountManagement,
    "bug_report" := BugReport,
    "check_compliance" := CheckCompliance,
    "faq_handler" := FaqHandler,
    "retrieve_solutions" := RetrieveSolutions]

  /** The graph both revisions build. */
  const EmailWorkflow: Topology := Topology(
    {CategorizeProblem, AccountManagement, BugReport, FaqHandler, CheckCompliance, GenerateDraft, RetrieveSolutions},
    Some(CategorizeProblem),
    {(AccountManagement, To(GenerateDraft)), (BugReport, To(GenerateDraft)), (FaqHandler, To(GenerateDraft)),
     (CheckCompliance, To(GenerateDraft)), (GenerateDraft, End)},
    map[CategorizeProblem := CategorizationPaths])

  /** The module-level graph construction, call by call. */
  method BuildGraph() returns (graph: StateGraph)
    ensures fresh(graph)
    ensures graph.Snapshot() == EmailWorkflow
  {
    graph := new StateGraph();
    graph.AddNode(CategorizeProblem);
    graph.AddNode(AccountManagement);
    graph.AddNode(BugReport);
    graph.AddNode(FaqHandler);
    graph.AddNode(CheckCompliance);
    graph.AddNode(GenerateDraft);
    graph.AddNode(RetrieveSolutions);
    assert graph.nodes == EmailWorkflow.nodes;
    graph.SetEntryPoint(CategorizeProblem);
    graph.AddConditionalEdges(CategorizeProblem, CategorizationPaths);
    graph.AddEdge(AccountManagement, To(GenerateDraft));
    graph.AddEdge(BugReport, To(GenerateDraft));
    graph.AddEdge(FaqHandler, To(GenerateDraft));
    graph.AddEdge(CheckCompliance, To(GenerateDraft));
    graph.AddEdge(GenerateDraft, End);
    assert graph.edges == EmailWorkflow.edges;
  }

  /** Every name the graph mentions is a registered node. */
  predicate WellFormed(t: Topology) {
    && (t.entry.Some? ==> t.entry.value in t.nodes)
    && (forall e :: e in t.edges ==> e.0 in t.nodes && (e.1.To? ==> e.1.node in t.nodes))
    && (forall n :: n in t.branches ==> n in t.nodes && forall k :: k in t.branches[n] ==> t.branches[n][k] in t.nodes)
  }

  lemma EmailWorkflowWellFormed()
    ensures WellFormed(EmailWorkflow)
  {
  }

  /** The targets the graph offers after node `n` has left the state `s`: its plain edges, and the
      node the path map gives for the router's answer. */
  function Successors(t: Topology, n: NodeName, s: EmailState): set<Target> {
    (set e | e in t.edges && e.0 == n :: e.1)
    + (if n in t.branches && NodeId(RouteAfterCategorization(s)) in t.branches[n]
       then {To(t.branches[n][NodeId(RouteAfterCategorization(s))])} else {})
  }

  /** The transition table: the router after categorisation, one edge from every handler to
      `generate_draft`, `generate_draft` to `END`, and nothing after `retrieve_solutions`. */
  function Step(n: NodeName, s: EmailState): (next: Option<Target>)
    ensures next != Some(To(CategorizeProblem))
  {
    match n
    case CategorizeProblem => Some(To(RouteAfterCategorization(s)))
    case AccountManagement => Some(To(GenerateDraft))
    case BugReport => Some(To(GenerateDraft))
    case FaqHandler => Some(To(GenerateDraft))
    case CheckCompliance => Some(To(GenerateDraft))
    case GenerateDraft => Some(End)
    case RetrieveSolutions => None
  }

  /** The path map sends each router answer to the node of the same name. */
  lemma PathMapFollowsRouter(s: EmailState)
    ensures NodeId(RouteAfterCategorization(s)) in CategorizationPaths
    ensures CategorizationPaths[NodeId(RouteAfterCategorization(s))] == RouteAfterCategorization(s)
  {
  }

  /** The built graph offers exactly the transition of the table, and none after `retrieve_solutions`. */
  lemma StepIsWorkflow(n: NodeName, s: EmailState)
    ensures Successors(EmailWorkflow, n, s) == if Step(n, s).Some? then {Step(n, s).value} else {}
  {
    var t := EmailWorkflow;
    var plain := set e | e in t.edges && e.0 == n :: e.1;
    if n == CategorizeProblem {
      PathMapFollowsRouter(s);
      assert plain == {} by {
        forall e | e in t.edges ensures e.0 != n { }
      }
    } else {
      assert n !in t.branches;
      if n == GenerateDraft {
        assert (GenerateDraft, End) in t.edges;
      } else if n != RetrieveSolutions {
        assert (n, To(GenerateDraft)) in t.edges;
      }
    }
  }

  /** A height for each node: every edge and every branch of the graph leads to a lower one. */
  function Rank(n: NodeName): (h: nat)
    ensures 1 <= h <= 3
  {
    match n
    case CategorizeProblem => 3
    case AccountManagement => 2
    case BugReport => 2
    case FaqHandler => 2
    case CheckCompliance => 2
    case GenerateDraft => 1
    case RetrieveSolutions => 1
  }

  /** `b` can follow `a` in the built graph, for some state. */
  predicate Edge(t: Topology, a: NodeName, b: NodeName) {
    (a, To(b)) in t.edges || (a in t.branches && b in t.branches[a].Values)
  }

  lemma EdgesDescend(a: NodeName, b: NodeName)
    requires Edge(EmailWorkflow, a, b)
    ensures Rank(b) < Rank(a)
  {
    if a in EmailWorkflow.branches {
      assert a == CategorizeProblem;
      assert b != CategorizeProblem by {
        assert forall k :: k in CategorizationPaths ==> CategorizationPaths[k] != CategorizeProblem;
      }
    }
  }

  /** A path of the graph never comes back to where it started: the graph is acyclic. */
  lemma {:induction false} PathsDescend(path: seq<NodeName>)
    requires |path| >= 2
    requires forall k :: 0 <= k < |path| - 1 ==> Edge(EmailWorkflow, path[k], path[k + 1])
    ensures Rank(path[|path| - 1]) < Rank(path[0])
    ensures path[|path| - 1] != path[0]
  {
    EdgesDescend(path[0], path[1]);
    if |path| > 2 {
      PathsDescend(path[1..]);
    }
  }

  /** Which revision of `lang.py` supplies the node functions. */
  datatype Revision = Backend | Agents

  /** The compiled graph's node table: the function `add_node` bound to each name, applied to a state. */
  type NodeFn = (NodeName, EmailState) -> Result<Update>

  /** `w` runs the backend revision's node functions. */
  ghost predicate BackendNodes(w: NodeFn, env: Env) {
    && (forall s {:trigger w(CategorizeProblem, s)} :: w(CategorizeProblem, s) == Ok(BackendLang.CategorizeProblemNode(s, env)))
    && (forall s {:trigger w(AccountManagement, s)} :: w(AccountManagement, s) == AccountManagementNode(s, env.token))
    && (forall s {:trigger w(BugReport, s)} :: w(BugReport, s) == BackendLang.BugReportNode(s, env))
    && (forall s {:trigger w(FaqHandler, s)} :: w(FaqHandler, s) == Ok(BackendLang.FaqNode(s, env)))
    && (forall s {:trigger w(CheckCompliance, s)} :: w(CheckCompliance, s) == Ok(BackendLang.CheckComplianceNode(s, env)))
    && (forall s {:trigger w(GenerateDraft, s)} :: w(GenerateDraft, s) == BackendLang.GenerateDraftNode(s, env))
    && (forall s {:trigger w(RetrieveSolutions, s)} :: w(RetrieveSolutions, s) == Ok(BackendLang.RetrieveSolutionsNode(s, env)))
  }

  /** `w` runs the agents revision's node functions. */
  ghost predicate AgentsNodes(w: NodeFn, env: Env) {
    && (forall s {:trigger w(CategorizeProblem, s)} :: w(CategorizeProblem, s) == Ok(AgentsLang.CategorizeProblemNode(s, env)))
    && (forall s {:trigger w(AccountManagement, s)} :: w(AccountManagement, s) == AccountManagementNode(s, env.token))
    && (forall s {:trigger w(BugReport, s)} :: w(BugReport, s) == AgentsLang.BugReportNode(s, env))
    && (forall s {:trigger w(FaqHandler, s)} :: w(FaqHandler, s) == Ok(AgentsLang.FaqNode(s, env)))
    && (forall s {:trigger w(CheckCompliance, s)} :: w(CheckCompliance, s) == Ok(AgentsLang.CheckComplianceNode(s, env)))
    && (forall s {:trigger w(GenerateDraft, s)} :: w(GenerateDraft, s) == AgentsLang.GenerateDraftNode(s, env))
    && (forall s {:trigger w(RetrieveSolutions, s)} :: w(RetrieveSolutions, s) == Ok(AgentsLang.RetrieveSolutionsNode(s, env)))
  }

  /** `w` is the node table the module of revision `rev` compiles. */
  ghost predicate IsWorkflow(w: NodeFn, rev: Revision, env: Env) {
    match rev
    case Backend => BackendNodes(w, env)
    case Agents => AgentsNodes(w, env)
  }

  /** The function the backend revision registers for each node name. */
  function BackendStep(n: NodeName, s: EmailState, env: Env): (r: Result<Update>)
    ensures r.Ok? ==> Writes(n, r.value)
    ensures r.Err? ==> n in {AccountManagement, BugReport, GenerateDraft}
    ensures n == BugReport ==> r.Err?
  {
    match n
    case CategorizeProblem => Ok(BackendLang.CategorizeProblemNode(s, env))
    case AccountManagement => AccountManagementNode(s, env.token)
    case BugReport => BackendLang.BugReportNode(s, env)
    case FaqHandler => Ok(BackendLang.FaqNode(s, env))
    case CheckCompliance => Ok(BackendLang.CheckComplianceNode(s, env))
    case GenerateDraft => BackendLang.GenerateDraftNode(s, env)
    case RetrieveSolutions => Ok(BackendLang.RetrieveSolutionsNode(s, env))
  }

  /** The function the agents revision registers for each node name. */
  function AgentsStep(n: NodeName, s: EmailState, env: Env): (r: Result<Update>)
    ensures r.Ok? ==> Writes(n, r.value)
    ensures r.Err? ==> n in {AccountManagement, BugReport, GenerateDraft}
  {
    match n
    case CategorizeProblem => Ok(AgentsLang.CategorizeProblemNode(s, env))
    case AccountManagement => AccountManagementNode(s, env.token)
    case BugReport => AgentsLang.BugReportNode(s, env)
    case FaqHandler => Ok(AgentsLang.FaqNode(s, env))
    case CheckCompliance => Ok(AgentsLang.CheckComplianceNode(s, env))
    case GenerateDraft => AgentsLang.GenerateDraftNode(s, env)
    case RetrieveSolutions => Ok(AgentsLang.RetrieveSolutionsNode(s, env))
  }

  /** `workflow.compile()`: the node table of a revision. */
  function Compile(rev: Revision, env: Env): (w: NodeFn)
    ensures forall n, s :: w(n, s).Ok? ==> Writes(n, w(n, s).value)
    ensures forall n, s :: w(n, s).Err? ==> n in {AccountManagement, BugReport, GenerateDraft}
  {
    match rev
    case Backend => (n, s) => BackendStep(n, s, env)
    case Agents => (n, s) => AgentsStep(n, s, env)
  }

  /** The compiled table is the table the revision describes. */
  lemma CompileIsWorkflow(rev: Revision, env: Env)
    ensures IsWorkflow(Compile(rev, env), rev, env)
  {
    if rev == Backend {
      CompileBackend(env);
    } else {
      CompileAgents(env);
    }
  }

  lemma CompileBackend(env: Env)
    ensures BackendNodes(Compile(Backend, env), env)
  {
    var w := Compile(Backend, env);
    forall s ensures w(CategorizeProblem, s) == BackendStep(CategorizeProblem, s, env) { }
    forall s ensures w(AccountManagement, s) == BackendStep(AccountManagement, s, env) { }
    forall s ensures w(BugReport, s) == BackendStep(BugReport, s, env) { }
    forall s ensures w(FaqHandler, s) == BackendStep(FaqHandler, s, env) { }
    forall s ensures w(CheckCompliance, s) == BackendStep(CheckCompliance, s, env) { }
    forall s ensures w(GenerateDraft, s) == BackendStep(GenerateDraft, s, env) { }
    forall s ensures w(RetrieveSolutions, s) == BackendStep(RetrieveSolutions, s, env) { }
  }

  lemma CompileAgents(env: Env)
    ensures AgentsNodes(Compile(Agents, env), env)
  {
    var w := Compile(Agents, env);
    forall s ensures w(CategorizeProblem, s) == AgentsStep(CategorizeProblem, s, env) { }
    forall s ensures w(AccountManagement, s) == AgentsStep(AccountManagement, s, env) { }
    forall s ensures w(BugReport, s) == AgentsStep(BugReport, s, env) { }
    forall s ensures w(FaqHandler, s) == AgentsStep(FaqHandler, s, env) { }
    forall s ensures w(CheckCompliance, s) == AgentsStep(CheckCompliance, s, env) { }
    forall s ensures w(GenerateDraft, s) == AgentsStep(GenerateDraft, s, env) { }
    forall s ensures w(RetrieveSolutions, s) == AgentsStep(RetrieveSolutions, s, env) { }
  }

  /** The label `categorize_problem` stores: the raw reply in the backend, the stripped one in the agents revision. */
  function Classified(rev: Revision, s: EmailState, env: Env): string {
    match rev
    case Backend => env.llm(ClassifyPrompt(s.subject, s.emailContent))
    case Agents => Strip(env.llm(ClassifyPrompt(s.subject, s.emailContent)))
  }

  /** The nodes a run visited, and the final state or the exception that stopped it. */
  datatype Run = Run(visited: seq<NodeName>, outcome: Result<EmailState>)

  /** The compiled graph run from node `n`: the node's update is merged into the state, then the
      run goes on to the next node; it stops at `END`, at a node with no outgoing edge, or when a
      node raises. */
  function RunFrom(w: NodeFn, n: NodeName, s: EmailState): (run: Run)
    ensures run.visited != [] && run.visited[0] == n
    ensures |run.visited| <= Rank(n)
    decreases Rank(n)
  {
    match w(n, s)
    case Err(e) => Run([n], Err(e))
    case Ok(u) =>
      var next := Apply(s, u);
      match Step(n, next)
      case None => Run([n], Ok(next))
      case Some(End) => Run([n], Ok(next))
      case Some(To(m)) =>
        var rest := RunFrom(w, m, next);
        Run([n] + rest.visited, rest.outcome)
  }

  /** `process_email`: the compiled graph run from its entry point on a fresh state. */
  function ProcessEmail(w: NodeFn, username: string, subject: string, body: string, userEmail: string): (run: Run)
    ensures run.visited != [] && run.visited[0] == CategorizeProblem && |run.visited| <= 3
  {
    RunFrom(w, CategorizeProblem, InitialState(username, subject, body, userEmail))
  }

  /** Whatever the node functions do, a run moves along the edges of the built graph, and a run
      that completes ends at `generate_draft` or at `retrieve_solutions`. */
  lemma {:induction false} RunFollowsWorkflow(w: NodeFn, n: NodeName, s: EmailState)
    ensures var run := RunFrom(w, n, s);
      forall k :: 0 <= k < |run.visited| - 1 ==> Edge(EmailWorkflow, run.visited[k], run.visited[k + 1])
    ensures var run := RunFrom(w, n, s);
      run.outcome.Ok? ==> run.visited[|run.visited| - 1] in {GenerateDraft, RetrieveSolutions}
    decreases Rank(n)
  {
    var run := RunFrom(w, n, s);
    if w(n, s).Ok? {
      var next := Apply(s, w(n, s).value);
      if Step(n, next).Some? && Step(n, next).value.To? {
        var m := Step(n, next).value.node;
        var rest := RunFrom(w, m, next);
        RunFollowsWorkflow(w, m, next);
        assert run.visited == [n] + rest.visited;
        assert Edge(EmailWorkflow, n, m) by {
          StepIsWorkflow(n, next);
          assert To(m) in Successors(EmailWorkflow, n, next);
          if n == CategorizeProblem {
            PathMapFollowsRouter(next);
            assert m in CategorizationPaths.Values;
          }
        }
      }
    }
  }

  /** A node that returns an update and has a successor hands the merged state on to it. */
  lemma RunContinues(w: NodeFn, n: NodeName, s: EmailState, u: Update, m: NodeName)
    requires w(n, s) == Ok(u)
    requires Step(n, Apply(s, u)) == Some(To(m))
    ensures RunFrom(w, n, s) == Run([n] + RunFrom(w, m, Apply(s, u)).visited, RunFrom(w, m, Apply(s, u)).outcome)
  {
  }

  /** The state after categorisation. */
  function Categorized(rev: Revision, s: EmailState, env: Env): EmailState {
    s.(problemType := Some(Classified(rev, s, env)))
  }

  /** The run of a state that categorisation has routed to `m`. */
  lemma RunAfterCategorization(w: NodeFn, rev: Revision, s: EmailState, env: Env, m: NodeName)
    requires IsWorkflow(w, rev, env)
    requires RouteAfterCategorization(Categorized(rev, s, env)) == m
    ensures RunFrom(w, CategorizeProblem, s) ==
      Run([CategorizeProblem] + RunFrom(w, m, Categorized(rev, s, env)).visited, RunFrom(w, m, Categorized(rev, s, env)).outcome)
  {
    RunContinues(w, CategorizeProblem, s, ProblemTypeSet(Classified(rev, s, env)), m);
  }

  /** `check_compliance` sets only the verdict. */
  lemma ComplianceStep(w: NodeFn, rev: Revision, s: EmailState, env: Env)
    requires IsWorkflow(w, rev, env)
    ensures w(CheckCompliance, s).Ok? && w(CheckCompliance, s).value.CompliantSet?
  {
  }

  /** `faq_handler` sets only the answer. */
  lemma FaqStep(w: NodeFn, rev: Revision, s: EmailState, env: Env)
    requires IsWorkflow(w, rev, env)
    ensures w(FaqHandler, s).Ok? && w(FaqHandler, s).value.FaqAnswerSet?
  {
  }

  /** `generate_draft` either writes the draft and ends the run, or raises. */
  lemma DraftRun(w: NodeFn, rev: Revision, s: EmailState, env: Env)
    requires IsWorkflow(w, rev, env)
    ensures var run := RunFrom(w, GenerateDraft, s);
      && run.visited == [GenerateDraft]
      && (HasDraftTemplate(s.problemType) ==>
            run.outcome.Ok? && run.outcome.value.draft.Some? && run.outcome.value == s.(draft := run.outcome.value.draft))
      && (!HasDraftTemplate(s.problemType) ==> run.outcome == Err(UnboundLocalError("prompt")))
  {
  }

  /** `retrieve_solutions` stores the solutions, leaves the draft as it was, and ends the run. */
  lemma SolutionsRun(w: NodeFn, rev: Revision, s: EmailState, env: Env)
    requires IsWorkflow(w, rev, env)
    ensures RunFrom(w, RetrieveSolutions, s).visited == [RetrieveSolutions]
    ensures RunFrom(w, RetrieveSolutions, s).outcome.Ok?
    ensures RunFrom(w, RetrieveSolutions, s).outcome.value.draft == s.draft
    ensures RunFrom(w, RetrieveSolutions, s).outcome.value.solutions.Some?
  {
  }

  /** A reply is answered by `retrieve_solutions` alone, whatever its label: no draft is written
      and the run ends there. */
  lemma ReplyOnlyRetrievesSolutions(w: NodeFn, rev: Revision, s: EmailState, env: Env)
    requires IsWorkflow(w, rev, env)
    requires s.isReply
    ensures RunFrom(w, CategorizeProblem, s).visited == [CategorizeProblem, RetrieveSolutions]
    ensures RunFrom(w, CategorizeProblem, s).outcome.Ok?
    ensures RunFrom(w, CategorizeProblem, s).outcome.value.draft == s.draft
    ensures RunFrom(w, CategorizeProblem, s).outcome.value.solutions.Some?
  {
    RunAfterCategorization(w, rev, s, env, RetrieveSolutions);
    SolutionsRun(w, rev, Categorized(rev, s, env), env);
  }

  /** A password or username request gets its link and then its draft, in both revisions. */
  lemma AccountRequestGetsLinkAndDraft(w: NodeFn, rev: Revision, s: EmailState, env: Env)
    requires IsWorkflow(w, rev, env)
    requires !s.isReply
    requires Classified(rev, s, env) == "password_reset" || Classified(rev, s, env) == "username_change"
    ensures RunFrom(w, CategorizeProblem, s).visited == [CategorizeProblem, AccountManagement, GenerateDraft]
    ensures RunFrom(w, CategorizeProblem, s).outcome.Ok?
    ensures RunFrom(w, CategorizeProblem, s).outcome.value.link.Some?
    ensures RunFrom(w, CategorizeProblem, s).outcome.value.draft.Some?
  {
    var s1 := Categorized(rev, s, env);
    RoutingTable(s1);
    RunAfterCategorization(w, rev, s, env, AccountManagement);
    RoutedToAccountManagementGetsLink(s1, env.token);
    var u := AccountManagementNode(s1, env.token).value;
    assert w(AccountManagement, s1) == Ok(u);
    RunContinues(w, AccountManagement, s1, u, GenerateDraft);
    CategoryIsExactLabel(s1.problemType);
    DraftRun(w, rev, Apply(s1, u), env);
  }

  /** A refund request is checked for compliance and then fails in `generate_draft`, which has no
      template for it, in both revisions. */
  lemma RefundRequestFailsInDraft(w: NodeFn, rev: Revision, s: EmailState, env: Env)
    requires IsWorkflow(w, rev, env)
    requires !s.isReply
    requires Classified(rev, s, env) == "refund_request"
    ensures RunFrom(w, CategorizeProblem, s).visited == [CategorizeProblem, CheckCompliance, GenerateDraft]
    ensures RunFrom(w, CategorizeProblem, s).outcome == Err(UnboundLocalError("prompt"))
  {
    var s1 := Categorized(rev, s, env);
    RoutingTable(s1);
    RunAfterCategorization(w, rev, s, env, CheckCompliance);
    ComplianceStep(w, rev, s1, env);
    var u := w(CheckCompliance, s1).value;
    RunContinues(w, CheckCompliance, s1, u, GenerateDraft);
    CategoryIsExactLabel(s1.problemType);
    DraftRun(w, rev, Apply(s1, u), env);
  }

  /** A question classified as `faq` gets an answer and a draft, in both revisions. */
  lemma FaqGetsAnswerAndDraft(w: NodeFn, rev: Revision, s: EmailState, env: Env)
    requires IsWorkflow(w, rev, env)
    requires !s.isReply
    requires Classified(rev, s, env) == "faq"
    ensures RunFrom(w, CategorizeProblem, s).visited == [CategorizeProblem, FaqHandler, GenerateDraft]
    ensures RunFrom(w, CategorizeProblem, s).outcome.Ok?
    ensures RunFrom(w, CategorizeProblem, s).outcome.value.faqAnswer.Some?
    ensures RunFrom(w, CategorizeProblem, s).outcome.value.draft.Some?
  {
    var s1 := Categorized(rev, s, env);
    RoutingTable(s1);
    RunAfterCategorization(w, rev, s, env, FaqHandler);
    FaqStep(w, rev, s1, env);
    var u := w(FaqHandler, s1).value;
    RunContinues(w, FaqHandler, s1, u, GenerateDraft);
    CategoryIsExactLabel(s1.problemType);
    DraftRun(w, rev, Apply(s1, u), env);
  }

  /** In the backend revision a bug report always stops the run with `NameError` in `bug_report`. */
  lemma BackendBugReportRaises(w: NodeFn, s: EmailState, env: Env)
    requires IsWorkflow(w, Backend, env)
    requires !s.isReply
    requires Classified(Backend, s, env) == "bug_report"
    ensures RunFrom(w, CategorizeProblem, s) == Run([CategorizeProblem, BugReport], Err(NameError("g")))
  {
    RoutingTable(Categorized(Backend, s, env));
    RunAfterCategorization(w, Backend, s, env, BugReport);
  }

  /** In the agents revision, the bug analysis drafted for a bug report is the stripped reply; the
      issue body is cut out of it at its first `":"`. */
  function BugAnalysis(s: EmailState, env: Env): string {
    Strip(env.llm(BugAnalysisPrompt(s.emailContent)))
  }

  /** The agents' `bug_report` node returns the whole analysis when it holds a `":"`. */
  lemma AgentsBugStep(w: NodeFn, s: EmailState, env: Env)
    requires IsWorkflow(w, Agents, env)
    requires ':' in BugAnalysis(s, env)
    ensures w(BugReport, s) == Ok(BugAnalysisSet(BugAnalysis(s, env)))
  {
    assert w(BugReport, s) == AgentsLang.BugReportNode(s, env);
  }

  /** In the agents revision a bug report whose analysis holds a `":"` is analysed and drafted. */
  lemma AgentsBugReportDrafted(w: NodeFn, s: EmailState, env: Env)
    requires IsWorkflow(w, Agents, env)
    requires !s.isReply
    requires Classified(Agents, s, env) == "bug_report"
    requires ':' in BugAnalysis(s, env)
    ensures RunFrom(w, CategorizeProblem, s).visited == [CategorizeProblem, BugReport, GenerateDraft]
    ensures RunFrom(w, CategorizeProblem, s).outcome.Ok?
    ensures RunFrom(w, CategorizeProblem, s).outcome.value.bugAnalysis == Some(BugAnalysis(s, env))
    ensures RunFrom(w, CategorizeProblem, s).outcome.value.draft.Some?
  {
    var s1 := Categorized(Agents, s, env);
    RoutingTable(s1);
    RunAfterCategorization(w, Agents, s, env, BugReport);
    assert BugAnalysis(s1, env) == BugAnalysis(s, env);
    AgentsBugTail(w, s1, env);
  }

  /** From `bug_report` on: the analysis is stored and the draft node writes a draft. */
  lemma AgentsBugTail(w: NodeFn, s1: EmailState, env: Env)
    requires IsWorkflow(w, Agents, env)
    requires s1.problemType == Some("bug_report")
    requires ':' in BugAnalysis(s1, env)
    ensures RunFrom(w, BugReport, s1).visited == [BugReport, GenerateDraft]
    ensures RunFrom(w, BugReport, s1).outcome.Ok?
    ensures RunFrom(w, BugReport, s1).outcome.value.bugAnalysis == Some(BugAnalysis(s1, env))
    ensures RunFrom(w, BugReport, s1).outcome.value.draft.Some?
  {
    AgentsBugStep(w, s1, env);
    var u := BugAnalysisSet(BugAnalysis(s1, env));
    var s2 := s1.(bugAnalysis := Some(BugAnalysis(s1, env)));
    assert Apply(s1, u) == s2;
    RunContinues(w, BugReport, s1, u, GenerateDraft);
    assert HasDraftTemplate(s2.problemType) by { CategoryIsExactLabel(s2.problemType); }
    DraftRun(w, Agents, s2, env);
    var r2 := RunFrom(w, GenerateDraft, s2);
    assert r2.outcome.Ok? && r2.outcome.value.bugAnalysis == s2.bugAnalysis;
  }

  /** In the agents revision a bug report whose analysis has no `":"` stops with `IndexError`
      in `bug_report`, before any draft. */
  lemma AgentsBugReportWithoutColonRaises(w: NodeFn, s: EmailState, env: Env)
    requires IsWorkflow(w, Agents, env)
    requires !s.isReply
    requires Classified(Agents, s, env) == "bug_report"
    requires ':' !in BugAnalysis(s, env)
    ensures RunFrom(w, CategorizeProblem, s).visited == [CategorizeProblem, BugReport]
    ensures RunFrom(w, CategorizeProblem, s).outcome.Err?
    ensures RunFrom(w, CategorizeProblem, s).outcome.error.IndexError?
  {
    var s1 := Categorized(Agents, s, env);
    RoutingTable(s1);
    RunAfterCategorization(w, Agents, s, env, BugReport);
    assert w(BugReport, s1).Err?;
  }

  /** A label the router does not know (in the backend revision, a reply with a trailing newline
      among them) is sent to `retrieve_solutions`, and no draft is written. */
  lemma UnknownLabelGetsNoDraft(w: NodeFn, rev: Revision, s: EmailState, env: Env)
    requires IsWorkflow(w, rev, env)
    requires !s.isReply
    requires CategoryOf(Some(Classified(rev, s, env))) == Unrecognised
    ensures RunFrom(w, CategorizeProblem, s).visited == [CategorizeProblem, RetrieveSolutions]
    ensures RunFrom(w, CategorizeProblem, s).outcome.Ok?
    ensures RunFrom(w, CategorizeProblem, s).outcome.value.draft == s.draft
  {
    RoutingTable(Categorized(rev, s, env));
    RunAfterCategorization(w, rev, s, env, RetrieveSolutions);
    SolutionsRun(w, rev, Categorized(rev, s, env), env);
  }
}
