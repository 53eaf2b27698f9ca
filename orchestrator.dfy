/**
 * The ADK orchestrator of `ai_agents/orchestrator.py`: `EmailProcessorAgent` decides, from the
 * shared session dictionary, which sub-agents run and in which order, forwarding each
 * sub-agent's events as they come. A sub-agent is abstract: it reads the session state and
 * produces its events and a final text, which the runtime stores under its `output_key`.
 */
module Orchestrator {
  import opened PyCore
  import opened PyText

  /** A value in the session dictionary. */
  datatype Value = Str(s: string) | Bool(b: bool) | Int(i: int) | NoneValue

  /** Python truthiness: exactly the empty string, `False`, `0` and `None` are false. */
  predicate Truthy(v: Value): (b: bool)
    ensures !b <==> v in {Str(""), Bool(false), Int(0), NoneValue}
  {
    match v
    case Str(s) => s != ""
    case Bool(b) => b
    case Int(i) => i != 0
    case NoneValue => false
  }

  /** Looking a key up with a default: the stored value, or the default when the key is absent. */
  function Get(state: map<string, Value>, key: string, default: Value): (v: Value)
    ensures key in state ==> v == state[key]
    ensures key !in state ==> v == default
  {
    if key in state then state[key] else default
  }

  /** The sub-agents the orchestrator is built with. */
  datatype Agent =
    | ProblemCategorizer
    | AccountManagement
    | BugReportAgent
    | FaqAgent
    | DraftGenerator
    | ComplianceChecker
    | SolutionRetriever
    | ItTaskGenerator

  /** The keys some sub-agent stores its final text under. */
  predicate IsOutputKey(key: string) {
    key in {"problem_type", "account_action", "bug_analysis", "faq_answer", "draft", "compliant", "solutions", "jira_ticket"}
  }

  /** The `output_key` each sub-agent's final text is stored under. */
  function OutputKey(a: Agent): (key: string)
    ensures IsOutputKey(key)
    ensures key != "email_content" && key != "is_reply" && key != "persistent_tech_issue" && key != "summary"
  {
    match a
    case ProblemCategorizer => "problem_type"
    case AccountManagement => "account_action"
    case BugReportAgent => "bug_analysis"
    case FaqAgent => "faq_answer"
    case DraftGenerator => "draft"
    case ComplianceChecker => "compliant"
    case SolutionRetriever => "solutions"
    case ItTaskGenerator => "jira_ticket"
  }

  /** Distinct sub-agents write distinct keys. */
  lemma OutputKeysDistinct(a: Agent, b: Agent)
    ensures OutputKey(a) == OutputKey(b) <==> a == b
  {
  }

  /** An event a sub-agent yields; its content is not modelled. */
  datatype Event = Event(author: string, text: string)

  /** What one run of a sub-agent produces from the state it starts in. */
  datatype AgentRun = AgentRun(events: seq<Event>, finalText: string)

  /** The sub-agents' behaviour (the language model behind each `LlmAgent`). */
  type SubAgents = (Agent, map<string, Value>) -> AgentRun

  /** One sub-agent run, with the events it yielded. */
  datatype Invocation = Invocation(agent: Agent, events: seq<Event>)

  /** The agents of a trace, in invocation order. */
  function Agents(trace: seq<Invocation>): (agents: seq<Agent>)
    ensures |agents| == |trace|
    ensures forall k :: 0 <= k < |trace| ==> agents[k] == trace[k].agent
  {
    seq(|trace|, k requires 0 <= k < |trace| => trace[k].agent)
  }

  /** The events of a trace, sub-agent after sub-agent. */
  function Flatten(trace: seq<Invocation>): seq<Event>
    decreases |trace|
  {
    if trace == [] then [] else Flatten(trace[..|trace| - 1]) + trace[|trace| - 1].events
  }

  /** The session dictionary, the sub-agents invoked so far and the events yielded so far. */
  datatype Session = Session(state: map<string, Value>, trace: seq<Invocation>, yielded: seq<Event>)

  /** `next` carries on from `ss`: sub-agents and events are only ever added after the earlier
      ones, and every key that no sub-agent writes (the email content, the reply flag, the
      destination, ...) is still there with its value. */
  predicate Continues(ss: Session, next: Session) {
    && |ss.trace| <= |next.trace| && next.trace[..|ss.trace|] == ss.trace
    && |ss.yielded| <= |next.yielded| && next.yielded[..|ss.yielded|] == ss.yielded
    && (forall k :: k in ss.state && !IsOutputKey(k) ==> k in next.state && next.state[k] == ss.state[k])
  }

  lemma ContinuesTransitive(a: Session, b: Session, c: Session)
    requires Continues(a, b) && Continues(b, c)
    ensures Continues(a, c)
  {
    assert c.trace[..|a.trace|] == c.trace[..|b.trace|][..|a.trace|];
    assert c.yielded[..|a.yielded|] == c.yielded[..|b.yielded|][..|a.yielded|];
  }

  /** The yielded events are exactly the invoked sub-agents' events, in invocation order. */
  predicate Forwarded(ss: Session) {
    ss.yielded == Flatten(ss.trace)
  }

  /** Running one sub-agent: its events are forwarded, its final text is stored under its
      `output_key`, and it is appended to the trace. */
  function Invoke(sub: SubAgents, ss: Session, a: Agent): (next: Session)
    ensures Agents(next.trace) == Agents(ss.trace) + [a]
    ensures next.state == ss.state[OutputKey(a) := Str(sub(a, ss.state).finalText)]
    ensures Continues(ss, next) && |next.trace| == |ss.trace| + 1 && next.trace[|ss.trace|].agent == a
  {
    var run := sub(a, ss.state);
    var trace := ss.trace + [Invocation(a, run.events)];
    assert Agents(trace) == Agents(ss.trace) + [a];
    Session(ss.state[OutputKey(a) := Str(run.finalText)], trace, ss.yielded + run.events)
  }

  /** Invoking a sub-agent keeps the yielded events in step with the trace. */
  lemma InvokeForwards(sub: SubAgents, ss: Session, a: Agent)
    requires Forwarded(ss)
    ensures Forwarded(Invoke(sub, ss, a))
    ensures Invoke(sub, ss, a).yielded == ss.yielded + sub(a, ss.state).events
  {
    var next := Invoke(sub, ss, a);
    assert next.trace[..|next.trace| - 1] == ss.trace;
  }

  /** Removing one trailing newline, when there is one. */
  function StripOneNewline(s: string): (r: string)
    ensures EndsWith(s, "\n") ==> r + "\n" == s
    ensures !EndsWith(s, "\n") ==> r == s
  {
    if EndsWith(s, "\n") then s[..|s| - 1] else s
  }

  /** Only one newline is removed: `"x\n\n"` becomes `"x\n"`. */
  lemma StripsOnlyOneNewline()
    ensures StripOneNewline("x\n\n") == "x\n"
  {
    assert EndsWith("x\n\n", "\n");
  }

  /** Dropping one trailing newline from the value stored under `key`, in place. The key is one a
      sub-agent has just written, so its value is that agent's final text. */
  function StripNewlineAt(state: map<string, Value>, key: string): (r: map<string, Value>)
    requires key in state && state[key].Str?
    ensures r.Keys == state.Keys
    ensures r[key] == Str(StripOneNewline(state[key].s))
    ensures forall k :: k in state && k != key ==> r[k] == state[k]
  {
    state[key := Str(StripOneNewline(state[key].s))]
  }

  /** How a flow ends: normally, or with an exception out of the orchestrator. */
  datatype Outcome = Completed | Raised(error: PyError)

  /** The session a flow leaves and how it ended. */
  datatype Flow = Flow(session: Session, outcome: Outcome)

  /** `handle_reply_flow`: the categorizer, then, for a persistent technical issue, the
      solution retriever, the read of `state["summary"]` and the IT task generator. */
  function ReplyFlow(sub: SubAgents, ss: Session): (f: Flow)
    ensures Continues(ss, f.session)
    ensures |ss.trace| < |f.session.trace| && f.session.trace[|ss.trace|].agent == ProblemCategorizer
    ensures f.outcome.Raised? ==> f.outcome.error == KeyError("summary")
  {
    var s1 := Invoke(sub, ss, ProblemCategorizer);
    if !Truthy(Get(s1.state, "persistent_tech_issue", NoneValue)) then Flow(s1, Completed)
    else
      var s2 := Invoke(sub, s1, SolutionRetriever);
      ContinuesTransitive(ss, s1, s2);
      if "summary" !in s2.state then Flow(s2, Raised(KeyError("summary")))
      else
        var s3 := Invoke(sub, s2, ItTaskGenerator);
        ContinuesTransitive(ss, s2, s3);
        Flow(s3, Completed)
  }

  /** The refund branch: the compliance checker, one newline stripped from `compliant`, and a
      draft when the stripped value is truthy. */
  function RefundBranch(sub: SubAgents, ss: Session): (r: Session)
    ensures Continues(ss, r)
    ensures |ss.trace| < |r.trace| <= |ss.trace| + 2 && r.trace[|ss.trace|].agent == ComplianceChecker
  {
    var s1 := Invoke(sub, ss, ComplianceChecker);
    var s2 := s1.(state := StripNewlineAt(s1.state, "compliant"));
    ContinuesTransitive(ss, s1, s2);
    if Truthy(s2.state["compliant"]) then
      var s3 := Invoke(sub, s2, DraftGenerator);
      ContinuesTransitive(ss, s2, s3);
      s3
    else s2
  }

  /** The handler the new-email flow picks for a (newline-stripped) `problem_type`. */
  function Dispatch(sub: SubAgents, ss: Session, tag: Value): (r: Session)
    ensures Continues(ss, r)
    ensures |ss.trace| < |r.trace| <= |ss.trace| + 2
  {
    if tag == Str("password_reset") || tag == Str("username_change") then Invoke(sub, ss, AccountManagement)
    else if tag == Str("refund_request") then RefundBranch(sub, ss)
    else if tag == Str("bug_report") then
      var s1 := Invoke(sub, ss, BugReportAgent);
      var s2 := Invoke(sub, s1, SolutionRetriever);
      ContinuesTransitive(ss, s1, s2);
      s2
    else Invoke(sub, ss, FaqAgent)
  }

  /** `handle_new_email_flow`: the categorizer, one newline stripped from `problem_type`, the
      handler for the label, and the draft generator. */
  function NewEmailFlow(sub: SubAgents, ss: Session): (f: Flow)
    ensures f.outcome == Completed
    ensures Continues(ss, f.session)
    ensures |ss.trace| + 3 <= |f.session.trace| <= |ss.trace| + 4
    ensures f.session.trace[|ss.trace|].agent == ProblemCategorizer
    ensures f.session.trace[|f.session.trace| - 1].agent == DraftGenerator
  {
    var s1 := Invoke(sub, ss, ProblemCategorizer);
    var s2 := s1.(state := StripNewlineAt(s1.state, "problem_type"));
    ContinuesTransitive(ss, s1, s2);
    var s3 := Dispatch(sub, s2, s2.state["problem_type"]);
    ContinuesTransitive(ss, s2, s3);
    var s4 := Invoke(sub, s3, DraftGenerator);
    ContinuesTransitive(ss, s3, s4);
    Flow(s4, Completed)
  }

  const MissingContent: PyError := ValueError("Email content not found in session state")

  /** `_run_async_impl`: the content check, then the reply or the new-email flow. */
  function Process(sub: SubAgents, ss: Session): (f: Flow)
    ensures Continues(ss, f.session)
    ensures f.outcome == Raised(MissingContent) <==> "email_content" !in ss.state
    ensures f.outcome.Raised? ==> f.outcome.error == MissingContent || f.outcome.error == KeyError("summary")
  {
    if "email_content" !in ss.state then Flow(ss, Raised(MissingContent))
    else if Truthy(Get(ss.state, "is_reply", Bool(false))) then ReplyFlow(sub, ss)
    else NewEmailFlow(sub, ss)
  }

  /** A run starting from the session `process_email` creates: no agent run, no event yet. */
  function Start(state: map<string, Value>): Session {
    Session(state, [], [])
  }

  /** The agents a run invoked. */
  function Invoked(sub: SubAgents, state: map<string, Value>): seq<Agent> {
    Agents(Process(sub, Start(state)).session.trace)
  }

  /** The label the new-email flow dispatches on. */
  function Label(sub: SubAgents, state: map<string, Value>): string {
    StripOneNewline(sub(ProblemCategorizer, state).finalText)
  }

  /** The state the handlers start in: the stored label, stripped of one newline. */
  function Labelled(sub: SubAgents, state: map<string, Value>): map<string, Value> {
    state["problem_type" := Str(Label(sub, state))]
  }

  /** The compliance checker's stripped answer on the refund path. */
  function ComplianceAnswer(sub: SubAgents, state: map<string, Value>): string {
    StripOneNewline(sub(ComplianceChecker, Labelled(sub, state)).finalText)
  }

  /** Without `email_content` the run raises `ValueError` before any sub-agent runs. */
  lemma MissingContentRaisesFirst(sub: SubAgents, ss: Session)
    requires "email_content" !in ss.state
    ensures Process(sub, ss) == Flow(ss, Raised(MissingContent))
  {
  }

  /** The agents each handler adds to the trace are the ones `HandlerAgents` lists for its label. */
  lemma DispatchAgents(sub: SubAgents, ss: Session, tag: string)
    ensures Agents(Dispatch(sub, ss, Str(tag)).trace)
         == Agents(ss.trace) + HandlerAgents(tag, StripOneNewline(sub(ComplianceChecker, ss.state).finalText))
  {
    if tag == "refund_request" {
      RefundAgents(sub, ss);
    } else if tag == "bug_report" {
      var s1 := Invoke(sub, ss, BugReportAgent);
      assert Agents(ss.trace) + [BugReportAgent] + [SolutionRetriever] == Agents(ss.trace) + [BugReportAgent, SolutionRetriever];
    }
  }

  /** The refund branch runs the checker, and the draft generator when the stripped answer is non-empty. */
  lemma RefundAgents(sub: SubAgents, ss: Session)
    ensures var answer := StripOneNewline(sub(ComplianceChecker, ss.state).finalText);
      Agents(RefundBranch(sub, ss).trace) == Agents(ss.trace) + [ComplianceChecker] + (if answer != "" then [DraftGenerator] else [])
  {
    var s1 := Invoke(sub, ss, ComplianceChecker);
    var s2 := s1.(state := StripNewlineAt(s1.state, "compliant"));
    assert s2.state["compliant"] == Str(StripOneNewline(sub(ComplianceChecker, ss.state).finalText));
    assert Agents(s2.trace) == Agents(ss.trace) + [ComplianceChecker];
  }

  /** The session the handlers start in: the categorizer has run and the label is stored. */
  function Categorized(sub: SubAgents, state: map<string, Value>): Session {
    Invoke(sub, Start(state), ProblemCategorizer).(state := Labelled(sub, state))
  }

  /** A new email runs the categorizer, the handler for its label and the draft generator. */
  lemma NewEmailShape(sub: SubAgents, state: map<string, Value>)
    requires "email_content" in state && !Truthy(Get(state, "is_reply", Bool(false)))
    ensures Process(sub, Start(state))
         == Flow(Invoke(sub, Dispatch(sub, Categorized(sub, state), Str(Label(sub, state))), DraftGenerator), Completed)
    ensures Agents(Categorized(sub, state).trace) == [ProblemCategorizer]
    ensures Invoked(sub, state)
         == Agents(Dispatch(sub, Categorized(sub, state), Str(Label(sub, state))).trace) + [DraftGenerator]
  {
    var s1 := Invoke(sub, Start(state), ProblemCategorizer);
    assert s1.state["problem_type"] == Str(sub(ProblemCategorizer, state).finalText);
    assert StripNewlineAt(s1.state, "problem_type") == Labelled(sub, state);
    assert Agents([]) == [];
  }

  /** The agents a new email's run invokes: the categorizer, the handler's agents, the draft generator. */
  function NewEmailAgents(handler: seq<Agent>): seq<Agent> {
    [ProblemCategorizer] + handler + [DraftGenerator]
  }

  /** The agents a handler invokes, as a function of the label and the compliance answer. */
  function HandlerAgents(tag: string, answer: string): seq<Agent> {
    if tag == "password_reset" || tag == "username_change" then [AccountManagement]
    else if tag == "refund_request" then [ComplianceChecker] + (if answer != "" then [DraftGenerator] else [])
    else if tag == "bug_report" then [BugReportAgent, SolutionRetriever]
    else [FaqAgent]
  }

  /** The agents the new-email flow invokes for each label: account requests get the account
      agent, bug reports the bug agent and the solution retriever, refunds the compliance
      checker and a draft when the answer is non-empty, everything else the FAQ agent; and the
      draft generator always comes last. */
  lemma NewEmailInvokes(sub: SubAgents, state: map<string, Value>)
    requires "email_content" in state && !Truthy(Get(state, "is_reply", Bool(false)))
    ensures Process(sub, Start(state)).outcome == Completed
    ensures Invoked(sub, state) == NewEmailAgents(HandlerAgents(Label(sub, state), ComplianceAnswer(sub, state)))
  {
    NewEmailShape(sub, state);
    HandlerInvokes(sub, state);
  }

  /** After the categorizer, the handler for the label adds exactly `HandlerAgents`. */
  lemma HandlerInvokes(sub: SubAgents, state: map<string, Value>)
    ensures Agents(Dispatch(sub, Categorized(sub, state), Str(Label(sub, state))).trace)
         == [ProblemCategorizer] + HandlerAgents(Label(sub, state), ComplianceAnswer(sub, state))
  {
    var s2 := Categorized(sub, state);
    assert Agents(s2.trace) == [ProblemCategorizer] by { assert Agents([]) == []; }
    assert s2.state == Labelled(sub, state);
    DispatchAgents(sub, s2, Label(sub, state));
  }


  /** Every new email is drafted, and the draft generator is the last agent to run. */
  lemma DraftGeneratorRunsLast(sub: SubAgents, state: map<string, Value>)
    requires "email_content" in state && !Truthy(Get(state, "is_reply", Bool(false)))
    ensures |Invoked(sub, state)| >= 3
    ensures Invoked(sub, state)[0] == ProblemCategorizer
    ensures Invoked(sub, state)[|Invoked(sub, state)| - 1] == DraftGenerator
  {
    NewEmailInvokes(sub, state);
  }

  /** How many times `a` occurs in `agents`. */
  function Count(agents: seq<Agent>, a: Agent): nat {
    multiset(agents)[a]
  }

  /** On the refund path the draft generator runs twice exactly when the stripped compliance
      answer is a non-empty string: it is string truthiness, so `"False"` drafts twice too. */
  lemma RefundDraftsTwiceWhenAnswered(sub: SubAgents, state: map<string, Value>)
    requires "email_content" in state && !Truthy(Get(state, "is_reply", Bool(false)))
    requires Label(sub, state) == "refund_request"
    ensures Count(Invoked(sub, state), DraftGenerator) == 2 <==> ComplianceAnswer(sub, state) != ""
    ensures Count(Invoked(sub, state), DraftGenerator) >= 1
  {
    NewEmailInvokes(sub, state);
  }

  /** The answer `"False\n"` is stripped to `"False"`, which is truthy: the refund is drafted twice. */
  lemma FalseAnswerStillDrafts(sub: SubAgents, state: map<string, Value>)
    requires "email_content" in state && !Truthy(Get(state, "is_reply", Bool(false)))
    requires Label(sub, state) == "refund_request"
    requires sub(ComplianceChecker, Labelled(sub, state)).finalText == "False\n"
    ensures Count(Invoked(sub, state), DraftGenerator) == 2
  {
    assert EndsWith("False\n", "\n");
    assert ComplianceAnswer(sub, state) == "False";
    RefundDraftsTwiceWhenAnswered(sub, state);
  }

  /** The reply flow never drafts: it runs the categorizer alone, or, for a persistent technical
      issue, the categorizer and the solution retriever, and then the IT task generator only when
      the session already holds a `summary`, since no sub-agent writes one. */
  lemma ReplyFlowNeverDrafts(sub: SubAgents, state: map<string, Value>)
    requires "email_content" in state && Truthy(Get(state, "is_reply", Bool(false)))
    ensures DraftGenerator !in Invoked(sub, state)
    ensures !Truthy(Get(state, "persistent_tech_issue", NoneValue)) ==>
      Invoked(sub, state) == [ProblemCategorizer] && Process(sub, Start(state)).outcome == Completed
    ensures Truthy(Get(state, "persistent_tech_issue", NoneValue)) && "summary" !in state ==>
      Invoked(sub, state) == [ProblemCategorizer, SolutionRetriever]
      && Process(sub, Start(state)).outcome == Raised(KeyError("summary"))
    ensures Truthy(Get(state, "persistent_tech_issue", NoneValue)) && "summary" in state ==>
      Invoked(sub, state) == [ProblemCategorizer, SolutionRetriever, ItTaskGenerator]
      && Process(sub, Start(state)).outcome == Completed
  {
    assert Process(sub, Start(state)) == ReplyFlow(sub, Start(state));
    var s1 := Invoke(sub, Start(state), ProblemCategorizer);
    assert Agents(s1.trace) == [ProblemCategorizer] by { assert Agents([]) == []; }
    assert Get(s1.state, "persistent_tech_issue", NoneValue) == Get(state, "persistent_tech_issue", NoneValue);
    if Truthy(Get(state, "persistent_tech_issue", NoneValue)) {
      var s2 := Invoke(sub, s1, SolutionRetriever);
      assert Agents(s2.trace) == [ProblemCategorizer, SolutionRetriever];
      assert "summary" in s2.state <==> "summary" in state;
      if "summary" in state {
        assert Agents(Invoke(sub, s2, ItTaskGenerator).trace) == [ProblemCategorizer, SolutionRetriever, ItTaskGenerator];
      }
    }
  }

  /** Every flow keeps the forwarded events in step with the trace: the events are yielded in
      invocation order, all of one sub-agent's before the next one's. */
  lemma ProcessForwards(sub: SubAgents, ss: Session)
    requires Forwarded(ss)
    ensures Forwarded(Process(sub, ss).session)
  {
    if "email_content" in ss.state {
      var s1 := Invoke(sub, ss, ProblemCategorizer);
      InvokeForwards(sub, ss, ProblemCategorizer);
      if Truthy(Get(ss.state, "is_reply", Bool(false))) {
        var s2 := Invoke(sub, s1, SolutionRetriever);
        InvokeForwards(sub, s1, SolutionRetriever);
        InvokeForwards(sub, s2, ItTaskGenerator);
      } else {
        NewEmailForwards(sub, ss, s1);
      }
    }
  }

  lemma NewEmailForwards(sub: SubAgents, ss: Session, s1: Session)
    requires Forwarded(s1) && s1 == Invoke(sub, ss, ProblemCategorizer)
    ensures Forwarded(NewEmailFlow(sub, ss).session)
  {
    var s2 := s1.(state := StripNewlineAt(s1.state, "problem_type"));
    var tag := s2.state["problem_type"];
    DispatchForwards(sub, s2, tag);
    InvokeForwards(sub, Dispatch(sub, s2, tag), DraftGenerator);
  }

  lemma DispatchForwards(sub: SubAgents, ss: Session, tag: Value)
    requires Forwarded(ss)
    ensures Forwarded(Dispatch(sub, ss, tag))
  {
    InvokeForwards(sub, ss, AccountManagement);
    InvokeForwards(sub, ss, FaqAgent);
    InvokeForwards(sub, ss, BugReportAgent);
    InvokeForwards(sub, Invoke(sub, ss, BugReportAgent), SolutionRetriever);
    var s1 := Invoke(sub, ss, ComplianceChecker);
    InvokeForwards(sub, ss, ComplianceChecker);
    InvokeForwards(sub, s1.(state := StripNewlineAt(s1.state, "compliant")), DraftGenerator);
  }

  /** `EmailProcessorAgent` running over one session: the session dictionary it reads and
      rewrites, the sub-agents it has invoked and the events it has yielded. */
  class EmailProcessorAgent {
    const subAgents: SubAgents
    var state: map<string, Value>
    var trace: seq<Invocation>
    var yielded: seq<Event>

    function Snapshot(): Session
      reads this
    {
      Session(state, trace, yielded)
    }

    /** A run over the session `process_email` created. */
    constructor (subAgents: SubAgents, initial: map<string, Value>)
      ensures this.subAgents == subAgents
      ensures Snapshot() == Start(initial)
    {
      this.subAgents := subAgents;
      state := initial;
      trace := [];
      yielded := [];
    }

    /** Running one sub-agent: each of its events is yielded as it comes, and then its final
        text is stored under its `output_key`. */
    method RunAgent(a: Agent)
      modifies this
      ensures Snapshot() == Invoke(subAgents, old(Snapshot()), a)
    {
      var run := subAgents(a, state);
      var i := 0;
      while i < |run.events|
        invariant 0 <= i <= |run.events|
        invariant yielded == old(yielded) + run.events[..i]
        invariant state == old(state) && trace == old(trace)
      {
        yielded := yielded + [run.events[i]];
        i := i + 1;
      }
      assert run.events[..i] == run.events;
      state := state[OutputKey(a) := Str(run.finalText)];
      trace := trace + [Invocation(a, run.events)];
    }

    /** Dropping the last character of the value under `key`, in place, when it is a newline. */
    method StripNewline(key: string)
      requires key in state && state[key].Str?
      modifies this
      ensures state == StripNewlineAt(old(state), key)
      ensures trace == old(trace) && yielded == old(yielded)
    {
      var s := state[key].s;
      if EndsWith(s, "\n") {
        state := state[key := Str(s[..|s| - 1])];
      } else {
        assert state[key := Str(s)] == state;
      }
    }

    method HandleReplyFlow() returns (outcome: Outcome)
      modifies this
      ensures Flow(Snapshot(), outcome) == ReplyFlow(subAgents, old(Snapshot()))
    {
      RunAgent(ProblemCategorizer);
      if Truthy(Get(state, "persistent_tech_issue", NoneValue)) {
        RunAgent(SolutionRetriever);
        if "summary" !in state {
          return Raised(KeyError("summary"));
        }
        RunAgent(ItTaskGenerator);
      }
      outcome := Completed;
    }

    method HandleRefund()
      modifies this
      ensures Snapshot() == RefundBranch(subAgents, old(Snapshot()))
    {
      RunAgent(ComplianceChecker);
      StripNewline("compliant");
      if Truthy(state["compliant"]) {
        RunAgent(DraftGenerator);
      }
    }

    method HandleNewEmailFlow() returns (outcome: Outcome)
      modifies this
      ensures Flow(Snapshot(), outcome) == NewEmailFlow(subAgents, old(Snapshot()))
    {
      RunAgent(ProblemCategorizer);
      StripNewline("problem_type");
      var problemType := state["problem_type"];
      ghost var s2 := Snapshot();
      if problemType == Str("password_reset") || problemType == Str("username_change") {
        RunAgent(AccountManagement);
      } else if problemType == Str("refund_request") {
        HandleRefund();
      } else if problemType == Str("bug_report") {
        RunAgent(BugReportAgent);
        RunAgent(SolutionRetriever);
      } else {
        RunAgent(FaqAgent);
      }
      assert Snapshot() == Dispatch(subAgents, s2, problemType);
      RunAgent(DraftGenerator);
      outcome := Completed;
    }

    /** `_run_async_impl`. */
    method RunAsyncImpl() returns (outcome: Outcome)
      modifies this
      ensures Flow(Snapshot(), outcome) == Process(subAgents, old(Snapshot()))
    {
      if "email_content" !in state {
        return Raised(MissingContent);
      }
      if Truthy(Get(state, "is_reply", Bool(false))) {
        outcome := HandleReplyFlow();
      } else {
        outcome := HandleNewEmailFlow();
      }
    }
  }
}
