# Support-email classification and routing, in Dafny

This project models the core of an AI support-email assistant. An incoming email is classified
by a language model into a problem type and routed to a handler. The handler produces its part
of the answer: an account link, a bug analysis, an FAQ answer or a compliance verdict. A draft
reply is then generated. Replies to earlier emails go to a solution lookup instead.

The repository holds three implementations of that pipeline, and all three are modelled:

- `backend/lang.py`, the backend revision of the LangGraph workflow;
- `ai_agents/lang.py`, the agents revision of the same workflow. It strips model replies, splits
  the bug analysis on `":"`, and sends no retrieved context;
- `ai_agents/orchestrator.py`, an agent orchestrator that runs LLM sub-agents in sequence over a
  shared session dictionary.

Around them the project models:

- Gmail message parsing and reply construction (`backend/services/gmail_service.py`);
- the retrieval context builder (`backend/services/RAG/rag_service.py`);
- the daily vector-store update (`backend/services/RAG/update_vectorstore.py`).

Modules:

- `PyCore`: `Option`, `Result` and the Python exceptions the code can raise.
- `PyText`: ASCII models of `str.lower`, `strip`, `splitlines`, `split`, `join`, `in` and `str(n)`.
- `Email`: the workflow state `EmailState`, the prompts (which template, which fields), the
  one-key updates a node returns, and the model/token/search collaborators.
- `SharedNodes`: the router and `account_management`. Both `lang.py` revisions define these
  identically.
- `BackendLang` and `AgentsLang`: the node functions of each revision.
- `LangGraph`: `StateGraph` as a class built call by call, the transition table, the graph run
  as a function of a node table, and end-to-end lemmas per label. The run lemmas hold for any
  node table that satisfies `IsWorkflow`. `Compile` builds one, and `CompileIsWorkflow` proves
  that it does.
- `Orchestrator`: `EmailProcessorAgent` as a class over the session dictionary, the trace of
  invoked sub-agents and the forwarded events. Its methods are proved equal to the flow
  functions, and the lemmas are stated about those functions.
- `Gmail`, `RagService` and `VectorstoreUpdate`: the three services above.

The language model, the random token, the vector store's search, the clock, the file system and
the text splitter are parameters. A LangGraph node that assigns `state.link` does so on its own
copy of the state. Only the returned dictionary reaches the graph, so each node is a function
from the state to one update.

Notes on the code as written:

- In the backend revision `bug_report` always raises `NameError`, because the GitHub client `g`
  is commented out at line 23.
- In both revisions a refund request ends in `generate_draft` with `prompt` unbound. For the backend this
  takes `call_gemini` to return the full reply (see Left out). As written, the backend's `call_gemini` is
  a generator function, so `check_compliance` would already fail: it calls `.lower()` on a generator,
  which raises `AttributeError`.
- In the orchestrator's reply flow, `state["summary"]` is read although no sub-agent writes it.
- In the orchestrator, the compliance answer is a string, so `"False"` counts as true.

## Model

| member | source | states |
|---|---|---|
| Email.InitialState | backend/lang.py:299-306 | the workflow starts as a non-reply with no label, link or draft, and carries the four inputs |
| Email.ApplySetsOneField | backend/lang.py:292 | merging a node's update sets exactly the field that update names; the email inputs, the reply flags, `summary` and `jira_ticket` and every other field keep their values |
| SharedNodes.RouteAfterCategorization | backend/lang.py:237-250 | a reply always goes to `retrieve_solutions`; no label routes back to categorisation or straight to `generate_draft` |
| SharedNodes.CategoryIsExactLabel | backend/lang.py:241-250 | each routed category is exactly one label, compared for equality |
| SharedNodes.RoutingTable | ai_agents/lang.py:207-220 | both directions of the routing table: which labels reach account management, the bug node, compliance and FAQ; everything else, `None` included, goes to `retrieve_solutions` |
| SharedNodes.TrailingNewlineIsUnknownLabel | backend/lang.py:247-250 | `"faq\n"` is not the FAQ label and goes to `retrieve_solutions` |
| SharedNodes.TokenLink | backend/lang.py:95-99 | the link starts with the base URL, ends with the token, and is the base, `?token=` and the token |
| SharedNodes.LinkToken | backend/lang.py:98-99 | the token read back from a link has 16 characters |
| SharedNodes.LinkTokenRoundTrip | ai_agents/lang.py:76-80 | for a 16-character `[a-z0-9]` token, the token can be read back out of the link, and the rest of the link is the fixed prefix |
| SharedNodes.AccountLink | backend/lang.py:94-114 | `password` in the lower-cased label gives the reset link; otherwise `username` gives the change link; with neither, no link (both directions) |
| SharedNodes.AccountLinkIgnoresCase | ai_agents/lang.py:75-83 | the substring tests ignore case |
| SharedNodes.AccountManagementNode | backend/lang.py:92-116 | with no label the node raises `AttributeError`; otherwise it returns only the `link` key |
| SharedNodes.RoutedToAccountManagementGetsLink | backend/lang.py:94-110 | every state routed to account management gets a link: reset for `password_reset`, change for `username_change` |
| SharedNodes.RefundIsTheOnlyHandledLabelWithoutTemplate | backend/lang.py:167-221 | among routed labels, the one without a draft template is exactly the one sent to `check_compliance` |
| BackendLang.CategorizeProblemNode | backend/lang.py:78-89 | the label is the model's reply, untrimmed |
| BackendLang.BugReportNode | backend/lang.py:118-138 | the node always raises `NameError` for `g` |
| BackendLang.FaqNode | backend/lang.py:140-151 | the answer is the reply to the question with the context retrieved for it (5 passages) |
| BackendLang.FaqContextNumbersPassages | backend/lang.py:140-149 | the FAQ prompt carries the five passages most similar to the email body, as blocks numbered from 1 in search order |
| BackendLang.ComplianceVerdict | backend/lang.py:161 | compliant exactly when the lower-cased reply is `true`, so only 4-character replies qualify |
| BackendLang.CheckComplianceNode | backend/lang.py:153-162 | the verdict of the reply to a prompt carrying the request, the sender and the retrieved refund policy |
| BackendLang.TrueWithNewlineIsNotCompliant | backend/lang.py:161 | `"True\n"` is not compliant |
| BackendLang.CapitalisedTrueIsCompliant | backend/lang.py:161 | `True`, `TRUE` and `true` are compliant |
| BackendLang.DraftPrompt | backend/lang.py:167-220 | a prompt is bound exactly for the labels with a template; otherwise `prompt` is unbound |
| BackendLang.DraftTemplates | backend/lang.py:167-220 | the template and embedded fields selected by each of the four labels; the bug template acknowledges the user by name |
| BackendLang.GenerateDraftNode | backend/lang.py:164-222 | the draft is the reply to the selected prompt, or `UnboundLocalError` without a template |
| BackendLang.RetrieveSolutionsNode | backend/lang.py:224-229 | the solutions are the line split of the reply |
| BackendLang.SolutionsAreReplyLines | backend/lang.py:228 | no solution holds a line boundary; with `\n` as the only boundary and no final one, joining with `\n` gives the reply back |
| AgentsLang.CategorizeProblemNode | ai_agents/lang.py:51-70 | the label is the stripped reply |
| AgentsLang.CallGemini | ai_agents/lang.py:51-54 | the result is a slice of the model's reply with only whitespace cut off either side, and stripping it again changes nothing |
| AgentsLang.PaddedLabelRoutesLikeLabel | ai_agents/lang.py:54 | a label with whitespace around it routes exactly as the bare label |
| AgentsLang.BugBody | ai_agents/lang.py:115 | `split(":")[1]` exists exactly when the reply holds `:`, otherwise `IndexError`; it is the text after the first `:`, up to the next `:` or the end |
| AgentsLang.BugReportNode | ai_agents/lang.py:99-120 | fails with `IndexError` exactly when the stripped analysis has no `:`; otherwise it returns the whole analysis, not the piece |
| AgentsLang.FaqNode | ai_agents/lang.py:122-131 | the answer is the stripped reply to a prompt carrying only the question |
| AgentsLang.FaqAnswerIsStrippedReply | ai_agents/lang.py:122-131 | the FAQ answer is already stripped, and two states with the same email body get the same answer |
| AgentsLang.ComplianceVerdict | ai_agents/lang.py:138-139 | compliant exactly when the stripped, lower-cased reply is `true` |
| AgentsLang.CheckComplianceNode | ai_agents/lang.py:133-140 | the verdict of the reply to a prompt carrying the request and the sender |
| AgentsLang.TrueSpellingsLower | ai_agents/lang.py:139 | `TRUE`, `True` and `true` lower to `true` |
| AgentsLang.PaddedTrueIsCompliant | ai_agents/lang.py:54 | whitespace around `true` in any casing is still compliant |
| AgentsLang.OtherRepliesAreNotCompliant | ai_agents/lang.py:139 | a reply that is not 4 characters once stripped is not compliant |
| AgentsLang.DraftPrompt | ai_agents/lang.py:145-190 | a prompt is bound exactly for the labels with a template; otherwise `prompt` is unbound |
| AgentsLang.DraftTemplates | ai_agents/lang.py:145-190 | the template selected by each label; the bug template embeds the bug analysis |
| AgentsLang.GenerateDraftNode | ai_agents/lang.py:142-192 | the draft is the stripped reply to the selected prompt, or `UnboundLocalError` |
| AgentsLang.RetrieveSolutionsNode | ai_agents/lang.py:194-199 | the solutions are the line split of the stripped reply |
| AgentsLang.SolutionsAreStrippedReplyLines | ai_agents/lang.py:198 | no solution holds a line boundary; with `\n` as the only boundary, joining with `\n` gives the stripped reply back |
| LangGraph.StateGraph.constructor | backend/lang.py:256 | a new graph has no nodes, no entry point and no edges |
| LangGraph.StateGraph.AddNode | backend/lang.py:259-265 | registers a node and changes nothing else |
| LangGraph.StateGraph.SetEntryPoint | backend/lang.py:269 | sets the entry point and changes nothing else |
| LangGraph.StateGraph.AddConditionalEdges | backend/lang.py:272-282 | records the path map of the branch and changes nothing else |
| LangGraph.StateGraph.AddEdge | backend/lang.py:285-289 | adds one edge and changes nothing else |
| LangGraph.BuildGraph | ai_agents/lang.py:226-259 | the calls build exactly the email workflow's topology |
| LangGraph.EmailWorkflowWellFormed | backend/lang.py:256-289 | every name the graph mentions is a registered node, and the entry is `categorize_problem` |
| LangGraph.Step | backend/lang.py:272-289 | no transition leads back to `categorize_problem` |
| LangGraph.PathMapFollowsRouter | backend/lang.py:272-282 | every router answer is a key of the path map and maps to the node of the same name |
| LangGraph.StepIsWorkflow | backend/lang.py:285-289 | the built graph offers exactly the transition table: each handler goes to `generate_draft`, `generate_draft` to END, and `retrieve_solutions` nowhere |
| LangGraph.Rank | backend/lang.py:256-289 | every node has a height from 1 to 3 |
| LangGraph.EdgesDescend | ai_agents/lang.py:242-259 | every edge and branch leads to a lower node |
| LangGraph.PathsDescend | backend/lang.py:256-289 | no path returns to its start: the graph is acyclic |
| LangGraph.CompileIsWorkflow | backend/lang.py:259-265 | the compiled node table is the one the revision registers |
| LangGraph.CompileBackend | backend/lang.py:259-265 | the backend table runs the backend node functions |
| LangGraph.CompileAgents | ai_agents/lang.py:229-235 | the agents table runs the agents node functions |
| LangGraph.BackendStep | backend/lang.py:259-265 | each backend node returns only its own key; only account management, the bug node and the draft node can fail, and the bug node always does |
| LangGraph.AgentsStep | ai_agents/lang.py:229-235 | each agents node returns only its own key; only account management, the bug node and the draft node can fail |
| LangGraph.Compile | backend/lang.py:292 | in the compiled table of either revision every node writes only its own key, and only those three nodes can fail |
| LangGraph.RunFrom | backend/lang.py:292 | a run starts at its node and visits at most as many nodes as the node's height |
| LangGraph.ProcessEmail | ai_agents/lang.py:269-277 | a run starts at `categorize_problem` and visits at most three nodes |
| LangGraph.RunFollowsWorkflow | backend/lang.py:272-289 | for any node functions, consecutive visited nodes are edges of the graph and a completed run ends in `generate_draft` or `retrieve_solutions` |
| LangGraph.RunContinues | backend/lang.py:284-289 | a node that returns an update hands the merged state to its successor |
| LangGraph.RunAfterCategorization | backend/lang.py:237-250 | after categorisation the run continues at the routed node, with the label stored |
| LangGraph.ComplianceStep | backend/lang.py:153-162 | `check_compliance` sets only the verdict |
| LangGraph.FaqStep | ai_agents/lang.py:122-131 | `faq_handler` sets only the answer |
| LangGraph.DraftRun | backend/lang.py:164-222 | `generate_draft` writes the draft and ends the run, or raises `UnboundLocalError` and ends it |
| LangGraph.SolutionsRun | backend/lang.py:224-229 | `retrieve_solutions` stores solutions, leaves the draft unchanged and ends the run |
| LangGraph.ReplyOnlyRetrievesSolutions | backend/lang.py:237-239 | a reply visits only categorisation and `retrieve_solutions`, and no draft is written |
| LangGraph.AccountRequestGetsLinkAndDraft | backend/lang.py:241-242 | password and username requests visit account management and the draft node, and end with a link and a draft |
| LangGraph.RefundRequestFailsInDraft | backend/lang.py:245-246 | a refund request passes compliance and then fails in `generate_draft` with `UnboundLocalError` |
| LangGraph.FaqGetsAnswerAndDraft | ai_agents/lang.py:217-218 | an FAQ visits the FAQ handler and the draft node, and ends with an answer and a draft |
| LangGraph.BackendBugReportRaises | backend/lang.py:126 | in the backend revision a bug report stops in `bug_report` with `NameError` |
| LangGraph.AgentsBugStep | ai_agents/lang.py:110-120 | the agents bug node returns the whole stripped analysis when it holds `:` |
| LangGraph.AgentsBugReportDrafted | ai_agents/lang.py:213-214 | in the agents revision a bug report with `:` in its analysis is analysed and drafted |
| LangGraph.AgentsBugReportWithoutColonRaises | ai_agents/lang.py:115 | an analysis without `:` stops the run in `bug_report` with `IndexError` |
| LangGraph.UnknownLabelGetsNoDraft | backend/lang.py:249-250 | an unknown label visits only `retrieve_solutions` and no draft is written |
| Orchestrator.Get | ai_agents/orchestrator.py:80 | a lookup with a default gives the stored value, or the default when the key is absent |
| Orchestrator.Truthy | ai_agents/orchestrator.py:84 | Python truthiness of a session value: false exactly for `""`, `False`, `0` and `None` |
| Orchestrator.OutputKey | ai_agents/orchestrator.py:174-238 | no sub-agent writes the content, reply flag, persistent-issue flag or `summary` |
| Orchestrator.OutputKeysDistinct | ai_agents/orchestrator.py:174-238 | distinct sub-agents write distinct keys, and conversely |
| Orchestrator.Agents | ai_agents/orchestrator.py:97-168 | the invoked agents, one per trace entry, in order |
| Orchestrator.Invoke | ai_agents/orchestrator.py:97-98 | running a sub-agent appends it to the trace and stores its final text under its output key |
| Orchestrator.InvokeForwards | ai_agents/orchestrator.py:116-117 | its events are yielded after all earlier events, and the yielded events stay the trace's events |
| Orchestrator.StripOneNewline | ai_agents/orchestrator.py:122-123 | one trailing `\n` is removed when present; otherwise the text is unchanged |
| Orchestrator.StripsOnlyOneNewline | ai_agents/orchestrator.py:122-123 | `"x\n\n"` becomes `"x\n"` |
| Orchestrator.StripNewlineAt | ai_agents/orchestrator.py:144-145 | only the named key changes, and it loses one trailing newline |
| Orchestrator.ReplyFlow | ai_agents/orchestrator.py:95-112 | the reply flow runs the categorizer first, only adds to the trace and the events, keeps every key no sub-agent writes, and can only raise `KeyError` for `summary` |
| Orchestrator.RefundBranch | ai_agents/orchestrator.py:138-153 | the refund branch runs the compliance checker first and at most one more agent, only adds to the trace and the events, and keeps every key no sub-agent writes |
| Orchestrator.Dispatch | ai_agents/orchestrator.py:130-164 | every handler branch runs one or two agents, only adds to the trace and the events, and keeps every key no sub-agent writes |
| Orchestrator.NewEmailFlow | ai_agents/orchestrator.py:114-171 | the new-email flow always completes, runs three or four agents with the categorizer first and the draft generator last, and keeps every key no sub-agent writes |
| Orchestrator.Process | ai_agents/orchestrator.py:70-93 | the run raises `ValueError` exactly when `email_content` is missing, can otherwise only raise `KeyError` for `summary`, and never rewrites a key no sub-agent writes, the email content included |
| Orchestrator.MissingContentRaisesFirst | ai_agents/orchestrator.py:73-74 | without `email_content` the run raises `ValueError` before any sub-agent runs |
| Orchestrator.DispatchAgents | ai_agents/orchestrator.py:130-164 | each handler adds exactly the agents `HandlerAgents` lists: account labels the account agent; `bug_report` the bug agent then the solution retriever; refund the checker, and the draft generator when the stripped answer is non-empty; anything else the FAQ agent |
| Orchestrator.RefundAgents | ai_agents/orchestrator.py:138-153 | the refund branch runs the checker, then the draft generator exactly when the stripped answer is a non-empty string |
| Orchestrator.NewEmailShape | ai_agents/orchestrator.py:114-171 | a new email runs the categorizer, the handlers on the stripped label, and then the draft generator |
| Orchestrator.NewEmailInvokes | ai_agents/orchestrator.py:114-168 | the agents a new email invokes are the categorizer, the label's handler agents and the draft generator, and the flow completes |
| Orchestrator.HandlerInvokes | ai_agents/orchestrator.py:130-164 | after the categorizer, the label's handler adds exactly its handler agents |
| Orchestrator.DraftGeneratorRunsLast | ai_agents/orchestrator.py:166-168 | every new email runs at least three agents, the categorizer first and the draft generator last |
| Orchestrator.RefundDraftsTwiceWhenAnswered | ai_agents/orchestrator.py:149-151 | on the refund path the draft generator runs twice exactly when the stripped answer is non-empty, and at least once always |
| Orchestrator.FalseAnswerStillDrafts | ai_agents/orchestrator.py:144-151 | the answer `"False\n"` still makes the draft generator run twice |
| Orchestrator.ReplyFlowNeverDrafts | ai_agents/orchestrator.py:95-112 | the reply flow never runs the draft generator; without a persistent issue only the categorizer runs; with one and no `summary` it raises `KeyError` |
| Orchestrator.ProcessForwards | ai_agents/orchestrator.py:84-93 | every flow yields exactly the invoked agents' events, agent after agent |
| Orchestrator.NewEmailForwards | ai_agents/orchestrator.py:114-168 | the new-email flow forwards every event in order |
| Orchestrator.DispatchForwards | ai_agents/orchestrator.py:130-164 | every handler branch forwards every event in order |
| Orchestrator.EmailProcessorAgent.constructor | ai_agents/orchestrator.py:256-269 | a run starts on the initial session with nothing invoked and nothing yielded |
| Orchestrator.EmailProcessorAgent.RunAgent | ai_agents/orchestrator.py:97-98 | yields the agent's events one by one, stores its final text under its output key and records it, as `Invoke` states |
| Orchestrator.EmailProcessorAgent.StripNewline | ai_agents/orchestrator.py:122-123 | rewrites the key in place as `StripNewlineAt` states, and leaves the trace and the events unchanged |
| Orchestrator.EmailProcessorAgent.HandleReplyFlow | ai_agents/orchestrator.py:95-112 | leaves the reply flow's session and outcome |
| Orchestrator.EmailProcessorAgent.HandleRefund | ai_agents/orchestrator.py:138-153 | leaves the refund branch's session |
| Orchestrator.EmailProcessorAgent.HandleNewEmailFlow | ai_agents/orchestrator.py:114-171 | leaves the new-email flow's session and outcome |
| Orchestrator.EmailProcessorAgent.RunAsyncImpl | ai_agents/orchestrator.py:70-93 | leaves the session and outcome of the whole run |
| Gmail.FirstHeader | backend/services/gmail_service.py:76 | the value of the first header with exactly that name, or `None` exactly when no header has it |
| Gmail.FirstHeaderIsFirstMatch | backend/services/gmail_service.py:76 | conversely, the first header with the name is the one returned |
| Gmail.FirstHeaderIgnoresLaterHeaders | backend/services/gmail_service.py:76 | headers after the first match do not change the lookup |
| Gmail.FromMatch | backend/services/gmail_service.py:78 | the regex fails exactly when there is no split point; otherwise group 1 is the longest that lets the rest match |
| Gmail.Sender | backend/services/gmail_service.py:78-84 | a match gives the stripped groups; no match gives an empty name and the stripped header |
| Gmail.NameAndAddress | backend/services/gmail_service.py:78-82 | `Name <address>` gives the stripped name and address |
| Gmail.NoAngleBrackets | backend/services/gmail_service.py:83-84 | without a closing `>` the name is empty and the address is the stripped header |
| Gmail.MissingFromGivesEmptySender | backend/services/gmail_service.py:77 | with no `From` header both the name and the address are empty |
| Gmail.TrailingNewlineStillSplits | backend/services/gmail_service.py:78 | a header ending in `>\n` still matches |
| Gmail.ClosingAt | backend/services/gmail_service.py:78 | the closing `>` is the last character or the one before a final newline; when such a position exists it is the one found, and there is at most one |
| Gmail.LastSplit | backend/services/gmail_service.py:78 | the split point found is the last one at or below the bound, and none means there is no split point up to it |
| Gmail.FirstPlainPart | backend/services/gmail_service.py:90-91 | the first top-level `text/plain` part, or none exactly when no top-level part has that type |
| Gmail.PlainText | backend/services/gmail_service.py:88-94 | the loop returns the first plain part's text, or `""` |
| Gmail.NestedPlainTextIsIgnored | backend/services/gmail_service.py:88-91 | a plain part nested in `multipart/alternative` is not found |
| Gmail.ParseMessage | backend/services/gmail_service.py:69-106 | the parsed fields: ids, the snippet defaulting to `''`, the first-match headers, the split sender and the plain text |
| Gmail.MimeText.constructor | backend/services/gmail_service.py:35 | the message holds the text and no header yet |
| Gmail.MimeText.SetHeader | backend/services/gmail_service.py:36-40 | assigning a header appends it and keeps the body |
| Gmail.CreateReplyMessage | backend/services/gmail_service.py:34-46 | the reply carries the text, the thread id unchanged, and the headers `to`, `Re: ` + subject, the original id twice and the date |
| Gmail.ReplyHeadersReadBack | backend/services/gmail_service.py:37-39 | the subject reads back as `Re: ` + subject, and both threading headers as the original id |
| Gmail.ReplyToReplyStacksPrefix | backend/services/gmail_service.py:37 | the prefix is added unconditionally: the `subject` header of a reply to a `Re: ` subject reads back starting with `Re: Re: ` |
| RagService.SourceLabel | backend/services/RAG/rag_service.py:31 | the `source` metadata, or `Sconosciuta` without it |
| RagService.Block | backend/services/RAG/rag_service.py:31 | a block opens with a line naming the passage number and its source, and closes with the passage text on lines of its own |
| RagService.Context | backend/services/RAG/rag_service.py:28-31 | the context is empty exactly when there are no passages; otherwise it starts with block 1 for the first passage and ends with the block of the last one, numbered by its position |
| RagService.NumberedFromSnoc | backend/services/RAG/rag_service.py:30-31 | appending a passage appends its block with the next number |
| RagService.ContextIsNumberedBlocks | backend/services/RAG/rag_service.py:28-35 | the context is the in-order blocks numbered from 1, and `""` for no passages |
| RagService.BuildContext | backend/services/RAG/rag_service.py:28-35 | the loop builds exactly that context |
| RagService.GenerateContext | backend/services/RAG/rag_service.py:24-40 | the context of the 5 passages most similar to the message |
| VectorstoreUpdate.TwoDigits | backend/services/RAG/update_vectorstore.py:14 | a month or a day is printed as two decimal digits |
| VectorstoreUpdate.IsoDate | backend/services/RAG/update_vectorstore.py:14 | the date text is the year's digits, a dash, the month's two digits, a dash and the day's two digits |
| VectorstoreUpdate.TodayFilename | backend/services/RAG/update_vectorstore.py:13-15 | the file is `../../conversations/conversations_` + date + `.json` |
| VectorstoreUpdate.PathJoin | backend/services/RAG/update_vectorstore.py:15 | the joined path ends with its second part |
| VectorstoreUpdate.ConversationPath | backend/services/RAG/update_vectorstore.py:15 | the file lies in the conversation directory, after a `/` |
| VectorstoreUpdate.DateTextInjective | backend/services/RAG/update_vectorstore.py:14 | a date text can be read back into year, month and day |
| VectorstoreUpdate.DigitCharInjective | backend/services/RAG/update_vectorstore.py:14 | different digits print differently |
| VectorstoreUpdate.NatToStringInjective | backend/services/RAG/update_vectorstore.py:14 | different numbers print differently |
| VectorstoreUpdate.TwoDigitsInjective | backend/services/RAG/update_vectorstore.py:14 | different months or days print differently |
| VectorstoreUpdate.IsoDateInjective | backend/services/RAG/update_vectorstore.py:14 | different dates print differently |
| VectorstoreUpdate.SameAffixes | backend/services/RAG/update_vectorstore.py:15 | names with the same prefix and suffix have the same date part |
| VectorstoreUpdate.DistinctDatesDistinctFiles | backend/services/RAG/update_vectorstore.py:13-15 | different days read different conversation files |
| VectorstoreUpdate.MessagesTextAppend | backend/services/RAG/update_vectorstore.py:29-30 | the text of two runs of messages is the first's text followed by the second's |
| VectorstoreUpdate.MessagesText | backend/services/RAG/update_vectorstore.py:29-30 | the messages' text is empty exactly when there are no messages |
| VectorstoreUpdate.MessagesTextAt | backend/services/RAG/update_vectorstore.py:29-30 | the messages' text is the blocks before message k, then k's block, then the blocks after |
| VectorstoreUpdate.ConversationText | backend/services/RAG/update_vectorstore.py:28-30 | a thread's text starts with `Subject: ` + subject + a blank line, and is that line alone exactly when the thread has no messages |
| VectorstoreUpdate.FirstMessageFollowsSubject | backend/services/RAG/update_vectorstore.py:28-30 | the first message's block comes right after the subject line |
| VectorstoreUpdate.MessageBlockPosition | backend/services/RAG/update_vectorstore.py:28-30 | a conversation is its subject line, then the blocks before message k, then k's block, then the blocks after |
| VectorstoreUpdate.Conversation | backend/services/RAG/update_vectorstore.py:28-30 | the inner loop builds the thread's conversation text |
| VectorstoreUpdate.AllTexts | backend/services/RAG/update_vectorstore.py:26-31 | exactly one text per thread, in file order, each the thread's conversation text |
| VectorstoreUpdate.UpdateFromToday | backend/services/RAG/update_vectorstore.py:17-52 | no file exactly when nothing is read; no documents exactly when the split is empty; otherwise the saved index is the existing one, or an empty one, followed by the documents |
| VectorstoreUpdate.Texts | backend/services/RAG/update_vectorstore.py:26-31 | one text per thread |
| VectorstoreUpdate.TextsAreConversations | backend/services/RAG/update_vectorstore.py:26-31 | any list holding each thread's conversation text, in file order, is the file's texts |
| VectorstoreUpdate.TextsAppend | backend/services/RAG/update_vectorstore.py:27 | the texts of two runs of threads are those of each in turn |
| PyText.LowerChar | backend/lang.py:94 | an upper-case ASCII letter becomes its lower-case letter (code + 32); any other character is unchanged |
| PyText.Lower | backend/lang.py:94 | `lower()` keeps the length, turns each upper-case letter into its lower-case letter, leaves no upper-case letter and changes nothing else |
| PyText.LowerOfLower | backend/lang.py:94 | lower-casing text that has no upper-case letter changes nothing |
| PyText.Strip | ai_agents/lang.py:54 | `strip()` is no longer than its input and neither starts nor ends with whitespace |
| PyText.StripSpec | ai_agents/lang.py:54 | `strip()` leaves a slice of the input with only whitespace removed on either side |
| PyText.StripPadded | ai_agents/lang.py:54 | stripping whitespace-padded text gives the text back |
| PyText.StripIdempotent | ai_agents/lang.py:54 | stripping twice is stripping once |
| PyText.SplitLinesHaveNoBreaks | backend/lang.py:228 | `splitlines()` pieces hold no line boundary |
| PyText.SplitLines | backend/lang.py:228 | `splitlines()` of text gives no line exactly when the text is empty |
| PyText.JoinSplitLines | ai_agents/lang.py:198 | with `\n` as the only boundary and no final one, joining the lines with `\n` gives the text back |
| PyText.Split | ai_agents/lang.py:115 | `split(c)` always returns at least one piece |
| PyText.SplitHasSecondPiece | ai_agents/lang.py:115 | a second piece exists exactly when the separator occurs |
| PyText.SplitPiecesLackSeparator | ai_agents/lang.py:115 | no piece holds the separator |
| PyText.JoinSplit | ai_agents/lang.py:115 | joining the pieces with the separator gives the text back |
| PyText.NatToString | backend/services/RAG/rag_service.py:31 | `str(n)` is non-empty decimal digits with no leading zero |

## Left out

- The language model is an uninterpreted function of the prompt. Prompt wording is not modelled; a prompt records its template and the fields it embeds.
- ADK instruction templating is not modelled. A missing `{placeholder}` key would fail inside the sub-agent; here each sub-agent's final text and events are given by the `SubAgents` function.
- BackendLang.CallGemini: the backend's `call_gemini` is a generator function, so its callers receive a generator, not a string. The model gives each caller the full reply instead. As written, every string operation on that result would fail first: `.lower()` in `check_compliance` and `.splitlines()` in `retrieve_solutions` raise `AttributeError`. Its `"Error: ..."` fallback is just one more possible reply.
- `summary_email` in `backend/lang.py` only streams the model's chunks, so it is not modelled.
- LangGraph.ProcessEmail: the backend's `app.stream(...)` followed by `["draft"]` indexes a streaming result. The model runs the graph to completion instead, as `app.invoke` does in the agents revision. The final `logger.info` is left out.
- LangGraph's graph validation at `compile()` and its channel machinery are not modelled. A node's returned key overwrites that state field.
- `random.choices` is replaced by the token argument. `ValidToken` states the 16-character `[a-z0-9]` form where a lemma needs it.
- AgentsLang.BugReportNode: the GitHub lookups `get_user`, `get_repo` and `get_projects()[0]` are assumed to succeed. `get_repo("EXAMPLE")` names no owner, so the real lookup would most likely fail with an exception before the split. In the backend, `create_issue` is never reached.
- `PyText` is an ASCII approximation of Python's `lower`, `strip` and `splitlines`. Non-ASCII characters are neither whitespace nor line breaks, and they have no lower-case form.
- Orchestrator.StripNewlineAt: it requires the key to hold a string. It is called only right after a sub-agent has stored its final text under that key, so a non-string value never reaches it.
- In the orchestrator, `process_email`'s `Runner` and its final-response selection are left out. So are the `InMemorySessionService` and logging.
- Gmail OAuth, `send_reply_email`, `get_unread_messages`, `mark_as_read` and the `__main__` loop are network and file I/O.
- Gmail.PlainText: the base64url and UTF-8 decoding of a part's body is taken as done, and a part without `body.data` is not modelled.
- Gmail.ParseMessage: `id`, `threadId` and `payload` are taken as present, as the Gmail API returns them.
- Gmail.MimeText.constructor: the content-type, MIME-version and transfer-encoding headers that `MIMEText` adds itself are not modelled. `as_bytes` and base64 encoding are not modelled either: a reply is returned before serialisation, and `formatdate` is the `now` argument.
- VectorstoreUpdate.IsoDate: the year is written with its own digits. For years below 1000 the padding of `%Y` depends on the platform.
- VectorstoreUpdate.UpdateFromToday: the JSON file is taken as well-formed, with every thread and message field present and a string. Missing keys would raise `KeyError`.
- In the vector-store update, the text splitter, the embeddings and FAISS are parameters: `split` and the existing index. `print` is left out.
- `RAGModule`'s constructor, `update_index` and `load_and_process` load and index files, so they are left out. So are `index_all.py` and `daily_update.py`.
- The FastAPI endpoints, the frontend, and the agent and prompt wiring files hold no routing logic.
