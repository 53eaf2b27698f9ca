/**
 * The state threaded through the LangGraph email workflow (`EmailState` in both
 * revisions of `lang.py`), the prompts its nodes send to the language model, the
 * partial updates a node returns, and the collaborators the nodes call.
 */
module Email {
  import opened PyCore
  import RagService

  /** `EmailState`: every field with the default the pydantic model gives it. */
  datatype EmailState = EmailState(
    subject: string,
    link: Option<string>,
    username: string,
    emailContent: string,
    destinationEmail: string,
    problemType: Option<string>,
    draft: Option<string>,
    compliant: Option<bool>,
    isReply: bool,
    persistentTechIssue: bool,
    summary: Option<string>,
    jiraTicket: Option<string>,
    bugAnalysis: Option<string>,
    faqAnswer: Option<string>,
    solutions: Option<seq<string>>)

  /** The state `process_email` starts the workflow with: the four inputs, `is_reply=False`,
      and every other field at its default (`solutions` defaults to `[]`). */
  function InitialState(username: string, subject: string, body: string, userEmail: string): (s: EmailState)
    ensures !s.isReply && s.problemType.None? && s.link.None? && s.draft.None?
    ensures s.username == username && s.subject == subject
    ensures s.emailContent == body && s.destinationEmail == userEmail
  {
    EmailState(subject, None, username, body, userEmail, None, None, None, false, false,
               None, None, None, None, Some([]))
  }

  /** The prompts the nodes build. Their wording is not modelled; each records which
      template it is and which state fields (or retrieved context) it embeds. An
      `Option` field is embedded as Python's f-string would show it (`None` or the value). */
  datatype Prompt =
    | ClassifyPrompt(subject: string, content: string)
    | BugSummaryPrompt(content: string)
    | BugAnalysisPrompt(content: string)
    | FaqPrompt(content: string, ragContext: Option<string>)
    | CompliancePrompt(content: string, sender: string, policy: Option<string>)
    | PasswordResetDraft(to: string, link: Option<string>, username: string)
    | UsernameChangeDraft(to: string, link: Option<string>, username: string)
    | BugAcknowledgementDraft(to: string, username: string)
    | BugAnalysisDraft(to: string, bugAnalysis: Option<string>)
    | FaqDraft(to: string, faqAnswer: Option<string>)
    | SolutionsPrompt(content: string)

  /** What a node's returned dictionary sets: each node returns exactly one key. */
  datatype Update =
    | ProblemTypeSet(problemType: string)
    | LinkSet(link: Option<string>)
    | BugAnalysisSet(bugAnalysis: string)
    | FaqAnswerSet(faqAnswer: string)
    | CompliantSet(compliant: bool)
    | DraftSet(draft: string)
    | SolutionsSet(solutions: seq<string>)

  /** The graph merges a node's update into the state: the named key is overwritten,
      every other field is kept. */
  function Apply(s: EmailState, u: Update): EmailState {
    match u
    case ProblemTypeSet(p) => s.(problemType := Some(p))
    case LinkSet(l) => s.(link := l)
    case BugAnalysisSet(b) => s.(bugAnalysis := Some(b))
    case FaqAnswerSet(a) => s.(faqAnswer := Some(a))
    case CompliantSet(c) => s.(compliant := Some(c))
    case DraftSet(d) => s.(draft := Some(d))
    case SolutionsSet(l) => s.(solutions := Some(l))
  }

  /** Merging an update sets exactly the field it names: the email inputs, the reply flags,
      the summary and the ticket, and every field the update does not name, keep their values. */
  lemma ApplySetsOneField(s: EmailState, u: Update)
    ensures var r := Apply(s, u);
      && r.subject == s.subject && r.username == s.username && r.emailContent == s.emailContent
      && r.destinationEmail == s.destinationEmail && r.isReply == s.isReply
      && r.persistentTechIssue == s.persistentTechIssue && r.summary == s.summary && r.jiraTicket == s.jiraTicket
      && r.problemType == (if u.ProblemTypeSet? then Some(u.problemType) else s.problemType)
      && r.link == (if u.LinkSet? then u.link else s.link)
      && r.bugAnalysis == (if u.BugAnalysisSet? then Some(u.bugAnalysis) else s.bugAnalysis)
      && r.faqAnswer == (if u.FaqAnswerSet? then Some(u.faqAnswer) else s.faqAnswer)
      && r.compliant == (if u.CompliantSet? then Some(u.compliant) else s.compliant)
      && r.draft == (if u.DraftSet? then Some(u.draft) else s.draft)
      && r.solutions == (if u.SolutionsSet? then Some(u.solutions) else s.solutions)
  {
  }

  /** The collaborators of the nodes: the language model as an uninterpreted function of
      its prompt, the random token `random.choices` would draw for an account link, and
      the vector store's similarity search behind `rag.generate_context`. */
  datatype Env = Env(llm: Prompt -> string, token: string, search: RagService.Search)

  /** The nodes registered with `add_node`. */
  datatype NodeName =
    | CategorizeProblem
    | AccountManagement
    | BugReport
    | FaqHandler
    | CheckCompliance
    | GenerateDraft
    | RetrieveSolutions

  /** The key each node's returned dictionary sets. */
  predicate Writes(n: NodeName, u: Update) {
    match n
    case CategorizeProblem => u.ProblemTypeSet?
    case AccountManagement => u.LinkSet?
    case BugReport => u.BugAnalysisSet?
    case FaqHandler => u.FaqAnswerSet?
    case CheckCompliance => u.CompliantSet?
    case GenerateDraft => u.DraftSet?
    case RetrieveSolutions => u.SolutionsSet?
  }

  /** The name each node is registered under. */
  function NodeId(n: NodeName): string {
    match n
    case CategorizeProblem => "categorize_problem"
    case AccountManagement => "account_management"
    case BugReport => "bug_report"
    case FaqHandler => "faq_handler"
    case CheckCompliance => "check_compliance"
    case GenerateDraft => "generate_draft"
    case RetrieveSolutions => "retrieve_solutions"
  }
}
