/**
 * The node functions of the backend revision of the workflow (`backend/lang.py`). The model's
 * reply is used as it comes back (this revision does not strip it); the FAQ and compliance
 * nodes add retrieved context from the vector store to their prompts.
 */
module BackendLang {
  import opened PyCore
  import opened PyText
  import opened Email
  import opened SharedNodes
  import RagService

  /** The query `check_compliance` retrieves the refund policy with. */
  const RefundPolicyQuery: string := "What is the company policy for refund requests?"

  /** `call_gemini`: the model's reply to the prompt, as it comes back. */
  function CallGemini(env: Env, prompt: Prompt): string
  {
    env.llm(prompt)
  }

  /** `categorize_problem`: the label is the model's reply, untrimmed. */
  function CategorizeProblemNode(s: EmailState, env: Env): (u: Update)
    ensures u.ProblemTypeSet?
    ensures u.problemType == env.llm(ClassifyPrompt(s.subject, s.emailContent))
  {
    ProblemTypeSet(CallGemini(env, ClassifyPrompt(s.subject, s.emailContent)))
  }

  /** `bug_report`: the node summarises the report and then calls `g.get_user()`, but the
      GitHub client `g` is never defined in this revision, so the node always raises `NameError`. */
  function BugReportNode(s: EmailState, env: Env): (r: Result<Update>)
    ensures r == Err(NameError("g"))
  {
    var _ := CallGemini(env, BugSummaryPrompt(s.emailContent));
    Err(NameError("g"))
  }

  /** `faq_answer`: the prompt carries the question and the context retrieved for it. */
  function FaqNode(s: EmailState, env: Env): (u: Update)
    ensures u.FaqAnswerSet?
    ensures u.faqAnswer ==
      env.llm(FaqPrompt(s.emailContent,
                        Some(RagService.Context(env.search(s.emailContent, RagService.SimilarCases)))))
  {
    var ragResponse := RagService.Context(env.search(s.emailContent, RagService.SimilarCases));
    FaqAnswerSet(CallGemini(env, FaqPrompt(s.emailContent, Some(ragResponse))))
  }

  /** The FAQ prompt's context is the five passages most similar to the email body, rendered
      first to last as blocks numbered from 1. */
  lemma FaqContextNumbersPassages(s: EmailState, env: Env)
    ensures FaqNode(s, env).faqAnswer ==
      env.llm(FaqPrompt(s.emailContent, Some(RagService.NumberedFrom(env.search(s.emailContent, 5), 1))))
  {
    RagService.ContextIsNumberedBlocks(env.search(s.emailContent, RagService.SimilarCases));
  }

  /** The compliance verdict read from a reply: exactly `true` up to case, nothing around it. */
  function ComplianceVerdict(reply: string): (compliant: bool)
    ensures compliant ==> |reply| == 4
    ensures compliant <==> Lower(reply) == "true"
  {
    Lower(reply) == "true"
  }

  /** `check_compliance`: the prompt carries the request, its sender and the refund policy
      retrieved from the vector store. */
  function CheckComplianceNode(s: EmailState, env: Env): (u: Update)
    ensures u.CompliantSet?
    ensures u.compliant <==>
      Lower(env.llm(CompliancePrompt(s.emailContent, s.destinationEmail,
                                     Some(RagService.Context(env.search(RefundPolicyQuery, RagService.SimilarCases)))))) == "true"
  {
    var ragResponse := RagService.Context(env.search(RefundPolicyQuery, RagService.SimilarCases));
    var reply := CallGemini(env, CompliancePrompt(s.emailContent, s.destinationEmail, Some(ragResponse)));
    CompliantSet(ComplianceVerdict(reply))
  }

  /** A reply with a trailing newline is not compliant, and neither is anything longer than `true`. */
  lemma TrueWithNewlineIsNotCompliant()
    ensures !ComplianceVerdict("True\n")
  {
  }

  /** Any capitalisation of `true` is compliant. */
  lemma CapitalisedTrueIsCompliant()
    ensures ComplianceVerdict("True") && ComplianceVerdict("TRUE") && ComplianceVerdict("true")
  {
    assert Lower("True") == "true" by { assert LowerChar('T') == 't'; }
    assert Lower("TRUE") == "true" by {
      assert LowerChar('T') == 't' && LowerChar('R') == 'r' && LowerChar('U') == 'u' && LowerChar('E') == 'e';
    }
  }

  /** The prompt `generate_draft` binds for the state's label. With no template for the label
      (a refund request, for one), `prompt` is still unbound when `call_gemini(prompt)` runs. */
  function DraftPrompt(s: EmailState): (r: Result<Prompt>)
    ensures r.Ok? <==> HasDraftTemplate(s.problemType)
    ensures r.Err? ==> r.error == UnboundLocalError("prompt")
  {
    match CategoryOf(s.problemType)
    case PasswordReset => Ok(PasswordResetDraft(s.destinationEmail, s.link, s.username))
    case UsernameChange => Ok(UsernameChangeDraft(s.destinationEmail, s.link, s.username))
    case BugReportLabel => Ok(BugAcknowledgementDraft(s.destinationEmail, s.username))
    case FaqLabel => Ok(FaqDraft(s.destinationEmail, s.faqAnswer))
    case RefundRequest => Err(UnboundLocalError("prompt"))
    case Unrecognised => Err(UnboundLocalError("prompt"))
  }

  /** The template each label selects. */
  lemma DraftTemplates(s: EmailState)
    ensures s.problemType == Some("password_reset") ==>
      DraftPrompt(s) == Ok(PasswordResetDraft(s.destinationEmail, s.link, s.username))
    ensures s.problemType == Some("username_change") ==>
      DraftPrompt(s) == Ok(UsernameChangeDraft(s.destinationEmail, s.link, s.username))
    ensures s.problemType == Some("bug_report") ==>
      DraftPrompt(s) == Ok(BugAcknowledgementDraft(s.destinationEmail, s.username))
    ensures s.problemType == Some("faq") ==> DraftPrompt(s) == Ok(FaqDraft(s.destinationEmail, s.faqAnswer))
  {
    CategoryIsExactLabel(s.problemType);
  }

  /** `generate_draft`: the draft is the model's reply to the selected prompt. */
  function GenerateDraftNode(s: EmailState, env: Env): (r: Result<Update>)
    ensures r.Ok? <==> HasDraftTemplate(s.problemType)
    ensures r.Err? ==> r == Err(UnboundLocalError("prompt"))
    ensures r.Ok? ==> r.value == DraftSet(env.llm(DraftPrompt(s).value))
  {
    match DraftPrompt(s)
    case Err(e) => Err(e)
    case Ok(prompt) => Ok(DraftSet(CallGemini(env, prompt)))
  }

  /** `retrieve_solutions`: the reply split into lines, none of which holds a line boundary. */
  function RetrieveSolutionsNode(s: EmailState, env: Env): (u: Update)
    ensures u.SolutionsSet?
    ensures u.solutions == SplitLines(env.llm(SolutionsPrompt(s.emailContent)))
  {
    SolutionsSet(SplitLines(CallGemini(env, SolutionsPrompt(s.emailContent))))
  }

  /** The solutions are the reply's lines: none holds a line boundary, and when `\n` is the only
      boundary and the reply does not end with one, joining them with `\n` gives the reply back. */
  lemma SolutionsAreReplyLines(s: EmailState, env: Env)
    ensures forall k :: 0 <= k < |RetrieveSolutionsNode(s, env).solutions| ==>
      NoLineBreak(RetrieveSolutionsNode(s, env).solutions[k])
    ensures var reply := env.llm(SolutionsPrompt(s.emailContent));
      OnlyNewlineBreaks(reply) && (reply == [] || reply[|reply| - 1] != '\n') ==>
      Join(RetrieveSolutionsNode(s, env).solutions, "\n") == reply
  {
    var reply := env.llm(SolutionsPrompt(s.emailContent));
    SplitLinesHaveNoBreaks(reply);
    if OnlyNewlineBreaks(reply) && (reply == [] || reply[|reply| - 1] != '\n') {
      JoinSplitLines(reply);
    }
  }
}
