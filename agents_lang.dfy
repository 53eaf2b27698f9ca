/**
 * The node functions of the agents revision of the workflow (`ai_agents/lang.py`). Here
 * `call_gemini` strips the model's reply, the bug node splits the analysis on `":"`, and the
 * FAQ and compliance prompts carry no retrieved context.
 */
module AgentsLang {
  import opened PyCore
  import opened PyText
  import opened Email
  import opened SharedNodes

  /** `call_gemini`: the model's reply to the prompt, stripped of surrounding whitespace.
      The result is a slice of the reply with only whitespace cut off either side, and
      stripping it again changes nothing. */
  function CallGemini(env: Env, prompt: Prompt): (reply: string)
    ensures Strip(reply) == reply
    ensures var raw := env.llm(prompt);
      exists i :: 0 <= i && i + |reply| <= |raw| && reply == raw[i..i + |reply|]
        && AllSpace(raw[..i]) && AllSpace(raw[i + |reply|..])
  {
    StripIdempotent(env.llm(prompt));
    StripSpec(env.llm(prompt));
    Strip(env.llm(prompt))
  }

  /** `categorize_problem`: the label is the stripped reply. */
  function CategorizeProblemNode(s: EmailState, env: Env): (u: Update)
    ensures u.ProblemTypeSet?
    ensures u.problemType == Strip(env.llm(ClassifyPrompt(s.subject, s.emailContent)))
  {
    ProblemTypeSet(CallGemini(env, ClassifyPrompt(s.subject, s.emailContent)))
  }

  /** Because the label is stripped, a reply that is a label with whitespace around it is routed
      exactly as the bare label would be: `"password_reset\n"` reaches `account_management`. */
  lemma PaddedLabelRoutesLikeLabel(s: EmailState, env: Env, lead: string, tag: string, trail: string)
    requires env.llm(ClassifyPrompt(s.subject, s.emailContent)) == lead + tag + trail
    requires AllSpace(lead) && AllSpace(trail)
    requires tag != [] && !IsSpace(tag[0]) && !IsSpace(tag[|tag| - 1])
    ensures Apply(s, CategorizeProblemNode(s, env)).problemType == Some(tag)
    ensures RouteAfterCategorization(Apply(s, CategorizeProblemNode(s, env)))
         == RouteAfterCategorization(s.(problemType := Some(tag)))
  {
    StripPadded(lead, tag, trail);
  }

  /** The second piece of the reply split on `:`: the text after the first `:` up to the next `:` or the end;
      with no `":"` in the response there is no second piece and indexing raises `IndexError`. */
  function BugBody(response: string): (r: Result<string>)
    ensures r.Ok? <==> ':' in response
    ensures r.Err? ==> r.error.IndexError?
    ensures r.Ok? ==> ':' !in r.value
    ensures r.Ok? ==>
      var i := IndexOf(response, ':');
      var j := i + 1 + |r.value|;
      j <= |response| && response[i + 1..j] == r.value && (j == |response| || response[j] == ':')
  {
    SplitHasSecondPiece(response, ':');
    var parts := Split(response, ':');
    if |parts| < 2 then Err(IndexError("list index out of range"))
    else
      var i := IndexOf(response, ':');
      var rest := response[i + 1..];
      assert parts == [response[..i]] + Split(rest, ':');
      var k := IndexOf(rest, ':');
      assert parts[1] == Split(rest, ':')[0] == rest[..k];
      assert response[i + 1..i + 1 + k] == rest[..k];
      Ok(parts[1])
  }

  /** `bug_report`: after the GitHub lookups, the node computes the issue body from the analysis
      and fails when the analysis has no `":"`; otherwise it returns the whole analysis, not the body. */
  function BugReportNode(s: EmailState, env: Env): (r: Result<Update>)
    ensures r.Ok? <==> ':' in Strip(env.llm(BugAnalysisPrompt(s.emailContent)))
    ensures r.Err? ==> r.error.IndexError?
    ensures r.Ok? ==> r.value == BugAnalysisSet(Strip(env.llm(BugAnalysisPrompt(s.emailContent))))
  {
    var response := CallGemini(env, BugAnalysisPrompt(s.emailContent));
    match BugBody(response)
    case Err(e) => Err(e)
    case Ok(_) => Ok(BugAnalysisSet(response))
  }

  /** `faq_answer`: this revision's prompt carries only the question. */
  function FaqNode(s: EmailState, env: Env): (u: Update)
    ensures u.FaqAnswerSet?
    ensures u.faqAnswer == Strip(env.llm(FaqPrompt(s.emailContent, None)))
  {
    FaqAnswerSet(CallGemini(env, FaqPrompt(s.emailContent, None)))
  }

  /** The FAQ answer is already stripped, and it depends on the email body alone: the prompt
      carries no retrieved context and no other field of the state. */
  lemma FaqAnswerIsStrippedReply(s: EmailState, t: EmailState, env: Env)
    requires s.emailContent == t.emailContent
    ensures Strip(FaqNode(s, env).faqAnswer) == FaqNode(s, env).faqAnswer
    ensures FaqNode(s, env) == FaqNode(t, env)
  {
    StripIdempotent(env.llm(FaqPrompt(s.emailContent, None)));
  }

  /** The compliance verdict read from a raw reply: `true` up to case once stripped. */
  function ComplianceVerdict(raw: string): (compliant: bool)
    ensures compliant <==> Lower(Strip(raw)) == "true"
  {
    Lower(Strip(raw)) == "true"
  }

  /** `check_compliance`: the prompt carries the request and its sender. */
  function CheckComplianceNode(s: EmailState, env: Env): (u: Update)
    ensures u.CompliantSet?
    ensures u.compliant == ComplianceVerdict(env.llm(CompliancePrompt(s.emailContent, s.destinationEmail, None)))
  {
    var response := CallGemini(env, CompliancePrompt(s.emailContent, s.destinationEmail, None));
    CompliantSet(Lower(response) == "true")
  }

  /** The three spellings of `true` the model is likely to answer with all lower to `true`. */
  lemma TrueSpellingsLower(word: string)
    requires word == "TRUE" || word == "True" || word == "true"
    ensures Lower(word) == "true"
  {
    var lowered := Lower(word);
    assert lowered[0] == 't' && lowered[1] == 'r' && lowered[2] == 'u' && lowered[3] == 'e';
  }

  /** Whitespace around the verdict no longer matters: `"TRUE "` and `"\ntrue\n"` are compliant. */
  lemma PaddedTrueIsCompliant(lead: string, word: string, trail: string)
    requires AllSpace(lead) && AllSpace(trail)
    requires word == "TRUE" || word == "True" || word == "true"
    ensures ComplianceVerdict(lead + word + trail)
  {
    StripPadded(lead, word, trail);
    TrueSpellingsLower(word);
  }

  /** Any other text, once stripped, is not compliant: `"true."` and `"yes"` are not. */
  lemma OtherRepliesAreNotCompliant(raw: string)
    requires |Strip(raw)| != 4
    ensures !ComplianceVerdict(raw)
  {
  }

  /** The prompt `generate_draft` binds for the state's label; this revision's bug template
      embeds the bug analysis. With no template for the label, `prompt` is unbound. */
  function DraftPrompt(s: EmailState): (r: Result<Prompt>)
    ensures r.Ok? <==> HasDraftTemplate(s.problemType)
    ensures r.Err? ==> r.error == UnboundLocalError("prompt")
  {
    match CategoryOf(s.problemType)
    case PasswordReset => Ok(PasswordResetDraft(s.destinationEmail, s.link, s.username))
    case UsernameChange => Ok(UsernameChangeDraft(s.destinationEmail, s.link, s.username))
    case BugReportLabel => Ok(BugAnalysisDraft(s.destinationEmail, s.bugAnalysis))
    case FaqLabel => Ok(FaqDraft(s.destinationEmail, s.faqAnswer))
    case RefundRequest => Err(UnboundLocalError("prompt"))
    case Unrecognised => Err(UnboundLocalError("prompt"))
  }

  /** The template each label selects. */
  lemma DraftTemplates(s: EmailState)
    ensures s.problemType == Some("password_reset") ==>
      DraftPrompt(s) == Ok(PasswordResetDraft(s.destinationEmail, s.link, s.username))
    ensures s.problemType == Some("username_change") ==>
      DraftPrompt(s) == Ok(UsernameChangeDraft(s.destinationEmail, s.link, s.username))
    ensures s.problemType == Some("bug_report") ==>
      DraftPrompt(s) == Ok(BugAnalysisDraft(s.destinationEmail, s.bugAnalysis))
    ensures s.problemType == Some("faq") ==> DraftPrompt(s) == Ok(FaqDraft(s.destinationEmail, s.faqAnswer))
  {
    CategoryIsExactLabel(s.problemType);
  }

  /** `generate_draft`: the draft is the stripped reply to the selected prompt. */
  function GenerateDraftNode(s: EmailState, env: Env): (r: Result<Update>)
    ensures r.Ok? <==> HasDraftTemplate(s.problemType)
    ensures r.Err? ==> r == Err(UnboundLocalError("prompt"))
    ensures r.Ok? ==> r.value == DraftSet(Strip(env.llm(DraftPrompt(s).value)))
  {
    match DraftPrompt(s)
    case Err(e) => Err(e)
    case Ok(prompt) => Ok(DraftSet(CallGemini(env, prompt)))
  }

  /** `retrieve_solutions`: the stripped reply split into lines. */
  function RetrieveSolutionsNode(s: EmailState, env: Env): (u: Update)
    ensures u.SolutionsSet?
    ensures u.solutions == SplitLines(Strip(env.llm(SolutionsPrompt(s.emailContent))))
  {
    SolutionsSet(SplitLines(CallGemini(env, SolutionsPrompt(s.emailContent))))
  }

  /** No solution holds a line boundary, and when `\n` is the only boundary in the stripped reply,
      joining the solutions with `\n` gives the stripped reply back (it cannot end with `\n`). */
  lemma SolutionsAreStrippedReplyLines(s: EmailState, env: Env)
    ensures forall k :: 0 <= k < |RetrieveSolutionsNode(s, env).solutions| ==>
      NoLineBreak(RetrieveSolutionsNode(s, env).solutions[k])
    ensures var reply := Strip(env.llm(SolutionsPrompt(s.emailContent)));
      OnlyNewlineBreaks(reply) ==> Join(RetrieveSolutionsNode(s, env).solutions, "\n") == reply
  {
    var reply := Strip(env.llm(SolutionsPrompt(s.emailContent)));
    SplitLinesHaveNoBreaks(reply);
    if OnlyNewlineBreaks(reply) {
      assert reply == [] || reply[|reply| - 1] != '\n' by {
        StripSpec(env.llm(SolutionsPrompt(s.emailContent)));
        assert IsSpace('\n');
      }
      JoinSplitLines(reply);
    }
  }
}
