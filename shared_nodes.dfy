/**
 * The parts of the email workflow that both revisions of `lang.py` define identically:
 * the conditional router that follows `categorize_problem`, and the
 * `account_management` node with its link generators.
 */
module SharedNodes {
  import opened PyCore
  import opened PyText
  import opened Email

  /** The labels the router and the draft templates compare `problem_type` with, by exact equality. */
  datatype Category = PasswordReset | UsernameChange | BugReportLabel | RefundRequest | FaqLabel | Unrecognised

  function CategoryOf(problemType: Option<string>): Category {
    if problemType == Some("password_reset") then PasswordReset
    else if problemType == Some("username_change") then UsernameChange
    else if problemType == Some("bug_report") then BugReportLabel
    else if problemType == Some("refund_request") then RefundRequest
    else if problemType == Some("faq") then FaqLabel
    else Unrecognised
  }

  /** Each category is exactly one label, compared by exact equality; everything else is unrecognised. */
  lemma CategoryIsExactLabel(problemType: Option<string>)
    ensures CategoryOf(problemType) == PasswordReset <==> problemType == Some("password_reset")
    ensures CategoryOf(problemType) == UsernameChange <==> problemType == Some("username_change")
    ensures CategoryOf(problemType) == BugReportLabel <==> problemType == Some("bug_report")
    ensures CategoryOf(problemType) == RefundRequest <==> problemType == Some("refund_request")
    ensures CategoryOf(problemType) == FaqLabel <==> problemType == Some("faq")
  {
  }

  /** `route_after_categorization`: a reply always goes to `retrieve_solutions`; otherwise the
      label is compared for exact equality (no trimming, no case folding), and anything
      unrecognised, `None` included, also goes to `retrieve_solutions`. */
  function RouteAfterCategorization(s: EmailState): (next: NodeName)
    ensures s.isReply ==> next == RetrieveSolutions
    ensures next != CategorizeProblem && next != GenerateDraft
  {
    if s.isReply then RetrieveSolutions
    else
      match CategoryOf(s.problemType)
      case PasswordReset => AccountManagement
      case UsernameChange => AccountManagement
      case BugReportLabel => BugReport
      case RefundRequest => CheckCompliance
      case FaqLabel => FaqHandler
      case Unrecognised => RetrieveSolutions
  }

  /** The routing table, both directions: which labels reach which handler. */
  lemma RoutingTable(s: EmailState)
    ensures RouteAfterCategorization(s) == AccountManagement <==>
      !s.isReply && (s.problemType == Some("password_reset") || s.problemType == Some("username_change"))
    ensures RouteAfterCategorization(s) == BugReport <==> !s.isReply && s.problemType == Some("bug_report")
    ensures RouteAfterCategorization(s) == CheckCompliance <==> !s.isReply && s.problemType == Some("refund_request")
    ensures RouteAfterCategorization(s) == FaqHandler <==> !s.isReply && s.problemType == Some("faq")
    ensures RouteAfterCategorization(s) == RetrieveSolutions <==> s.isReply || CategoryOf(s.problemType) == Unrecognised
  {
    CategoryIsExactLabel(s.problemType);
  }

  /** A label with a trailing newline is not the label: `"faq\n"` is not routed to the FAQ handler. */
  lemma TrailingNewlineIsUnknownLabel(s: EmailState)
    requires !s.isReply && s.problemType == Some("faq\n")
    ensures RouteAfterCategorization(s) == RetrieveSolutions
  {
    RoutingTable(s);
  }

  /** The characters `random.choices` draws the token from. */
  const TokenAlphabet: string := "abcdefghijklmnopqrstuvwxyz0123456789"

  /** A token `random.choices(TokenAlphabet, k=16)` can produce. */
  predicate ValidToken(token: string) {
    |token| == 16 && forall i :: 0 <= i < |token| ==> token[i] in TokenAlphabet
  }

  const ResetBase: string := "https://example.com/reset_"
  const ChangeBase: string := "https://example.com/change_"

  /** The link the generators build from a base URL and a token. */
  function TokenLink(base: string, token: string): (link: string)
    ensures StartsWith(link, base)
    ensures EndsWith(link, token)
    ensures |link| == |base| + 7 + |token|
  {
    base + "?token=" + token
  }

  /** The token of a generated link: the 16 characters at its end. */
  function LinkToken(link: string): (token: string)
    requires |link| >= 16
    ensures |token| == 16
  {
    link[|link| - 16..]
  }

  /** The token can be read back from the link, and the rest of the link is the fixed prefix. */
  lemma LinkTokenRoundTrip(base: string, token: string)
    requires ValidToken(token)
    ensures LinkToken(TokenLink(base, token)) == token
    ensures TokenLink(base, token) == base + "?token=" + LinkToken(TokenLink(base, token))
  {
  }

  /** The link `account_management` produces for a problem type: `"password"` is looked for first,
      `"username"` only when the lower-cased label lacks it, and no link otherwise. */
  function AccountLink(problemType: string, token: string): (link: Option<string>)
    ensures Contains(Lower(problemType), "password") ==> link == Some(TokenLink(ResetBase, token))
    ensures !Contains(Lower(problemType), "password") && Contains(Lower(problemType), "username") ==>
      link == Some(TokenLink(ChangeBase, token))
    ensures link.None? <==>
      !Contains(Lower(problemType), "password") && !Contains(Lower(problemType), "username")
  {
    var lowered := Lower(problemType);
    if Contains(lowered, "password") then Some(TokenLink(ResetBase, token))
    else if Contains(lowered, "username") then Some(TokenLink(ChangeBase, token))
    else None
  }

  /** The substring test ignores case: `"PASSWORD"` in the label also selects the reset link. */
  lemma AccountLinkIgnoresCase(problemType: string, token: string)
    ensures AccountLink(Lower(problemType), token) == AccountLink(problemType, token)
  {
    LowerOfLower(Lower(problemType));
  }

  /** The `account_management` node. Calling `lower()` on an absent `problem_type` raises
      `AttributeError`; otherwise the node returns only the `link` key. The node's assignment to
      `state.link` is made on its own copy of the state, so the returned update is its whole effect. */
  function AccountManagementNode(s: EmailState, token: string): (r: Result<Update>)
    ensures s.problemType.None? <==> r.Err?
    ensures r.Err? ==> r.error.AttributeError?
    ensures r.Ok? ==> r.value == LinkSet(AccountLink(s.problemType.value, token))
  {
    match s.problemType
    case None => Err(AttributeError("'NoneType' object has no attribute 'lower'"))
    case Some(pt) => Ok(LinkSet(AccountLink(pt, token)))
  }

  /** Whatever the router sends to `account_management` gets a link: the reset link for
      `password_reset`, the username-change link for `username_change`. */
  lemma RoutedToAccountManagementGetsLink(s: EmailState, token: string)
    requires RouteAfterCategorization(s) == AccountManagement
    ensures AccountManagementNode(s, token).Ok?
    ensures AccountManagementNode(s, token).value.link.Some?
    ensures s.problemType == Some("password_reset") ==>
      AccountManagementNode(s, token).value.link == Some(TokenLink(ResetBase, token))
    ensures s.problemType == Some("username_change") ==>
      AccountManagementNode(s, token).value.link == Some(TokenLink(ChangeBase, token))
  {
    RoutingTable(s);
    var pt := s.problemType.value;
    LowerOfLower(pt);
    if pt == "password_reset" {
      ContainsPrefix(pt, "password");
    } else {
      assert pt == "username_change";
      NotContainsWithoutFirstChar(pt, "password");
      ContainsPrefix(pt, "username");
    }
  }

  /** The labels `generate_draft` has a prompt template for, in both revisions. */
  predicate HasDraftTemplate(problemType: Option<string>) {
    CategoryOf(problemType) != RefundRequest && CategoryOf(problemType) != Unrecognised
  }

  /** Every label the router sends on to a handler has a template, except the refund request,
      the label that reaches `generate_draft` through `check_compliance`. */
  lemma RefundIsTheOnlyHandledLabelWithoutTemplate(s: EmailState)
    requires !s.isReply && RouteAfterCategorization(s) != RetrieveSolutions
    ensures !HasDraftTemplate(s.problemType) <==> RouteAfterCategorization(s) == CheckCompliance
  {
    RoutingTable(s);
  }
}
