/**
 * Message parsing and reply construction of `backend/services/gmail_service.py`. The Gmail
 * API calls that fetch and send messages are not modelled: `ParseMessage` takes the fetched
 * message resource as its argument, and a reply is returned before it is serialised.
 * Base64url decoding of part bodies is taken as already done: a part carries its text.
 */
module Gmail {
  import opened PyCore
  import opened PyText

  /** One entry of `payload['headers']`. */
  datatype Header = Header(name: string, value: string)

  /** One entry of `payload['parts']`, with its own sub-parts (a `multipart/alternative` part
      holds its `text/plain` and `text/html` alternatives there). */
  datatype Part = Part(mimeType: string, text: string, parts: seq<Part>)

  /** The message resource `messages().get(format='full')` returns; a key the resource may lack
      is an `Option`. */
  datatype Payload = Payload(headers: Option<seq<Header>>, parts: Option<seq<Part>>)
  datatype Message = Message(id: string, threadId: string, snippet: Option<string>, payload: Payload)

  /** The dictionary `parse_message` returns. */
  datatype ParsedMessage = ParsedMessage(
    messageId: string,
    threadId: string,
    subject: Option<string>,
    senderName: string,
    senderEmail: string,
    date: Option<string>,
    snippet: string,
    text: string,
    originalMessageId: Option<string>)

  /** The header lookup `parse_message` does for `Subject`, `From`, `Date` and `Message-ID`:
      the value of the first header whose name equals `name` exactly (case included), or
      `None` when there is none. */
  function FirstHeader(headers: seq<Header>, name: string): (r: Option<string>)
    ensures r.None? <==> forall i :: 0 <= i < |headers| ==> headers[i].name != name
    ensures r.Some? ==> exists i :: 0 <= i < |headers| && headers[i] == Header(name, r.value) &&
                                    (forall j :: 0 <= j < i ==> headers[j].name != name)
  {
    if headers == [] then None
    else if headers[0].name == name then
      assert headers[0] == Header(name, headers[0].value);
      Some(headers[0].value)
    else
      var r := FirstHeader(headers[1..], name);
      if r.Some? then
        var i :| 0 <= i < |headers[1..]| && headers[1..][i] == Header(name, r.value) &&
          forall j :: 0 <= j < i ==> headers[1..][j].name != name;
        assert headers[i + 1] == Header(name, r.value);
        assert forall j :: 0 <= j < i + 1 ==> headers[j].name != name by {
          forall j | 0 <= j < i + 1 ensures headers[j].name != name {
            if j > 0 { assert headers[j] == headers[1..][j - 1]; }
          }
        }
        r
      else
        assert forall i :: 0 <= i < |headers| ==> headers[i].name != name by {
          forall i | 0 <= i < |headers| ensures headers[i].name != name {
            if i > 0 { assert headers[i] == headers[1..][i - 1]; }
          }
        }
        r
  }

  /** The converse: the first header with the name is the one whose value is returned. */
  lemma FirstHeaderIsFirstMatch(headers: seq<Header>, name: string, i: nat)
    requires i < |headers| && headers[i].name == name
    requires forall j :: 0 <= j < i ==> headers[j].name != name
    ensures FirstHeader(headers, name) == Some(headers[i].value)
  {
    var r := FirstHeader(headers, name);
    var k :| 0 <= k < |headers| && headers[k] == Header(name, r.value) &&
             (forall j :: 0 <= j < k ==> headers[j].name != name);
    assert k == i;
  }

  /** Headers after the first match of a name do not change its lookup. */
  lemma {:induction false} FirstHeaderIgnoresLaterHeaders(headers: seq<Header>, more: seq<Header>, name: string)
    requires FirstHeader(headers, name).Some?
    ensures FirstHeader(headers + more, name) == FirstHeader(headers, name)
  {
    if headers[0].name != name {
      assert (headers + more)[1..] == headers[1..] + more;
      FirstHeaderIgnoresLaterHeaders(headers[1..], more, name);
    }
  }

  /** No character of `s` is `\n`, the only character the regular expression's `.` refuses. */
  predicate NoNewline(s: string) {
    forall k :: 0 <= k < |s| ==> s[k] != '\n'
  }

  /** A `>` at `k` that the pattern's closing `>$` can match: it is the last character, or the
      one before a final `\n` (`$` also matches just before a newline that ends the string). */
  predicate ClosesAt(raw: string, k: nat) {
    k < |raw| && raw[k] == '>' && (k + 1 == |raw| || (k + 2 == |raw| && raw[k + 1] == '\n'))
  }

  /** The one position the closing `>` can take, if there is any. */
  function ClosingAt(raw: string): (e: Option<nat>)
    ensures e.Some? ==> ClosesAt(raw, e.value)
    ensures forall k: nat :: ClosesAt(raw, k) ==> e == Some(k)
  {
    if |raw| >= 1 && raw[|raw| - 1] == '>' then Some(|raw| - 1)
    else if |raw| >= 2 && raw[|raw| - 1] == '\n' && raw[|raw| - 2] == '>' then Some(|raw| - 2)
    else None
  }

  /** The sender pattern matches `raw` with group 1 ending at `i` and the closing `>` at `e`:
      group 1 is `raw[..i]`, then one whitespace character and `<`, then group 2,
      the non-empty `raw[i + 2..e]`. */
  predicate SplitAt(raw: string, i: nat, e: nat) {
    i + 3 <= e < |raw| && NoNewline(raw[..i]) && IsSpace(raw[i]) && raw[i + 1] == '<' &&
    NoNewline(raw[i + 2..e])
  }

  predicate Matches(raw: string, i: nat, e: nat) {
    ClosingAt(raw) == Some(e) && SplitAt(raw, i, e)
  }

  /** The last split point at or below `i`. */
  function LastSplit(raw: string, e: nat, i: nat): (r: Option<nat>)
    ensures r.Some? ==> r.value <= i && SplitAt(raw, r.value, e)
    ensures r.Some? ==> forall k :: r.value < k <= i ==> !SplitAt(raw, k, e)
    ensures r.None? ==> forall k :: 0 <= k <= i ==> !SplitAt(raw, k, e)
  {
    if SplitAt(raw, i, e) then Some(i)
    else if i == 0 then None
    else LastSplit(raw, e, i - 1)
  }

  /** Matching the sender pattern (any text, one whitespace character, then a non-empty address
      in angle brackets that ends the header): the closing `>` is fixed by the end anchor, and
      the greedy first group takes the longest prefix that still lets the rest match. */
  function FromMatch(raw: string): (m: Option<(nat, nat)>)
    ensures m.None? <==> forall i: nat, e: nat :: !Matches(raw, i, e)
    ensures m.Some? ==> Matches(raw, m.value.0, m.value.1)
    ensures m.Some? ==> forall i: nat, e: nat :: Matches(raw, i, e) ==> i <= m.value.0
  {
    match ClosingAt(raw)
    case None => None
    case Some(e) =>
      match LastSplit(raw, e, e)
      case None =>
        assert forall i: nat, e': nat :: Matches(raw, i, e') ==> e' == e && i <= e;
        None
      case Some(i) =>
        assert Matches(raw, i, e);
        assert forall k: nat, e': nat :: Matches(raw, k, e') ==> e' == e && k <= e;
        Some((i, e))
  }

  /** The sender's name and address as `parse_message` computes them: the two groups of the
      match, stripped, or an empty name and the whole stripped header when nothing matches. */
  function Sender(raw: string): (sender: (string, string))
    ensures FromMatch(raw).None? ==> sender == ("", Strip(raw))
    ensures FromMatch(raw).Some? ==>
      var (i, e) := FromMatch(raw).value;
      sender == (Strip(raw[..i]), Strip(raw[i + 2..e]))
  {
    match FromMatch(raw)
    case None => ("", Strip(raw))
    case Some((i, e)) => (Strip(raw[..i]), Strip(raw[i + 2..e]))
  }

  /** The usual `Name <address>` form: the name and the address come out stripped,
      as long as the address itself holds no whitespace followed by `<`. */
  lemma NameAndAddress(name: string, address: string)
    requires NoNewline(name) && NoNewline(address) && address != []
    requires forall k :: 0 <= k < |address| - 1 ==> !(IsSpace(address[k]) && address[k + 1] == '<')
    ensures Sender(name + " <" + address + ">") == (Strip(name), Strip(address))
  {
    var raw := name + " <" + address + ">";
    var i, e := |name|, |raw| - 1;
    assert raw[..i] == name;
    assert raw[i + 2..e] == address;
    assert Matches(raw, i, e);
    forall k: nat | i < k <= e ensures !SplitAt(raw, k, e) {
      if k == i + 1 {
        assert raw[k] == '<';
      } else if k + 3 <= e {
        assert raw[k] == address[k - i - 2] && raw[k + 1] == address[k - i - 1];
      }
    }
    assert FromMatch(raw) == Some((i, e));
  }

  /** Without a closing `>` there is no match: the name is empty and the address is the whole
      stripped header. A missing `From` header counts as `""`, which gives two empty strings. */
  lemma NoAngleBrackets(raw: string)
    requires ClosingAt(raw).None?
    ensures Sender(raw) == ("", Strip(raw))
  {
  }

  lemma MissingFromGivesEmptySender(headers: seq<Header>)
    requires FirstHeader(headers, "From").None?
    ensures Sender(FirstHeader(headers, "From").GetOr("")) == ("", "")
  {
    assert ClosingAt("").None?;
  }

  /** Because `$` also matches before a final `\n`, a header ending in `>\n` still splits. */
  lemma TrailingNewlineStillSplits(name: string, address: string)
    requires NoNewline(name) && NoNewline(address) && address != []
    ensures FromMatch(name + " <" + address + ">\n").Some?
  {
    var raw := name + " <" + address + ">\n";
    assert raw[..|name|] == name;
    assert raw[|name| + 2..|raw| - 2] == address;
    assert Matches(raw, |name|, |raw| - 2);
  }

  /** The index of the first part, among `parts` itself and not its sub-parts, whose MIME type
      is exactly `text/plain`. */
  function FirstPlainPart(parts: seq<Part>): (r: Option<nat>)
    ensures r.None? <==> forall i :: 0 <= i < |parts| ==> parts[i].mimeType != "text/plain"
    ensures r.Some? ==> r.value < |parts| && parts[r.value].mimeType == "text/plain"
    ensures r.Some? ==> forall j :: 0 <= j < r.value ==> parts[j].mimeType != "text/plain"
  {
    if parts == [] then None
    else if parts[0].mimeType == "text/plain" then Some(0)
    else
      var r := FirstPlainPart(parts[1..]);
      assert forall j :: 1 <= j < |parts| ==> parts[j] == parts[1..][j - 1];
      if r.Some? then Some(r.value + 1) else None
  }

  /** The loop of `parse_message` over the payload's parts (none when the key is missing): it
      takes the body of the first `text/plain` part and stops; the text stays empty when no
      top-level part is plain text. */
  method PlainText(payload: Payload) returns (text: string)
    ensures FirstPlainPart(payload.parts.GetOr([])).None? ==> text == ""
    ensures FirstPlainPart(payload.parts.GetOr([])).Some? ==>
      text == payload.parts.value[FirstPlainPart(payload.parts.value).value].text
  {
    var parts := payload.parts.GetOr([]);
    text := "";
    var i := 0;
    while i < |parts|
      invariant 0 <= i <= |parts|
      invariant text == ""
      invariant forall j :: 0 <= j < i ==> parts[j].mimeType != "text/plain"
    {
      if parts[i].mimeType == "text/plain" {
        text := parts[i].text;
        assert FirstPlainPart(parts) == Some(i);
        return;
      }
      i := i + 1;
    }
  }

  /** A plain-text alternative nested in a `multipart/alternative` part is not found. */
  lemma NestedPlainTextIsIgnored(body: string)
    ensures FirstPlainPart([Part("multipart/alternative", "", [Part("text/plain", body, [])])]).None?
  {
  }

  /** `parse_message` on the fetched message. */
  method ParseMessage(msg: Message) returns (p: ParsedMessage)
    ensures p.messageId == msg.id && p.threadId == msg.threadId
    ensures p.snippet == msg.snippet.GetOr("")
    ensures p.subject == FirstHeader(msg.payload.headers.GetOr([]), "Subject")
    ensures p.date == FirstHeader(msg.payload.headers.GetOr([]), "Date")
    ensures p.originalMessageId == FirstHeader(msg.payload.headers.GetOr([]), "Message-ID")
    ensures (p.senderName, p.senderEmail) == Sender(FirstHeader(msg.payload.headers.GetOr([]), "From").GetOr(""))
    ensures FirstPlainPart(msg.payload.parts.GetOr([])).None? ==> p.text == ""
    ensures FirstPlainPart(msg.payload.parts.GetOr([])).Some? ==>
      p.text == msg.payload.parts.value[FirstPlainPart(msg.payload.parts.value).value].text
  {
    var headers := msg.payload.headers.GetOr([]);
    var subject := FirstHeader(headers, "Subject");
    var rawSender := FirstHeader(headers, "From").GetOr("");
    var (senderName, senderEmail) := Sender(rawSender);
    var date := FirstHeader(headers, "Date");
    var originalMessageId := FirstHeader(headers, "Message-ID");
    var text := PlainText(msg.payload);
    p := ParsedMessage(msg.id, msg.threadId, subject, senderName, senderEmail, date,
                       msg.snippet.GetOr(""), text, originalMessageId);
  }

  /** A `MIMEText` message as `create_reply_message` builds it: the body and the headers assigned
      so far, in order. Assigning `message[name] = value` appends a header. */
  class MimeText {
    var body: string
    var headers: seq<Header>

    constructor(text: string)
      ensures body == text && headers == []
    {
      body := text;
      headers := [];
    }

    method SetHeader(name: string, value: string)
      modifies this
      ensures body == old(body)
      ensures headers == old(headers) + [Header(name, value)]
    {
      headers := headers + [Header(name, value)];
    }
  }

  /** The dictionary `create_reply_message` returns, with the message before serialisation. */
  datatype Reply = Reply(headers: seq<Header>, body: string, threadId: string)

  /** `create_reply_message`: the subject always gets `"Re: "` in front, `In-Reply-To` and
      `References` both carry the original message id, and the thread id is passed through.
      `now` is the `formatdate(localtime=True)` result. */
  method CreateReplyMessage(to: string, subject: string, messageText: string, threadId: string,
                            originalMessageId: string, now: string) returns (reply: Reply)
    ensures reply.body == messageText && reply.threadId == threadId
    ensures reply.headers == ReplyHeaders(to, subject, originalMessageId, now)
  {
    var message := new MimeText(messageText);
    message.SetHeader("to", to);
    message.SetHeader("subject", "Re: " + subject);
    message.SetHeader("In-Reply-To", originalMessageId);
    message.SetHeader("References", originalMessageId);
    message.SetHeader("Date", now);
    reply := Reply(message.headers, message.body, threadId);
  }

  /** The headers `create_reply_message` assigns, in order. */
  function ReplyHeaders(to: string, subject: string, originalMessageId: string, now: string): seq<Header> {
    [Header("to", to), Header("subject", "Re: " + subject), Header("In-Reply-To", originalMessageId),
     Header("References", originalMessageId), Header("Date", now)]
  }

  /** A reply's headers read back: the `Re: ` subject and the original id under both threading
      headers. */
  lemma ReplyHeadersReadBack(to: string, subject: string, originalMessageId: string, now: string)
    ensures FirstHeader(ReplyHeaders(to, subject, originalMessageId, now), "subject") == Some("Re: " + subject)
    ensures FirstHeader(ReplyHeaders(to, subject, originalMessageId, now), "In-Reply-To") == Some(originalMessageId)
    ensures FirstHeader(ReplyHeaders(to, subject, originalMessageId, now), "References") == Some(originalMessageId)
  {
    var headers := ReplyHeaders(to, subject, originalMessageId, now);
    FirstHeaderIsFirstMatch(headers, "subject", 1);
    FirstHeaderIsFirstMatch(headers, "In-Reply-To", 2);
    FirstHeaderIsFirstMatch(headers, "References", 3);
  }

  /** The prefix is added whatever the subject already says: the reply to a reply carries
      the subject `"Re: Re: ..."`. */
  lemma ReplyToReplyStacksPrefix(to: string, subject: string, originalMessageId: string, now: string)
    requires StartsWith(subject, "Re: ")
    ensures FirstHeader(ReplyHeaders(to, subject, originalMessageId, now), "subject").Some?
    ensures StartsWith(FirstHeader(ReplyHeaders(to, subject, originalMessageId, now), "subject").value, "Re: Re: ")
  {
    FirstHeaderIsFirstMatch(ReplyHeaders(to, subject, originalMessageId, now), "subject", 1);
    StartsWithPrepend("Re: ", "Re: ", subject);
  }
}
