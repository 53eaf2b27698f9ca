/**
 * The daily vector-store update of `backend/services/RAG/update_vectorstore.py`: the name of
 * today's conversation file, the text assembled for each conversation thread, and the early
 * returns before the index is saved. The clock, the file system, JSON parsing, the text
 * splitter and the FAISS index are given as arguments.
 */
module VectorstoreUpdate {
  import opened PyCore
  import opened PyText

  const ConversationDir: string := "../../conversations"

  /** A calendar date as `datetime.today()` yields it. */
  datatype Date = Date(year: nat, month: nat, day: nat)

  predicate ValidDate(d: Date) {
    1 <= d.year <= 9999 && 1 <= d.month <= 12 && 1 <= d.day <= 31
  }

  /** Two decimal digits, as `%m` and `%d` print a month and a day. */
  function TwoDigits(n: nat): (r: string)
    requires n < 100
    ensures r == [DigitChar(n / 10), DigitChar(n % 10)]
  {
    assert n < 10 ==> NatToString(n) == [DigitChar(n)] && DigitChar(n / 10) == '0';
    assert n >= 10 ==> NatToString(n) == NatToString(n / 10) + [DigitChar(n % 10)] == [DigitChar(n / 10), DigitChar(n % 10)];
    ZeroPad(NatToString(n), 2)
  }

  /** `strftime("%Y-%m-%d")`: the year's digits, then a dash, the month's two digits, a dash and
      the day's two digits. The year is written with its own digits. */
  function IsoDate(d: Date): (r: string)
    requires ValidDate(d)
    ensures |r| == |NatToString(d.year)| + 6 && r[..|r| - 6] == NatToString(d.year)
    ensures r[|r| - 6..] == ['-', DigitChar(d.month / 10), DigitChar(d.month % 10),
                             '-', DigitChar(d.day / 10), DigitChar(d.day % 10)]
  {
    DateTextLayout(NatToString(d.year), TwoDigits(d.month), TwoDigits(d.day));
    NatToString(d.year) + "-" + TwoDigits(d.month) + "-" + TwoDigits(d.day)
  }

  /** Where the parts of a `year-month-day` text with a two-character month and day lie. */
  lemma DateTextLayout(y: string, m: string, d: string)
    requires |m| == 2 && |d| == 2
    ensures var r := y + "-" + m + "-" + d;
      |r| == |y| + 6 && r[..|r| - 6] == y && r[|r| - 6..] == ['-', m[0], m[1], '-', d[0], d[1]]
  {
    var r := y + "-" + m + "-" + d;
    assert r[..|y|] == y;
    assert r[|r| - 6..] == "-" + m + "-" + d;
  }

  /** `os.path.join(a, b)` with two arguments: an absolute `b` replaces `a`; otherwise `b` is
      appended, after a `/` unless `a` is empty or already ends with one. */
  function PathJoin(a: string, b: string): (r: string)
    ensures EndsWith(r, b)
  {
    if StartsWith(b, "/") then b
    else if a == [] || EndsWith(a, "/") then a + b
    else a + "/" + b
  }

  /** `get_today_filename`, with today's date as an argument: the file
      `conversations_YYYY-MM-DD.json` under the conversation directory. */
  function TodayFilename(today: Date): (r: string)
    requires ValidDate(today)
    ensures r == FilePrefix + IsoDate(today) + FileSuffix
  {
    ConversationPath(IsoDate(today));
    PathJoin(ConversationDir, "conversations_" + IsoDate(today) + FileSuffix)
  }

  const FilePrefix: string := ConversationDir + "/conversations_"
  const FileSuffix: string := ".json"

  /** The conversation file for a date text lies in the conversation directory. */
  lemma ConversationPath(date: string)
    ensures PathJoin(ConversationDir, "conversations_" + date + FileSuffix) == FilePrefix + date + FileSuffix
  {
    var b := "conversations_" + date + FileSuffix;
    assert b[0] == 'c';
    assert ConversationDir[|ConversationDir| - 1] == 's';
    assert ConversationDir + "/" + b == FilePrefix + date + FileSuffix;
  }

  /** A `year-month-day` text with a two-character month and day can be read back into its parts. */
  lemma DateTextInjective(y1: string, m1: string, d1: string, y2: string, m2: string, d2: string)
    requires |m1| == 2 && |d1| == 2 && |m2| == 2 && |d2| == 2
    requires y1 + "-" + m1 + "-" + d1 == y2 + "-" + m2 + "-" + d2
    ensures y1 == y2 && m1 == m2 && d1 == d2
  {
    var r1, r2 := y1 + "-" + m1 + "-" + d1, y2 + "-" + m2 + "-" + d2;
    assert r1[|r1| - 2..] == d1 && r2[|r2| - 2..] == d2;
    assert r1[|r1| - 5..|r1| - 3] == m1 && r2[|r2| - 5..|r2| - 3] == m2;
    assert r1[..|r1| - 6] == y1 && r2[..|r2| - 6] == y2;
  }

  lemma {:induction false} DigitCharInjective(a: nat, b: nat)
    requires a < 10 && b < 10 && DigitChar(a) == DigitChar(b)
    ensures a == b
  {
    var digits := "0123456789";
    assert forall i, j :: 0 <= i < j < 10 ==> digits[i] != digits[j];
  }

  /** Different numbers are written differently. */
  lemma {:induction false} NatToStringInjective(a: nat, b: nat)
    requires NatToString(a) == NatToString(b)
    ensures a == b
  {
    if a < 10 && b < 10 {
      DigitCharInjective(a, b);
    } else if a >= 10 && b >= 10 {
      var ra, rb := NatToString(a), NatToString(b);
      assert ra[|ra| - 1] == DigitChar(a % 10) && rb[|rb| - 1] == DigitChar(b % 10);
      DigitCharInjective(a % 10, b % 10);
      assert ra[..|ra| - 1] == NatToString(a / 10) && rb[..|rb| - 1] == NatToString(b / 10);
      NatToStringInjective(a / 10, b / 10);
    }
  }

  lemma TwoDigitsInjective(a: nat, b: nat)
    requires a < 100 && b < 100 && TwoDigits(a) == TwoDigits(b)
    ensures a == b
  {
    DigitCharInjective(a / 10, b / 10);
    DigitCharInjective(a % 10, b % 10);
  }

  /** Different dates are written differently. */
  lemma IsoDateInjective(d1: Date, d2: Date)
    requires ValidDate(d1) && ValidDate(d2) && IsoDate(d1) == IsoDate(d2)
    ensures d1 == d2
  {
    DateTextInjective(NatToString(d1.year), TwoDigits(d1.month), TwoDigits(d1.day),
                      NatToString(d2.year), TwoDigits(d2.month), TwoDigits(d2.day));
    TwoDigitsInjective(d1.day, d2.day);
    TwoDigitsInjective(d1.month, d2.month);
    NatToStringInjective(d1.year, d2.year);
  }

  /** Equal strings with the same prefix and suffix have the same middle. */
  lemma SameAffixes(prefix: string, x: string, y: string, suffix: string)
    requires prefix + x + suffix == prefix + y + suffix
    ensures x == y
  {
    var u, v := prefix + x + suffix, prefix + y + suffix;
    assert x == u[|prefix|..|u| - |suffix|];
    assert y == v[|prefix|..|v| - |suffix|];
  }

  /** Each day has its own conversation file: different dates give different file names. */
  lemma DistinctDatesDistinctFiles(d1: Date, d2: Date)
    requires ValidDate(d1) && ValidDate(d2) && d1 != d2
    ensures TodayFilename(d1) != TodayFilename(d2)
  {
    if TodayFilename(d1) == TodayFilename(d2) {
      SameAffixes(FilePrefix, IsoDate(d1), IsoDate(d2), FileSuffix);
      IsoDateInjective(d1, d2);
    }
  }

  /** One message of a thread: `from`, `email`, `date` and `text` of the JSON object. */
  datatype ThreadMessage = ThreadMessage(sender: string, email: string, date: string, text: string)
  datatype Thread = Thread(subject: string, messages: seq<ThreadMessage>)

  /** The JSON file: its threads in the order `data.items()` yields them. */
  type Conversations = seq<(string, Thread)>

  function MessageBlock(m: ThreadMessage): string {
    m.sender + " (" + m.email + ") on " + m.date + ":\n" + m.text + "\n\n"
  }

  /** The message blocks of a thread's messages, in order. */
  function MessagesText(messages: seq<ThreadMessage>): (r: string)
    ensures r == [] <==> messages == []
  {
    if messages == [] then ""
    else MessagesText(messages[..|messages| - 1]) + MessageBlock(messages[|messages| - 1])
  }

  /** The text assembled for a thread: its subject line and a blank line, then a block per
      message; a thread without messages gives the subject line alone. */
  function ConversationText(t: Thread): (r: string)
    ensures StartsWith(r, "Subject: " + t.subject + "\n\n")
    ensures r == "Subject: " + t.subject + "\n\n" <==> t.messages == []
  {
    var head := "Subject: " + t.subject + "\n\n";
    var r := head + MessagesText(t.messages);
    assert r[..|head|] == head;
    r
  }

  /** The text of two runs of messages is the text of the first followed by that of the second. */
  lemma {:induction false} MessagesTextAppend(a: seq<ThreadMessage>, b: seq<ThreadMessage>)
    ensures MessagesText(a + b) == MessagesText(a) + MessagesText(b)
    decreases |b|
  {
    if b != [] {
      var init, last := b[..|b| - 1], b[|b| - 1];
      assert (a + b)[..|a + b| - 1] == a + init;
      MessagesTextAppend(a, init);
    } else {
      assert a + b == a;
    }
  }

  /** A conversation's text is its subject line, the blocks of the messages before message `k`,
      the block of message `k`, and the blocks of the messages after it. */
  lemma MessageBlockPosition(t: Thread, k: nat)
    requires k < |t.messages|
    ensures ConversationText(t) == "Subject: " + t.subject + "\n\n" + MessagesText(t.messages[..k]) +
      MessageBlock(t.messages[k]) + MessagesText(t.messages[k + 1..])
  {
    MessagesTextAt(t.messages, k);
  }

  /** The first message's block comes right after the subject line. */
  lemma FirstMessageFollowsSubject(t: Thread)
    requires t.messages != []
    ensures StartsWith(ConversationText(t), "Subject: " + t.subject + "\n\n" + MessageBlock(t.messages[0]))
  {
    MessageBlockPosition(t, 0);
    assert t.messages[..0] == [];
    var lead := "Subject: " + t.subject + "\n\n" + MessageBlock(t.messages[0]);
    assert ConversationText(t)[..|lead|] == lead;
  }

  /** The blocks of a run of messages split around message `k`. */
  lemma {:induction false} MessagesTextAt(ms: seq<ThreadMessage>, k: nat)
    requires k < |ms|
    ensures MessagesText(ms) == MessagesText(ms[..k]) + MessageBlock(ms[k]) + MessagesText(ms[k + 1..])
  {
    var before, after := ms[..k] + [ms[k]], ms[k + 1..];
    assert ms == before + after;
    MessagesTextAppend(before, after);
    MessagesTextAppend(ms[..k], [ms[k]]);
    assert MessagesText([ms[k]]) == MessageBlock(ms[k]) by {
      assert [ms[k]][..0] == [];
    }
    assert MessagesText(ms) == MessagesText(before) + MessagesText(after);
  }

  /** The text built for one thread: the subject line, then each message's block appended in turn. */
  method Conversation(t: Thread) returns (conversation: string)
    ensures conversation == ConversationText(t)
  {
    conversation := "Subject: " + t.subject + "\n\n";
    var i := 0;
    while i < |t.messages|
      invariant 0 <= i <= |t.messages|
      invariant conversation == "Subject: " + t.subject + "\n\n" + MessagesText(t.messages[..i])
    {
      var msg := t.messages[i];
      assert t.messages[..i + 1][..i] == t.messages[..i];
      conversation := conversation + (msg.sender + " (" + msg.email + ") on " + msg.date + ":\n" + msg.text + "\n\n");
      i := i + 1;
    }
    assert t.messages[..i] == t.messages;
  }

  /** The loop over the file's threads: one text per thread, in the order of the file. */
  method AllTexts(data: Conversations) returns (allTexts: seq<string>)
    ensures |allTexts| == |data|
    ensures forall k :: 0 <= k < |data| ==> allTexts[k] == ConversationText(data[k].1)
  {
    allTexts := [];
    var i := 0;
    while i < |data|
      invariant 0 <= i <= |data|
      invariant |allTexts| == i
      invariant forall k :: 0 <= k < i ==> allTexts[k] == ConversationText(data[k].1)
    {
      var conversation := Conversation(data[i].1);
      allTexts := allTexts + [conversation];
      i := i + 1;
    }
  }

  /** How `update_vectorstore_from_today` ends: without today's file, or with no document to add,
      it returns before saving; otherwise it saves the index it built or extended. */
  datatype Outcome = NoConversationFile | NoDocuments | Saved(index: seq<string>)

  /** `update_vectorstore_from_today`. `files` maps the paths of the conversation files that exist
      to their parsed contents, `split` is the text splitter, and `existing` is the saved index
      when `faiss_index` exists. A new index holds the documents it was built from; `add_documents`
      appends them to a loaded one. */
  method UpdateFromToday(today: Date, files: map<string, Conversations>,
                         split: seq<string> -> seq<string>, existing: Option<seq<string>>)
    returns (outcome: Outcome)
    requires ValidDate(today)
    ensures TodayFilename(today) !in files <==> outcome == NoConversationFile
    ensures outcome.NoDocuments? <==>
      TodayFilename(today) in files && split(Texts(files[TodayFilename(today)])) == []
    ensures outcome.Saved? ==> (
      var docs := split(Texts(files[TodayFilename(today)]));
      docs != [] && outcome.index == existing.GetOr([]) + docs)
  {
    var jsonPath := TodayFilename(today);
    if jsonPath !in files {
      return NoConversationFile;
    }
    var allTexts := AllTexts(files[jsonPath]);
    TextsAreConversations(files[jsonPath], allTexts);
    var docs := split(allTexts);
    if docs == [] {
      return NoDocuments;
    }
    var db: seq<string>;
    if existing.Some? {
      db := existing.value;
    } else {
      db := docs;
    }
    if existing.Some? {
      db := db + docs;
    }
    return Saved(db);
  }

  /** The texts of a file's threads, as a function of the file. */
  function Texts(data: Conversations): (texts: seq<string>)
    ensures |texts| == |data|
  {
    seq(|data|, k requires 0 <= k < |data| => ConversationText(data[k].1))
  }

  lemma TextsAreConversations(data: Conversations, allTexts: seq<string>)
    requires |allTexts| == |data|
    requires forall k :: 0 <= k < |data| ==> allTexts[k] == ConversationText(data[k].1)
    ensures allTexts == Texts(data)
  {
  }

  /** Texts of two files read one after the other are the texts of each in turn. */
  lemma TextsAppend(a: Conversations, b: Conversations)
    ensures Texts(a + b) == Texts(a) + Texts(b)
  {
  }
}
