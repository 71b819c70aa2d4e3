/** The chat store: the conversations shown on the page, the current selection and the
    loading flag, kept in step with the database by the chat actions, and the
    state-update skeleton of sending a message. */
module Chat {
  import opened Js
  import opened Ai
  import opened DbTables
  import opened Db
  import Store

  type Conversation = Store.Conversation

  datatype ChatState = ChatState(
    conversations: seq<Conversation>,
    currentConversationId: Option<string>,
    isLoading: bool)

  const NewChatTitle: string := "New Chat"
  const TitleLength: nat := 30
  const ApologyText: string := "Sorry, I encountered an error processing your request."

  // ---------------------------------------------------------------------------
  // Loading from the database

  /** A stored message as the page shows it: the conversation id and the timestamp are
      dropped, the role is taken as stored. */
  function ToMessage(row: MessageRow): Message {
    Message(row.id, row.role, row.content)
  }

  function ToMessages(rows: seq<MessageRow>): (r: seq<Message>)
    ensures |r| == |rows| && forall i :: 0 <= i < |rows| ==> r[i] == ToMessage(rows[i])
  {
    seq(|rows|, i requires 0 <= i < |rows| => ToMessage(rows[i]))
  }

  /** The `map` of `loadConversations` over the listed conversations: each one with its
      messages as `getMessagesForConversation` returns them. It throws when a message
      query does, which happens only when the `messages` table is missing. */
  function ProjectConversations(t: Tables, rows: seq<ConversationRow>): (r: Result<seq<Conversation>, DbError>)
    ensures r.Failure? <==> rows != [] && MessagesTable !in t.present
    ensures r.Success? ==> |r.value| == |rows|
    ensures r.Success? ==> forall i :: 0 <= i < |rows| ==>
      && r.value[i].id == rows[i].id && r.value[i].title == rows[i].title
      && r.value[i].messages == ToMessages(QueryMessages(t, rows[i].id).value)
  {
    if rows == [] then Success([])
    else if QueryMessages(t, rows[0].id).Failure? then Failure(QueryMessages(t, rows[0].id).error)
    else Success(seq(|rows|, i requires 0 <= i < |rows| =>
      Store.Conversation(rows[i].id, rows[i].title, ToMessages(QueryMessages(t, rows[i].id).value))))
  }

  /** `loadConversations`' read: every stored conversation, newest first, each with its
      messages. */
  function LoadedConversations(engine: Option<Tables>): (r: Result<seq<Conversation>, DbError>)
    ensures engine.None? ==> r == Failure(NotInitialized)
    ensures engine.Some? ==> (r.Failure? <==>
      ConversationsTable !in engine.value.present || (engine.value.conversations != [] && MessagesTable !in engine.value.present))
    ensures r.Success? ==>
      var rows := QueryConversations(engine.value).value;
      && |r.value| == |rows|
      && forall i :: 0 <= i < |rows| ==> r.value[i].id == rows[i].id && r.value[i].title == rows[i].title
  {
    if engine.None? then Failure(NotInitialized)
    else
      var rows := QueryConversations(engine.value);
      if rows.Failure? then Failure(rows.error)
      else
        assert rows.value == [] <==> engine.value.conversations == [] by {
          assert |rows.value| == |multiset(rows.value)| == |multiset(engine.value.conversations)|;
        }
        ProjectConversations(engine.value, rows.value)
  }

  /** The page's copy of a message list holds exactly the messages of those rows. */
  lemma ToMessagesMembers(rows: seq<MessageRow>, m: Message)
    ensures m in ToMessages(rows) <==> exists row :: row in rows && ToMessage(row) == m
  {
    var ms := ToMessages(rows);
    if m in ms {
      var k :| 0 <= k < |ms| && ms[k] == m;
      assert rows[k] in rows;
    }
    if exists row :: row in rows && ToMessage(row) == m {
      var row :| row in rows && ToMessage(row) == m;
      var k :| 0 <= k < |rows| && rows[k] == row;
      assert ms[k] == m;
    }
  }

  /** A loaded conversation holds exactly the stored messages of that conversation, as
      the page shows them, oldest first. */
  lemma LoadedMessagesMatchStore(t: Tables, i: int)
    requires LoadedConversations(Some(t)).Success?
    requires 0 <= i < |LoadedConversations(Some(t)).value|
    ensures var c := LoadedConversations(Some(t)).value[i];
      && (forall m :: m in c.messages <==> exists row :: row in t.messages && row.conversationId == c.id && ToMessage(row) == m)
      && HasConversation(t.conversations, c.id)
  {
    var rows := QueryConversations(t).value;
    var c := LoadedConversations(Some(t)).value[i];
    assert c.id == rows[i].id;
    assert rows[i] in multiset(t.conversations);
    var q := QueryMessages(t, c.id).value;
    assert c.messages == ToMessages(q);
    forall m ensures m in c.messages <==> exists row :: row in t.messages && row.conversationId == c.id && ToMessage(row) == m {
      ToMessagesMembers(q, m);
    }
  }

  // ---------------------------------------------------------------------------
  // Deleting every conversation

  function ConversationIds(cs: seq<Conversation>): (r: seq<string>)
    ensures |r| == |cs| && forall i :: 0 <= i < |cs| ==> r[i] == cs[i].id
  {
    seq(|cs|, i requires 0 <= i < |cs| => cs[i].id)
  }

  /** One `deleteConversation` per id, in order, stopping at the first that throws:
      nothing happens for no ids, everything throws without an engine, and no table is
      created or dropped. */
  function DeleteEach(s: Storage, ids: seq<string>, fkEnforced: bool): (r: (Storage, Outcome<DbError>))
    ensures ids == [] ==> r == (s, Pass)
    ensures s.engine.None? && ids != [] ==> r == (s, Fail(NotInitialized))
    ensures r.0.engine.Some? <==> s.engine.Some?
    ensures s.engine.Some? ==> r.0.engine.value.present == s.engine.value.present
    decreases |ids|
  {
    if ids == [] then (s, Pass)
    else
      var (before, r) := DeleteEach(s, ids[..|ids| - 1], fkEnforced);
      if r.Fail? then (before, r) else Step(before, RemoveConversation(ids[|ids| - 1]), fkEnforced)
  }

  /** Extending the list by one id runs one more delete, unless one already threw. */
  lemma DeleteEachOneMore(s: Storage, ids: seq<string>, i: nat, fkEnforced: bool)
    requires i < |ids|
    ensures DeleteEach(s, ids[..i + 1], fkEnforced) ==
      if DeleteEach(s, ids[..i], fkEnforced).1.Fail? then DeleteEach(s, ids[..i], fkEnforced)
      else Step(DeleteEach(s, ids[..i], fkEnforced).0, RemoveConversation(ids[i]), fkEnforced)
  {
    assert ids[..i + 1][..i] == ids[..i];
  }

  /** Once a delete has thrown, the later ones never run. */
  lemma {:induction false} DeleteEachStopsAtFailure(s: Storage, ids: seq<string>, k: nat, fkEnforced: bool)
    requires k <= |ids| && DeleteEach(s, ids[..k], fkEnforced).1.Fail?
    ensures DeleteEach(s, ids, fkEnforced) == DeleteEach(s, ids[..k], fkEnforced)
    decreases |ids|
  {
    if k < |ids| {
      var init := ids[..|ids| - 1];
      assert init[..k] == ids[..k];
      DeleteEachStopsAtFailure(s, init, k, fkEnforced);
    } else {
      assert ids[..k] == ids;
    }
  }

  /** `after` is `s` with the conversations listed in `ids` removed: the same tables, the
      other conversations kept, and, with foreign keys enforced, their messages gone too
      (without them every message stays behind). */
  ghost predicate RemovedAll(s: Storage, after: Storage, ids: seq<string>, fkEnforced: bool)
    requires s.engine.Some? && after.engine.Some?
  {
    && after.engine.value.present == s.engine.value.present
    && (forall c :: c in after.engine.value.conversations <==> c in s.engine.value.conversations && c.id !in ids)
    && (fkEnforced && MessagesTable in s.engine.value.present ==>
          forall m :: m in after.engine.value.messages <==> m in s.engine.value.messages && m.conversationId !in ids)
    && (!fkEnforced ==> after.engine.value.messages == s.engine.value.messages)
  }

  /** With an initialised engine that has a `conversations` table, deleting each listed
      conversation succeeds and removes exactly those conversations; with foreign keys
      enforced their messages go too, without them every message stays behind. */
  lemma {:induction false} DeleteEachRemovesAll(s: Storage, ids: seq<string>, fkEnforced: bool)
    requires s.engine.Some? && ConversationsTable in s.engine.value.present
    ensures var (after, r) := DeleteEach(s, ids, fkEnforced);
      && r == Pass && after.engine.Some?
      && RemovedAll(s, after, ids, fkEnforced)
      && (ids != [] ==> Persisted(after))
      && (ids == [] ==> after == s)
    decreases |ids|
  {
    if ids != [] {
      var init := ids[..|ids| - 1];
      var last := ids[|ids| - 1];
      DeleteEachRemovesAll(s, init, fkEnforced);
      var mid := DeleteEach(s, init, fkEnforced).0;
      assert DeleteEach(s, init, fkEnforced).1 == Pass;
      assert DeleteEach(s, ids, fkEnforced) == Step(mid, RemoveConversation(last), fkEnforced);
      RemoveOne(mid, last, fkEnforced);
      RemovedOneMore(s, mid, DeleteEach(s, ids, fkEnforced).0, init, last, ids, fkEnforced);
    }
  }

  /** Removing one more conversation after the ones in `init`. */
  lemma RemovedOneMore(s: Storage, mid: Storage, after: Storage, init: seq<string>, last: string,
                       ids: seq<string>, fkEnforced: bool)
    requires s.engine.Some? && mid.engine.Some? && after.engine.Some?
    requires RemovedAll(s, mid, init, fkEnforced)
    requires RemovedAll(mid, after, [last], fkEnforced)
    requires ids != [] && init == ids[..|ids| - 1] && last == ids[|ids| - 1]
    ensures RemovedAll(s, after, ids, fkEnforced)
  {
    assert ids == init + [last];
    assert forall x :: x in ids <==> x in init || x in [last];
  }

  /** One `deleteConversation` on an engine with a `conversations` table. */
  lemma RemoveOne(s: Storage, id: string, fkEnforced: bool)
    requires s.engine.Some? && ConversationsTable in s.engine.value.present
    ensures var (after, r) := Step(s, RemoveConversation(id), fkEnforced);
      && r == Pass && Persisted(after) && after.engine.Some?
      && RemovedAll(s, after, [id], fkEnforced)
  {
    var e := DeleteConversation(s.engine.value, id, fkEnforced);
    assert Apply(s.engine.value, RemoveConversation(id), fkEnforced) == e;
  }

  // ---------------------------------------------------------------------------
  // Sending a message

  /** What the AI call produced: a response whose `text` may be missing, or a throw. */
  datatype AiReply = Replied(text: Option<string>) | Threw

  /** The ids and timestamps a send draws from the clock. */
  datatype Stamps = Stamps(
    conversationId: string, conversationTime: int,
    userMessageId: string, userTime: int,
    replyId: string, replyTime: int,
    apologyId: string, apologyTime: int)

  /** Why the `try` block gave up. */
  datatype Cause = StoreFailed(error: DbError) | EmptyReply | AiThrew

  datatype SendOutcome =
    | Skipped                                                   // the guard returned early
    | Answered(request: Request, reply: Message)               // the reply was stored
    | Apologized(cause: Cause, sent: Option<Request>)          // the apology was stored
    | Rejected(error: DbError)                                  // storing the apology threw too

  function ApologyMessage(id: string): Message {
    Message(id, "assistant", ApologyText)
  }

  /** The message filter of the streaming route (src/utils/ai.ts) drops the apology:
      it is never sendable, and ending a transcript with it leaves the filtered
      transcript unchanged. The chat store calls `genAIResponse` of app/utils/ai.ts,
      which forwards every message unfiltered, so on that path the apology is sent. */
  lemma ApologyNeverSent(ms: seq<Message>, id: string)
    ensures !IsSendable(ApologyMessage(id))
    ensures SendableMessages(ms + [ApologyMessage(id)]) == SendableMessages(ms)
  {
    assert ApologyText[..|ErrorReplyPrefix|] == ErrorReplyPrefix;
    FilterAppendRejected(ms, ApologyMessage(id), IsSendable);
  }

  /** The transcript of the selected conversation, or nothing when it is not listed
      (`currentConversation?.messages || []`). */
  function MessagesOf(cs: seq<Conversation>, cid: string): seq<Message> {
    var c := Store.CurrentIn(cs, Some(cid));
    if c.Some? then c.value.messages else []
  }

  /** The messages `sendMessage` sends, as written: the transcript read after the user
      message was appended to it, followed by the user message once more. */
  function RequestMessagesAsWritten(cs: seq<Conversation>, cid: string, user: Message): (r: seq<Message>)
    ensures EndsWith(r, user) && r[..|r| - 1] == MessagesOf(cs, cid)
  {
    MessagesOf(cs, cid) + [user]
  }

  /** As written, the user message reaches the model twice. */
  lemma UserMessageSentTwice(title: string, user: Message)
    ensures var cs := Store.AppendMessage([Store.Conversation("c", title, [])], "c", user);
      RequestMessagesAsWritten(cs, "c", user) == [user, user]
  {
    var cs := Store.AppendMessage([Store.Conversation("c", title, [])], "c", user);
    Store.AppendToCurrent([Store.Conversation("c", title, [])], "c", user);
    assert Store.CurrentIn([Store.Conversation("c", title, [])], Some("c")).Some?;
  }

  /** The messages to send, corrected: the transcript read after the user message was
      appended already ends with it; only when the conversation is not listed is the
      user message sent alone. */
  function RequestMessages(cs: seq<Conversation>, cid: string, user: Message): (r: seq<Message>)
    ensures Store.CurrentIn(cs, Some(cid)).Some? ==> r == MessagesOf(cs, cid)
    ensures Store.CurrentIn(cs, Some(cid)).None? ==> r == [user]
  {
    var c := Store.CurrentIn(cs, Some(cid));
    if c.Some? then c.value.messages else [user]
  }

  /** Corrected, the request is the transcript as it stood plus the user message,
      exactly once. */
  lemma RequestEndsWithUserOnce(cs: seq<Conversation>, cid: string, user: Message)
    ensures RequestMessages(Store.AppendMessage(cs, cid, user), cid, user) == MessagesOf(cs, cid) + [user]
  {
    Store.AppendToCurrent(cs, cid, user);
  }

  /** The last message of a transcript. */
  predicate EndsWith(ms: seq<Message>, m: Message) {
    ms != [] && ms[|ms| - 1] == m
  }

  /** The page's conversations grew without losing anything: every conversation keeps
      its id, title and position, messages are only appended, and new conversations
      only come at the end. */
  predicate Grows(before: seq<Conversation>, after: seq<Conversation>) {
    && |before| <= |after|
    && forall i :: 0 <= i < |before| ==>
         after[i].id == before[i].id && after[i].title == before[i].title && before[i].messages <= after[i].messages
  }

  /** What a send may do to the page's list: it grows, and the only conversation it
      adds is one at the end with the given id and title, when nothing was selected. */
  predicate SendShape(before: seq<Conversation>, after: seq<Conversation>, hadSelection: bool, newId: string, title: string) {
    && Grows(before, after)
    && (|after| == |before| ||
        (!hadSelection && |after| == |before| + 1 && after[|before|].id == newId && after[|before|].title == title))
  }

  /** A message appended to the selected conversation is the last one it shows. */
  lemma AppendedShownLast(cs: seq<Conversation>, cid: string, m: Message)
    ensures var c := Store.CurrentIn(Store.AppendMessage(cs, cid, m), Some(cid));
      c.Some? ==> EndsWith(c.value.messages, m)
  {
    Store.AppendToCurrent(cs, cid, m);
  }

  // The three lemmas below exist only to split the proof of the send path into small
  // steps: each states one fact about `Grows` or `SendShape` that a method uses.

  lemma GrowsTransitive(a: seq<Conversation>, b: seq<Conversation>, c: seq<Conversation>)
    requires Grows(a, b) && Grows(b, c)
    ensures Grows(a, c)
  {
  }

  lemma AppendGrows(cs: seq<Conversation>, cid: string, m: Message)
    ensures Grows(cs, Store.AppendMessage(cs, cid, m)) && |Store.AppendMessage(cs, cid, m)| == |cs|
  {
  }

  /** Growing further without adding conversations keeps the shape of a send. */
  lemma ShapeKept(a: seq<Conversation>, b: seq<Conversation>, c: seq<Conversation>, hadSelection: bool, newId: string, title: string)
    requires SendShape(a, b, hadSelection, newId, title) && Grows(b, c) && |c| == |b|
    ensures SendShape(a, c, hadSelection, newId, title)
  {
  }

  /** `!conversationId`: no selection, or the empty string. */
  predicate HasSelection(current: Option<string>) {
    current.Some? && current.value != ""
  }

  /** A reply the `try` block accepts: a response with non-blank text. */
  predicate UsableReply(reply: AiReply) {
    reply.Replied? && reply.text.Some? && Trim(reply.text.value) != []
  }

  /** The custom system prompt a send carries: the content of the first active prompt
      of the list, enabled, or none when no prompt is active. */
  function ActiveSystemPrompt(ps: seq<PromptRow>): (r: Option<SystemPrompt>)
    ensures r.None? <==> forall i :: 0 <= i < |ps| ==> !ps[i].isActive
    ensures r.Some? ==> r.value.enabled && exists i :: 0 <= i < |ps| && ps[i].isActive && ps[i].content == r.value.value
  {
    var active := Find(ps, Store.IsActivePrompt);
    if active.Some? then Some(SystemPrompt(active.value.content, true)) else None
  }

  /** Whatever order `getPrompts` lists them in, a database with at most one active
      prompt gives a send that prompt's content as its system prompt. */
  lemma SystemPromptIsTheActivePrompt(t: Tables, i: nat)
    requires PromptsTable in t.present && AtMostOneActive(t.prompts)
    requires i < |t.prompts| && t.prompts[i].isActive
    ensures ActiveSystemPrompt(QueryPrompts(t).value) == Some(SystemPrompt(t.prompts[i].content, true))
  {
    var listed := QueryPrompts(t).value;
    assert t.prompts[i] in multiset(listed);
    var r := ActiveSystemPrompt(listed);
    var j :| 0 <= j < |listed| && listed[j].isActive && listed[j].content == r.value.value;
    assert listed[j] in multiset(t.prompts);
    var k :| 0 <= k < |t.prompts| && t.prompts[k] == listed[j];
  }

  // ---------------------------------------------------------------------------
  // What a send does to the database

  /** `getPrompts` against a given engine and storage entry. */
  function PromptsOf(s: Storage): Result<seq<PromptRow>, DbError> {
    if s.engine.None? then Failure(NotInitialized) else QueryPrompts(s.engine.value)
  }

  /** Creating a conversation or storing a message leaves what `getPrompts` returns
      as it was, whether or not the write throws. */
  lemma PromptsUntouched(s: Storage, op: Mutation, fk: bool)
    requires op.AddMessage? || op.CreateConversation?
    ensures PromptsOf(Step(s, op, fk).0) == PromptsOf(s)
  {
    if s.engine.Some? {
      var t := s.engine.value;
      var e := Apply(t, op, fk);
      assert e.tables.prompts == t.prompts && e.tables.present == t.present;
    }
  }

  /** Storing the user message in conversation `cid`. */
  function UserStep(s: Storage, cid: string, text: string, stamps: Stamps, fk: bool): (Storage, Outcome<DbError>) {
    Step(s, AddMessage(stamps.userMessageId, cid, "user", text, stamps.userTime), fk)
  }

  /** Storing the assistant's reply in conversation `cid`. */
  function ReplyStep(s: Storage, cid: string, text: string, stamps: Stamps, fk: bool): (Storage, Outcome<DbError>) {
    Step(s, AddMessage(stamps.replyId, cid, "assistant", text, stamps.replyTime), fk)
  }

  /** Storing the apology in conversation `cid`. */
  function ApologyStep(s: Storage, cid: string, stamps: Stamps, fk: bool): (Storage, Outcome<DbError>) {
    Step(s, AddMessage(stamps.apologyId, cid, "assistant", ApologyText, stamps.apologyTime), fk)
  }

  /** The `catch` block's write: the apology stored in the selected conversation, and
      nothing at all without a selection. */
  function CatchEffect(s: Storage, current: Option<string>, stamps: Stamps, fk: bool): Storage {
    if current.None? then s else ApologyStep(s, current.value, stamps, fk).0
  }

  /** The end of the `try` block: an unusable reply goes to the `catch` block, a usable
      one is stored, and the `catch` block runs when storing it throws. */
  function RespondEffect(s: Storage, cid: string, stamps: Stamps, reply: AiReply, fk: bool): Storage {
    if !UsableReply(reply) then CatchEffect(s, Some(cid), stamps, fk)
    else
      var (after, r) := ReplyStep(s, cid, reply.text.value, stamps, fk);
      if r.Fail? then CatchEffect(after, Some(cid), stamps, fk) else after
  }

  /** Looking up the prompts throws without an engine or a `prompts` table. */
  function AskEffect(s: Storage, cid: string, stamps: Stamps, reply: AiReply, fk: bool): Storage {
    if s.engine.None? || PromptsTable !in s.engine.value.present then CatchEffect(s, Some(cid), stamps, fk)
    else RespondEffect(s, cid, stamps, reply, fk)
  }

  /** From storing the user message in the selected conversation `cid` on. */
  function ConverseEffect(s: Storage, cid: string, text: string, stamps: Stamps, reply: AiReply, fk: bool): Storage {
    var (after, u) := UserStep(s, cid, text, stamps, fk);
    if u.Fail? then CatchEffect(after, Some(cid), stamps, fk) else AskEffect(after, cid, stamps, reply, fk)
  }

  /** The whole of a send that passed the guard, given the selection it started with:
      without one a conversation is created first, and when that throws the `catch`
      block runs with the selection unchanged. */
  function SendEffect(s: Storage, current: Option<string>, text: string, stamps: Stamps, reply: AiReply, fk: bool): Storage {
    if HasSelection(current) then ConverseEffect(s, current.value, text, stamps, reply, fk)
    else
      var (after, c) := Step(s, CreateConversation(stamps.conversationId, Take(text, TitleLength), stamps.conversationTime), fk);
      if c.Fail? then CatchEffect(after, current, stamps, fk)
      else ConverseEffect(after, stamps.conversationId, text, stamps, reply, fk)
  }

  // ---------------------------------------------------------------------------
  // How a send ends

  /** How a send that passed the guard ends, decided by the same writes as its effect
      on the database: answered, apologised for with a cause, or rejected with the
      error of the `catch` block's own insert. */
  datatype Verdict = Answers | ApologisesFor(cause: Cause) | RejectsWith(error: DbError)

  /** The outcome ends the send the way the verdict says. */
  predicate Settles(outcome: SendOutcome, v: Verdict) {
    match v
    case Answers => outcome.Answered?
    case ApologisesFor(cause) => outcome.Apologized? && outcome.cause == cause
    case RejectsWith(error) => outcome == Rejected(error)
  }

  /** The `catch` block: without a selection the insert names a null conversation and
      throws; otherwise the apology is kept exactly when storing it did not throw. */
  function CatchVerdict(s: Storage, current: Option<string>, cause: Cause, stamps: Stamps, fk: bool): Verdict {
    if current.None? then
      RejectsWith(if s.engine.None? then NotInitialized
                  else if MessagesTable !in s.engine.value.present then NoSuchTable(MessagesTable)
                  else NotNullViolation)
    else
      var r := ApologyStep(s, current.value, stamps, fk).1;
      if r.Fail? then RejectsWith(r.error) else ApologisesFor(cause)
  }

  /** A thrown, missing or blank reply goes to the `catch` block with its cause; a
      usable one is answered exactly when storing it did not throw. */
  function RespondVerdict(s: Storage, cid: string, stamps: Stamps, reply: AiReply, fk: bool): Verdict {
    if reply.Threw? then CatchVerdict(s, Some(cid), AiThrew, stamps, fk)
    else if !UsableReply(reply) then CatchVerdict(s, Some(cid), EmptyReply, stamps, fk)
    else
      var (after, r) := ReplyStep(s, cid, reply.text.value, stamps, fk);
      if r.Fail? then CatchVerdict(after, Some(cid), StoreFailed(r.error), stamps, fk) else Answers
  }

  /** A throwing prompt lookup goes to the `catch` block. */
  function AskVerdict(s: Storage, cid: string, stamps: Stamps, reply: AiReply, fk: bool): Verdict {
    if PromptsOf(s).Failure? then CatchVerdict(s, Some(cid), StoreFailed(PromptsOf(s).error), stamps, fk)
    else RespondVerdict(s, cid, stamps, reply, fk)
  }

  /** A throwing insert of the user message goes to the `catch` block. */
  function ConverseVerdict(s: Storage, cid: string, text: string, stamps: Stamps, reply: AiReply, fk: bool): Verdict {
    var (after, u) := UserStep(s, cid, text, stamps, fk);
    if u.Fail? then CatchVerdict(after, Some(cid), StoreFailed(u.error), stamps, fk)
    else AskVerdict(after, cid, stamps, reply, fk)
  }

  /** How a send ends, given the selection it started with; `SendEffect` is what it
      writes on the way. */
  function SendVerdict(s: Storage, current: Option<string>, text: string, stamps: Stamps, reply: AiReply, fk: bool): Verdict {
    if HasSelection(current) then ConverseVerdict(s, current.value, text, stamps, reply, fk)
    else
      var (after, c) := Step(s, CreateConversation(stamps.conversationId, Take(text, TitleLength), stamps.conversationTime), fk);
      if c.Fail? then CatchVerdict(after, current, StoreFailed(c.error), stamps, fk)
      else ConverseVerdict(after, stamps.conversationId, text, stamps, reply, fk)
  }

  // ---------------------------------------------------------------------------
  // What a send does to the page

  /** The conversation a send writes to: the selected one, or the one it opens. */
  function SendTarget(current: Option<string>, stamps: Stamps): string {
    if HasSelection(current) then current.value else stamps.conversationId
  }

  /** Opening a conversation when nothing is selected; with a selection nothing is
      written. */
  function OpenStep(s: Storage, current: Option<string>, text: string, stamps: Stamps, fk: bool): (Storage, Outcome<DbError>) {
    if HasSelection(current) then (s, Pass)
    else Step(s, CreateConversation(stamps.conversationId, Take(text, TitleLength), stamps.conversationTime), fk)
  }

  /** The page's list once the send's conversation is open: the new, empty conversation
      is added at the end when nothing was selected. */
  function OpenedList(cs: seq<Conversation>, current: Option<string>, text: string, stamps: Stamps): seq<Conversation> {
    if HasSelection(current) then cs else cs + [Store.Conversation(stamps.conversationId, Take(text, TitleLength), [])]
  }

  /** What the end of a send shows in conversation `cid`: the reply when it was answered,
      the apology when the `catch` block stored it, and nothing when that threw too. */
  function ShowOutcome(cs: seq<Conversation>, cid: string, outcome: SendOutcome, stamps: Stamps): seq<Conversation> {
    match outcome
    case Answered(_, reply) => Store.AppendMessage(cs, cid, reply)
    case Apologized(_, _) => Store.AppendMessage(cs, cid, ApologyMessage(stamps.apologyId))
    case _ => cs
  }

  /** The user message is shown in `cid` exactly when storing it did not throw. */
  function ShowUser(cs: seq<Conversation>, s: Storage, cid: string, text: string, stamps: Stamps, fk: bool): seq<Conversation> {
    if UserStep(s, cid, text, stamps, fk).1.Pass? then Store.AppendMessage(cs, cid, Message(stamps.userMessageId, "user", text))
    else cs
  }

  /** What a send that passed the guard leaves on the page, from the list `cs`, the
      selection `current` and the storage `s` it started with to the list `cs'` and the
      selection `current'` it ends with: the conversation it opens is selected exactly
      when opening did not throw; once it is open, the list is the opened list with the
      user message shown when storing it did not throw, followed by the reply or the
      apology, and an answered request is the conversation's transcript before the send
      plus the user message once; when opening threw, only the `catch` block's apology
      can be appended. */
  predicate PageAfterSend(cs: seq<Conversation>, current: Option<string>, s: Storage, text: string, stamps: Stamps,
                          fk: bool, cs': seq<Conversation>, current': Option<string>, outcome: SendOutcome)
  {
    var opening := OpenStep(s, current, text, stamps, fk);
    var cid := SendTarget(current, stamps);
    var listed := OpenedList(cs, current, text, stamps);
    && current' == (if !HasSelection(current) && opening.1.Pass? then Some(stamps.conversationId) else current)
    && (opening.1.Pass? ==> cs' == ShowOutcome(ShowUser(listed, opening.0, cid, text, stamps, fk), cid, outcome, stamps))
    && (opening.1.Pass? && outcome.Answered? ==>
          outcome.request.messages == MessagesOf(listed, cid) + [Message(stamps.userMessageId, "user", text)])
    && (opening.1.Fail? ==>
          cs' == if outcome.Apologized? && current.Some?
                 then Store.AppendMessage(cs, current.value, ApologyMessage(stamps.apologyId))
                 else cs)
  }

  /** Everything a send that passed the guard is known to leave, from the list `cs`, the
      selection `current` and the storage `s` it started with to the list `cs'`, the
      selection `current'`, the storage `s'` and the outcome it ends with: the page
      `PageAfterSend` describes, the database `SendEffect` describes, the ending
      `SendVerdict` decides, and, for an answered send, a usable reply shown after a
      request whose system prompt is the active prompt. */
  predicate SendEnded(cs: seq<Conversation>, current: Option<string>, s: Storage, text: string, stamps: Stamps,
                      reply: AiReply, fk: bool, cs': seq<Conversation>, current': Option<string>, s': Storage,
                      outcome: SendOutcome)
  {
    var shown := Store.CurrentIn(cs', current');
    && PageAfterSend(cs, current, s, text, stamps, fk, cs', current', outcome)
    && s' == SendEffect(s, current, text, stamps, reply, fk)
    && Settles(outcome, SendVerdict(s, current, text, stamps, reply, fk))
    && SendShape(cs, cs', HasSelection(current), stamps.conversationId, Take(text, TitleLength))
    && !outcome.Skipped?
    && (outcome.Answered? ==>
          && UsableReply(reply)
          && outcome.reply == Message(stamps.replyId, "assistant", reply.text.value)
          && EndsWith(outcome.request.messages, Message(stamps.userMessageId, "user", text))
          && PromptsOf(s).Success?
          && outcome.request.systemPrompt == ActiveSystemPrompt(PromptsOf(s).value)
          && (shown.Some? ==> shown.value.messages == outcome.request.messages + [outcome.reply]))
    && (outcome.Apologized? && outcome.cause == AiThrew ==> reply.Threw?)
    && (outcome.Apologized? && outcome.cause == EmptyReply ==> reply.Replied? && !UsableReply(reply))
    && (outcome.Apologized? && shown.Some? ==> EndsWith(shown.value.messages, ApologyMessage(stamps.apologyId)))
  }

  /** The same for the rest of the `try` block in the selected conversation `cid`, which
      stays selected: the user message is shown when storing it did not throw, then the
      reply or the apology. */
  predicate ConverseEnded(cs: seq<Conversation>, cid: string, s: Storage, text: string, stamps: Stamps,
                          reply: AiReply, fk: bool, cs': seq<Conversation>, s': Storage, outcome: SendOutcome)
  {
    var shown := Store.CurrentIn(cs', Some(cid));
    && cs' == ShowOutcome(ShowUser(cs, s, cid, text, stamps, fk), cid, outcome, stamps)
    && (outcome.Answered? ==> outcome.request.messages == MessagesOf(cs, cid) + [Message(stamps.userMessageId, "user", text)])
    && s' == ConverseEffect(s, cid, text, stamps, reply, fk)
    && Settles(outcome, ConverseVerdict(s, cid, text, stamps, reply, fk))
    && Grows(cs, cs') && |cs'| == |cs|
    && !outcome.Skipped?
    && (outcome.Answered? ==>
          && UsableReply(reply)
          && outcome.reply == Message(stamps.replyId, "assistant", reply.text.value)
          && EndsWith(outcome.request.messages, Message(stamps.userMessageId, "user", text))
          && PromptsOf(s).Success?
          && outcome.request.systemPrompt == ActiveSystemPrompt(PromptsOf(s).value)
          && (shown.Some? ==> shown.value.messages == outcome.request.messages + [outcome.reply]))
    && (outcome.Apologized? && outcome.cause == AiThrew ==> reply.Threw?)
    && (outcome.Apologized? && outcome.cause == EmptyReply ==> reply.Replied? && !UsableReply(reply))
    && (outcome.Apologized? && shown.Some? ==> EndsWith(shown.value.messages, ApologyMessage(stamps.apologyId)))
  }

  /** With a selection, a send is the rest of the `try` block in that conversation. */
  lemma SelectedSendEnds(cs: seq<Conversation>, cid: string, s: Storage, text: string, stamps: Stamps,
                         reply: AiReply, fk: bool, cs': seq<Conversation>, s': Storage, outcome: SendOutcome)
    requires HasSelection(Some(cid))
    requires ConverseEnded(cs, cid, s, text, stamps, reply, fk, cs', s', outcome)
    ensures SendEnded(cs, Some(cid), s, text, stamps, reply, fk, cs', Some(cid), s', outcome)
  {
  }

  /** Without a selection, once the new conversation is stored, added and selected, a
      send is the rest of the `try` block in it. */
  lemma OpenedSendEnds(cs: seq<Conversation>, current: Option<string>, s: Storage, text: string, stamps: Stamps,
                       reply: AiReply, fk: bool, cs': seq<Conversation>, s': Storage, outcome: SendOutcome)
    requires !HasSelection(current)
    requires OpenStep(s, current, text, stamps, fk).1.Pass?
    requires ConverseEnded(OpenedList(cs, current, text, stamps), stamps.conversationId, OpenStep(s, current, text, stamps, fk).0,
                           text, stamps, reply, fk, cs', s', outcome)
    ensures SendEnded(cs, current, s, text, stamps, reply, fk, cs', Some(stamps.conversationId), s', outcome)
  {
    var op := CreateConversation(stamps.conversationId, Take(text, TitleLength), stamps.conversationTime);
    PromptsUntouched(s, op, fk);
    var listed := OpenedList(cs, current, text, stamps);
    assert SendShape(cs, listed, false, stamps.conversationId, Take(text, TitleLength));
    ShapeKept(cs, listed, cs', false, stamps.conversationId, Take(text, TitleLength));
  }

  /** Without a selection, when storing the new conversation throws, the `catch` block
      runs with nothing selected and nothing changes. */
  lemma OpenFailedEnds(cs: seq<Conversation>, current: Option<string>, s: Storage, text: string, stamps: Stamps,
                       reply: AiReply, fk: bool, cs': seq<Conversation>, s': Storage, outcome: SendOutcome)
    requires !HasSelection(current)
    requires OpenStep(s, current, text, stamps, fk).1.Fail?
    requires var (after, c) := OpenStep(s, current, text, stamps, fk);
      && s' == CatchEffect(after, current, stamps, fk)
      && Settles(outcome, CatchVerdict(after, current, StoreFailed(c.error), stamps, fk))
    requires outcome.Apologized? || outcome.Rejected?
    requires outcome.Rejected? ==> cs' == cs
    requires outcome.Apologized? ==>
      current.Some? && cs' == Store.AppendMessage(cs, current.value, ApologyMessage(stamps.apologyId))
    requires outcome.Apologized? && Store.CurrentIn(cs', current).Some? ==>
      EndsWith(Store.CurrentIn(cs', current).value.messages, ApologyMessage(stamps.apologyId))
    ensures SendEnded(cs, current, s, text, stamps, reply, fk, cs', current, s', outcome)
  {
    var (after, c) := OpenStep(s, current, text, stamps, fk);
    assert SendEffect(s, current, text, stamps, reply, fk) == CatchEffect(after, current, stamps, fk);
    assert SendVerdict(s, current, text, stamps, reply, fk) == CatchVerdict(after, current, StoreFailed(c.error), stamps, fk);
    if outcome.Apologized? {
      AppendGrows(cs, current.value, ApologyMessage(stamps.apologyId));
    }
  }

  /** In a listed conversation, showing the user message and then the reply or the
      apology (what `ShowOutcome` appends for an answered or apologised send) leaves
      exactly the transcript it had followed by those two messages. */
  lemma SendShowsUserThenAnswer(cs: seq<Conversation>, cid: string, user: Message, last: Message)
    requires Store.CurrentIn(cs, Some(cid)).Some?
    ensures var shown := Store.CurrentIn(Store.AppendMessage(Store.AppendMessage(cs, cid, user), cid, last), Some(cid));
      && shown.Some?
      && shown.value.messages == Store.CurrentIn(cs, Some(cid)).value.messages + [user] + [last]
  {
    Store.AppendToCurrent(cs, cid, user);
    Store.AppendToCurrent(Store.AppendMessage(cs, cid, user), cid, last);
  }

  /** Into a database with every table, where the conversation exists when foreign
      keys are enforced and the message ids are new and distinct, a send stores the
      user message and then either the reply, when it is usable, or the apology; each
      write leaves the snapshot equal to the engine. */
  lemma {:induction false} SendStoresTwoMessages(s: Storage, cid: string, text: string, stamps: Stamps, reply: AiReply, fk: bool)
    requires s.engine.Some? && s.engine.value.present == AllTables
    requires fk ==> HasConversation(s.engine.value.conversations, cid)
    requires !HasMessage(s.engine.value.messages, stamps.userMessageId)
    requires !HasMessage(s.engine.value.messages, stamps.replyId)
    requires !HasMessage(s.engine.value.messages, stamps.apologyId)
    requires stamps.userMessageId != stamps.replyId && stamps.userMessageId != stamps.apologyId
    ensures var after := ConverseEffect(s, cid, text, stamps, reply, fk);
      && Persisted(after)
      && after.engine.value == s.engine.value.(messages := after.engine.value.messages)
      && after.engine.value.messages == s.engine.value.messages + [
           MessageRow(stamps.userMessageId, cid, "user", text, stamps.userTime),
           if UsableReply(reply) then MessageRow(stamps.replyId, cid, "assistant", reply.text.value, stamps.replyTime)
           else MessageRow(stamps.apologyId, cid, "assistant", ApologyText, stamps.apologyTime)]
  {
    var t := s.engine.value;
    var userRow := MessageRow(stamps.userMessageId, cid, "user", text, stamps.userTime);
    var second := if UsableReply(reply) then MessageRow(stamps.replyId, cid, "assistant", reply.text.value, stamps.replyTime)
                  else MessageRow(stamps.apologyId, cid, "assistant", ApologyText, stamps.apologyTime);
    var afterUser := UserStep(s, cid, text, stamps, fk).0;
    StoreTwo(s, userRow, second, fk);
    assert ConverseEffect(s, cid, text, stamps, reply, fk)
        == Step(afterUser, AddMessage(second.id, second.conversationId, second.role, second.content, second.createdAt), fk).0;
  }

  /** Into the same well-formed database, a send is never rejected: it is answered
      exactly when the reply is usable, and otherwise apologised for because the call
      threw or the reply was missing or blank. */
  lemma {:induction false} HealthySendSettles(s: Storage, cid: string, text: string, stamps: Stamps, reply: AiReply, fk: bool)
    requires s.engine.Some? && s.engine.value.present == AllTables
    requires fk ==> HasConversation(s.engine.value.conversations, cid)
    requires !HasMessage(s.engine.value.messages, stamps.userMessageId)
    requires !HasMessage(s.engine.value.messages, stamps.replyId)
    requires !HasMessage(s.engine.value.messages, stamps.apologyId)
    requires stamps.userMessageId != stamps.replyId && stamps.userMessageId != stamps.apologyId
    ensures ConverseVerdict(s, cid, text, stamps, reply, fk) ==
      if UsableReply(reply) then Answers else ApologisesFor(if reply.Threw? then AiThrew else EmptyReply)
  {
    var userRow := MessageRow(stamps.userMessageId, cid, "user", text, stamps.userTime);
    var second := if UsableReply(reply) then MessageRow(stamps.replyId, cid, "assistant", reply.text.value, stamps.replyTime)
                  else MessageRow(stamps.apologyId, cid, "assistant", ApologyText, stamps.apologyTime);
    StoreTwo(s, userRow, second, fk);
    var afterUser := UserStep(s, cid, text, stamps, fk).0;
    PromptsUntouched(s, AddMessage(userRow.id, cid, "user", text, stamps.userTime), fk);
    assert PromptsOf(afterUser).Success?;
  }

  /** Two messages with new, distinct ids stored one after the other are appended in
      that order. */
  lemma StoreTwo(s: Storage, first: MessageRow, second: MessageRow, fk: bool)
    requires s.engine.Some? && MessagesTable in s.engine.value.present
    requires fk ==> HasConversation(s.engine.value.conversations, first.conversationId)
    requires fk ==> HasConversation(s.engine.value.conversations, second.conversationId)
    requires !HasMessage(s.engine.value.messages, first.id) && !HasMessage(s.engine.value.messages, second.id)
    requires first.id != second.id
    ensures var (mid, r1) := Step(s, AddMessage(first.id, first.conversationId, first.role, first.content, first.createdAt), fk);
      var (after, r2) := Step(mid, AddMessage(second.id, second.conversationId, second.role, second.content, second.createdAt), fk);
      && r1 == Pass && r2 == Pass && Persisted(mid) && Persisted(after)
      && mid.engine.value == s.engine.value.(messages := s.engine.value.messages + [first])
      && after.engine.value == s.engine.value.(messages := s.engine.value.messages + [first, second])
  {
    var t := s.engine.value;
    StoreMessage(s, first, fk);
    var t1 := t.(messages := t.messages + [first]);
    var mid := Storage(Some(t1), Some(Image(t1)));
    assert !HasMessage(t1.messages, second.id);
    StoreMessage(mid, second, fk);
    assert t1.messages + [second] == t.messages + [first, second];
  }

  /** Storing a message with a new id into a database with a `messages` table (and its
      conversation, when foreign keys are enforced) appends it and writes the snapshot. */
  lemma StoreMessage(s: Storage, row: MessageRow, fk: bool)
    requires s.engine.Some? && MessagesTable in s.engine.value.present
    requires fk ==> HasConversation(s.engine.value.conversations, row.conversationId)
    requires !HasMessage(s.engine.value.messages, row.id)
    ensures var t := s.engine.value.(messages := s.engine.value.messages + [row]);
      Step(s, AddMessage(row.id, row.conversationId, row.role, row.content, row.createdAt), fk)
        == (Storage(Some(t), Some(Image(t))), Pass)
  {
  }

  // ---------------------------------------------------------------------------
  // The getters installed on the store

  /** `initialState`: nothing listed, nothing selected, not loading. */
  const InitialChatState: ChatState := ChatState([], None, false)

  /** The selected conversation's messages in a given state, or none. */
  function CurrentMessagesIn(s: ChatState): seq<Message> {
    var c := Store.CurrentIn(s.conversations, s.currentConversationId);
    if c.Some? then c.value.messages else []
  }

  /** `getCurrentMessages` as installed: its closure reads the state the store held
      when the getters were added, the initial one, whatever the live state is. */
  function GetCurrentMessagesAsWritten(live: ChatState): (r: seq<Message>)
    ensures r == []
  {
    CurrentMessagesIn(InitialChatState)
  }

  /** With one conversation selected that holds one message, the installed getter
      still reports no messages, where the live state has that message. */
  lemma StaleGetterHidesMessages(m: Message)
    ensures var live := ChatState([Store.Conversation("c", NewChatTitle, [m])], Some("c"), false);
      && GetCurrentMessagesAsWritten(live) == []
      && CurrentMessagesIn(live) == [m]
  {
    var live := ChatState([Store.Conversation("c", NewChatTitle, [m])], Some("c"), false);
    assert Store.HasConversationId("c")(live.conversations[0]);
  }

  /** Read from the live state, the current messages follow every message appended to
      the selected conversation. */
  lemma {:induction false} CurrentMessagesFollowAppend(s: ChatState, cid: string, m: Message)
    requires s.currentConversationId == Some(cid)
    ensures CurrentMessagesIn(s.(conversations := Store.AppendMessage(s.conversations, cid, m))) ==
      if Store.CurrentIn(s.conversations, Some(cid)).Some? then CurrentMessagesIn(s) + [m] else []
  {
    Store.AppendToCurrent(s.conversations, cid, m);
  }

  // ---------------------------------------------------------------------------
  // The chat store

  /** `chatStore` with its `chatActions`; every action that writes goes to the database
      first and updates the page only when the write did not throw. */
  class ChatStore {
    var state: ChatState
    const db: ChatDb

    constructor (db: ChatDb)
      ensures this.db == db && state == InitialChatState
    {
      this.db := db;
      state := InitialChatState;
    }

    /** `getCurrentConversation`, read from the live state: a listed conversation with
        the current id, and none exactly when no listed conversation has it. */
    function GetCurrentConversation(): (r: Option<Conversation>)
      reads this
      ensures r.Some? ==> r.value in state.conversations && state.currentConversationId == Some(r.value.id)
      ensures r.None? <==> (state.currentConversationId.None?
        || forall i :: 0 <= i < |state.conversations| ==> state.conversations[i].id != state.currentConversationId.value)
    {
      Store.CurrentIn(state.conversations, state.currentConversationId)
    }

    /** `getCurrentMessages`, read from the live state: the selected conversation's
        messages, or none. */
    function GetCurrentMessages(): (r: seq<Message>)
      reads this
      ensures GetCurrentConversation().Some? ==> r == GetCurrentConversation().value.messages
      ensures GetCurrentConversation().None? ==> r == []
    {
      CurrentMessagesIn(state)
    }

    method SetConversations(conversations: seq<Conversation>)
      modifies this
      ensures state == old(state).(conversations := conversations)
    {
      state := state.(conversations := conversations);
    }

    method SetCurrentConversationId(id: Option<string>)
      modifies this
      ensures state == old(state).(currentConversationId := id)
    {
      state := state.(currentConversationId := id);
    }

    method SetIsLoading(isLoading: bool)
      modifies this
      ensures state == old(state).(isLoading := isLoading)
    {
      state := state.(isLoading := isLoading);
    }

    /** `createNewChat`: stores a conversation titled "New Chat", then appends it, empty,
        and selects it. */
    method CreateNewChat(id: string, createdAt: int) returns (r: Outcome<DbError>)
      modifies this, db
      ensures (db.Current(), r) == Step(old(db.Current()), CreateConversation(id, NewChatTitle, createdAt), db.fkEnforced)
      ensures r.Pass? ==> state == old(state).(
        conversations := old(state.conversations) + [Store.Conversation(id, NewChatTitle, [])],
        currentConversationId := Some(id))
      ensures r.Fail? ==> state == old(state)
    {
      r := OpenConversation(id, NewChatTitle, createdAt);
    }

    /** Stores a conversation, then appends it, empty, to the page and selects it. */
    method OpenConversation(id: string, title: string, createdAt: int) returns (r: Outcome<DbError>)
      modifies this, db
      ensures (db.Current(), r) == Step(old(db.Current()), CreateConversation(id, title, createdAt), db.fkEnforced)
      ensures r.Pass? ==> state == old(state).(
        conversations := old(state.conversations) + [Store.Conversation(id, title, [])],
        currentConversationId := Some(id))
      ensures r.Fail? ==> state == old(state)
    {
      r := db.CreateConversation(id, title, createdAt);
      if r.Pass? {
        state := state.(
          conversations := state.conversations + [Store.Conversation(id, title, [])],
          currentConversationId := Some(id));
      }
    }

    /** `deleteChat`: deletes in the database, then drops the conversation from the page
        and clears the selection only when it pointed at it. */
    method DeleteChat(id: string) returns (r: Outcome<DbError>)
      modifies this, db
      ensures (db.Current(), r) == Step(old(db.Current()), RemoveConversation(id), db.fkEnforced)
      ensures r.Pass? ==> state == old(state).(
        conversations := Store.DropConversation(old(state.conversations), id),
        currentConversationId := if old(state.currentConversationId) == Some(id) then None else old(state.currentConversationId))
      ensures r.Pass? ==> forall c :: c in state.conversations <==> c in old(state.conversations) && c.id != id
      ensures r.Fail? ==> state == old(state)
    {
      r := db.DeleteConversation(id);
      if r.Pass? {
        state := state.(
          conversations := Store.DropConversation(state.conversations, id),
          currentConversationId := if state.currentConversationId == Some(id) then None else state.currentConversationId);
      }
    }

    /** `clearAllChats`: one database delete per listed conversation, in list order;
        when none throws, the page is left with no conversations and no selection. */
    method ClearAllChats() returns (r: Outcome<DbError>)
      modifies this, db
      ensures (db.Current(), r) == DeleteEach(old(db.Current()), ConversationIds(old(state.conversations)), db.fkEnforced)
      ensures r.Pass? ==> state == old(state).(conversations := [], currentConversationId := None)
      ensures r.Fail? ==> state == old(state)
    {
      r := DeleteAll(ConversationIds(state.conversations));
      if r.Pass? {
        state := state.(conversations := [], currentConversationId := None);
      }
    }

    /** The loop of `clearAllChats`: the deletes in order, leaving the loop at the
        first that throws. */
    method DeleteAll(ids: seq<string>) returns (r: Outcome<DbError>)
      modifies db
      ensures (db.Current(), r) == DeleteEach(old(db.Current()), ids, db.fkEnforced)
    {
      ghost var start := db.Current();
      var i := 0;
      while i < |ids|
        invariant 0 <= i <= |ids|
        invariant (db.Current(), Pass) == DeleteEach(start, ids[..i], db.fkEnforced)
      {
        var d := DeleteNext(start, ids, i);
        if d.Fail? {
          DeleteEachStopsAtFailure(start, ids, i + 1, db.fkEnforced);
          return d;
        }
        i := i + 1;
      }
      assert ids[..i] == ids;
      r := Pass;
    }

    /** One turn of the `clearAllChats` loop: the delete of `ids[i]`. */
    method DeleteNext(ghost start: Storage, ids: seq<string>, i: nat) returns (d: Outcome<DbError>)
      requires i < |ids| && (db.Current(), Pass) == DeleteEach(start, ids[..i], db.fkEnforced)
      modifies db
      ensures (db.Current(), d) == DeleteEach(start, ids[..i + 1], db.fkEnforced)
    {
      d := db.DeleteConversation(ids[i]);
      DeleteEachOneMore(start, ids, i, db.fkEnforced);
    }

    /** `updateChatTitle`: renames in the database, then on the page. */
    method UpdateChatTitle(id: string, title: string) returns (r: Outcome<DbError>)
      modifies this, db
      ensures (db.Current(), r) == Step(old(db.Current()), RetitleConversation(id, title), db.fkEnforced)
      ensures r.Pass? ==> state == old(state).(conversations := Store.RetitleConversations(old(state.conversations), id, title))
      ensures r.Fail? ==> state == old(state)
    {
      r := db.UpdateConversationTitle(id, title);
      if r.Pass? {
        state := state.(conversations := Store.RetitleConversations(state.conversations, id, title));
      }
    }

    /** `loadConversations`: replaces the page's conversations with the stored ones;
        nothing changes when a query throws. */
    method LoadConversations() returns (r: Outcome<DbError>)
      modifies this
      ensures r.Pass? <==> LoadedConversations(db.db).Success?
      ensures r.Pass? ==> state == old(state).(conversations := LoadedConversations(db.db).value)
      ensures r.Fail? ==> state == old(state) && r.error == LoadedConversations(db.db).error
    {
      var rows := db.GetConversations();
      if rows.Failure? {
        return Fail(rows.error);
      }
      var loaded := ProjectConversations(db.db.value, rows.value);
      if loaded.Failure? {
        return Fail(loaded.error);
      }
      state := state.(conversations := loaded.value);
      r := Pass;
    }

    /** `sendMessage`: ignored when the trimmed input is empty or a send is under way;
        otherwise the `try`, `catch` and `finally` blocks, after which the loading flag
        is down. A send that starts without a selection adds one conversation at the
        end, titled with the first 30 characters of the trimmed input. An answered
        send's request is the transcript up to and including the user message with the
        active prompt as its system prompt, and the reply follows it in the selected
        conversation. A reply that throws, is missing or is blank is never answered:
        the apology takes its place. The database goes through the writes `SendEffect`
        describes. */
    method SendMessage(input: string, stamps: Stamps, reply: AiReply) returns (outcome: SendOutcome)
      modifies this, db
      ensures outcome.Skipped? <==> Trim(input) == [] || old(state.isLoading)
      ensures outcome.Skipped? ==> state == old(state) && db.Current() == old(db.Current())
      ensures !outcome.Skipped? ==> !state.isLoading
      ensures !outcome.Skipped? ==>
        SendEnded(old(state.conversations), old(state.currentConversationId), old(db.Current()), Trim(input), stamps,
          reply, db.fkEnforced, state.conversations, state.currentConversationId, db.Current(), outcome)
      ensures !outcome.Skipped? && !UsableReply(reply) ==> outcome.Apologized? || outcome.Rejected?
    {
      var text := Trim(input);
      if text == [] || state.isLoading {
        return Skipped;
      }
      state := state.(isLoading := true);
      outcome := TrySend(text, stamps, reply);
      state := state.(isLoading := false);
    }

    /** The `try` block, with the `catch` block on every path that throws: first a
        conversation is opened when nothing is selected. */
    method TrySend(text: string, stamps: Stamps, reply: AiReply) returns (outcome: SendOutcome)
      modifies this, db
      ensures SendEnded(old(state.conversations), old(state.currentConversationId), old(db.Current()), text, stamps,
        reply, db.fkEnforced, state.conversations, state.currentConversationId, db.Current(), outcome)
      ensures state.isLoading == old(state.isLoading)
    {
      if !HasSelection(state.currentConversationId) {
        outcome := OpenFirst(text, stamps, reply);
        return;
      }
      ghost var start := state.conversations;
      ghost var before := db.Current();
      var cid := state.currentConversationId.value;
      outcome := Converse(cid, text, stamps, reply);
      SelectedSendEnds(start, cid, before, text, stamps, reply, db.fkEnforced, state.conversations, db.Current(), outcome);
    }

    /** The `try` block with nothing selected: a conversation titled by the start of the
        text is created and selected, and the catch block runs when that throws. */
    method OpenFirst(text: string, stamps: Stamps, reply: AiReply) returns (outcome: SendOutcome)
      requires !HasSelection(state.currentConversationId)
      modifies this, db
      ensures SendEnded(old(state.conversations), old(state.currentConversationId), old(db.Current()), text, stamps,
        reply, db.fkEnforced, state.conversations, state.currentConversationId, db.Current(), outcome)
      ensures state.isLoading == old(state.isLoading)
    {
      ghost var start := state.conversations;
      ghost var before := db.Current();
      ghost var current := state.currentConversationId;
      var created := OpenConversation(stamps.conversationId, Take(text, TitleLength), stamps.conversationTime);
      if created.Fail? {
        outcome := Recover(StoreFailed(created.error), None, stamps);
        OpenFailedEnds(start, current, before, text, stamps, reply, db.fkEnforced, state.conversations, db.Current(), outcome);
        return;
      }
      outcome := Converse(stamps.conversationId, text, stamps, reply);
      OpenedSendEnds(start, current, before, text, stamps, reply, db.fkEnforced, state.conversations, db.Current(), outcome);
    }

    /** The rest of the `try` block for the selected conversation `cid`: the user
        message is stored and shown, then the request is made. */
    method Converse(cid: string, text: string, stamps: Stamps, reply: AiReply) returns (outcome: SendOutcome)
      requires state.currentConversationId == Some(cid)
      modifies this, db
      ensures ConverseEnded(old(state.conversations), cid, old(db.Current()), text, stamps, reply, db.fkEnforced,
        state.conversations, db.Current(), outcome)
      ensures state.isLoading == old(state.isLoading) && state.currentConversationId == old(state.currentConversationId)
    {
      ghost var before := db.Current();
      var user := Message(stamps.userMessageId, "user", text);
      var added := db.AddMessage(user.id, cid, user.role, user.content, stamps.userTime);
      PromptsUntouched(before, AddMessage(user.id, cid, user.role, user.content, stamps.userTime), db.fkEnforced);
      assert (db.Current(), added) == UserStep(before, cid, text, stamps, db.fkEnforced);
      if added.Fail? {
        outcome := Recover(StoreFailed(added.error), None, stamps);
        return;
      }
      outcome := ShowAndAsk(cid, user, stamps, reply);
    }

    /** With the user message stored: it is shown in the selected conversation `cid`,
        and the request is made. */
    method ShowAndAsk(cid: string, user: Message, stamps: Stamps, reply: AiReply) returns (outcome: SendOutcome)
      requires state.currentConversationId == Some(cid)
      modifies this, db
      ensures Settles(outcome, AskVerdict(old(db.Current()), cid, stamps, reply, db.fkEnforced))
      ensures state.conversations == ShowOutcome(Store.AppendMessage(old(state.conversations), cid, user), cid, outcome, stamps)
      ensures outcome.Answered? ==> outcome.request.messages == MessagesOf(old(state.conversations), cid) + [user]
      ensures !outcome.Skipped?
      ensures state.isLoading == old(state.isLoading) && state.currentConversationId == old(state.currentConversationId)
      ensures Grows(old(state.conversations), state.conversations) && |state.conversations| == |old(state.conversations)|
      ensures db.Current() == AskEffect(old(db.Current()), cid, stamps, reply, db.fkEnforced)
      ensures outcome.Answered? ==>
        && UsableReply(reply)
        && outcome.reply == Message(stamps.replyId, "assistant", reply.text.value)
        && EndsWith(outcome.request.messages, user)
        && old(db.GetPrompts()).Success?
        && outcome.request.systemPrompt == ActiveSystemPrompt(old(db.GetPrompts()).value)
        && (GetCurrentConversation().Some? ==>
              GetCurrentConversation().value.messages == outcome.request.messages + [outcome.reply])
      ensures outcome.Apologized? && outcome.cause == AiThrew ==> reply.Threw?
      ensures outcome.Apologized? && outcome.cause == EmptyReply ==> reply.Replied? && !UsableReply(reply)
      ensures outcome.Apologized? && GetCurrentConversation().Some? ==>
        EndsWith(GetCurrentConversation().value.messages, ApologyMessage(stamps.apologyId))
    {
      ghost var listed := state.conversations;
      state := state.(conversations := Store.AppendMessage(state.conversations, cid, user));
      AppendGrows(listed, cid, user);
      RequestEndsWithUserOnce(listed, cid, user);
      ghost var withUser := state.conversations;
      outcome := Ask(cid, user, stamps, reply);
      GrowsTransitive(listed, withUser, state.conversations);
    }

    /** With the user message shown: the active prompt is looked up, the request is
        built from the conversation's transcript and the reply is handled. */
    method Ask(cid: string, user: Message, stamps: Stamps, reply: AiReply) returns (outcome: SendOutcome)
      requires state.currentConversationId == Some(cid)
      requires EndsWith(RequestMessages(state.conversations, cid, user), user)
      modifies this, db
      ensures Settles(outcome, AskVerdict(old(db.Current()), cid, stamps, reply, db.fkEnforced))
      ensures state.conversations == ShowOutcome(old(state.conversations), cid, outcome, stamps)
      ensures outcome.Answered? ==> outcome.request.messages == RequestMessages(old(state.conversations), cid, user)
      ensures !outcome.Skipped?
      ensures state.isLoading == old(state.isLoading) && state.currentConversationId == old(state.currentConversationId)
      ensures Grows(old(state.conversations), state.conversations) && |state.conversations| == |old(state.conversations)|
      ensures db.Current() == AskEffect(old(db.Current()), cid, stamps, reply, db.fkEnforced)
      ensures outcome.Answered? ==>
        && UsableReply(reply)
        && outcome.reply == Message(stamps.replyId, "assistant", reply.text.value)
        && EndsWith(outcome.request.messages, user)
        && old(db.GetPrompts()).Success?
        && outcome.request.systemPrompt == ActiveSystemPrompt(old(db.GetPrompts()).value)
        && (GetCurrentConversation().Some? ==>
              GetCurrentConversation().value.messages == outcome.request.messages + [outcome.reply])
      ensures outcome.Apologized? && outcome.cause == AiThrew ==> reply.Threw?
      ensures outcome.Apologized? && outcome.cause == EmptyReply ==> reply.Replied? && !UsableReply(reply)
      ensures outcome.Apologized? && GetCurrentConversation().Some? ==>
        EndsWith(GetCurrentConversation().value.messages, ApologyMessage(stamps.apologyId))
    {
      var prompts := db.GetPrompts();
      if prompts.Failure? {
        outcome := Recover(StoreFailed(prompts.error), None, stamps);
        return;
      }
      var request := Request(RequestMessages(state.conversations, cid, user), ActiveSystemPrompt(prompts.value), None, None);
      outcome := Respond(cid, request, stamps, reply);
    }

    /** The end of the `try` block: a missing or blank reply throws, otherwise it is
        stored and shown after the request's transcript. */
    method Respond(cid: string, request: Request, stamps: Stamps, reply: AiReply) returns (outcome: SendOutcome)
      requires state.currentConversationId == Some(cid)
      requires GetCurrentConversation().Some? ==> GetCurrentConversation().value.messages == request.messages
      modifies this, db
      ensures Settles(outcome, RespondVerdict(old(db.Current()), cid, stamps, reply, db.fkEnforced))
      ensures state.conversations == ShowOutcome(old(state.conversations), cid, outcome, stamps)
      ensures !outcome.Skipped?
      ensures state.isLoading == old(state.isLoading) && state.currentConversationId == old(state.currentConversationId)
      ensures Grows(old(state.conversations), state.conversations) && |state.conversations| == |old(state.conversations)|
      ensures db.Current() == RespondEffect(old(db.Current()), cid, stamps, reply, db.fkEnforced)
      ensures outcome.Apologized? ==> outcome.sent == Some(request)
      ensures outcome.Answered? ==> UsableReply(reply) && outcome == Answered(request, Message(stamps.replyId, "assistant", reply.text.value))
      ensures outcome.Answered? && GetCurrentConversation().Some? ==>
        GetCurrentConversation().value.messages == request.messages + [outcome.reply]
      ensures outcome.Apologized? && outcome.cause == AiThrew ==> reply.Threw?
      ensures outcome.Apologized? && outcome.cause == EmptyReply ==> reply.Replied? && !UsableReply(reply)
      ensures outcome.Apologized? && GetCurrentConversation().Some? ==>
        EndsWith(GetCurrentConversation().value.messages, ApologyMessage(stamps.apologyId))
    {
      if reply.Threw? {
        outcome := Recover(AiThrew, Some(request), stamps);
        return;
      }
      if reply.text.None? || Trim(reply.text.value) == [] {
        outcome := Recover(EmptyReply, Some(request), stamps);
        return;
      }
      outcome := StoreReply(cid, request, reply.text.value, stamps);
    }

    /** A usable reply: it is stored, and shown after the request's transcript when
        storing it did not throw; otherwise the `catch` block runs. */
    method StoreReply(cid: string, request: Request, text: string, stamps: Stamps) returns (outcome: SendOutcome)
      requires state.currentConversationId == Some(cid)
      requires GetCurrentConversation().Some? ==> GetCurrentConversation().value.messages == request.messages
      modifies this, db
      ensures var (after, r) := ReplyStep(old(db.Current()), cid, text, stamps, db.fkEnforced);
        r.Fail? ==> Settles(outcome, CatchVerdict(after, Some(cid), StoreFailed(r.error), stamps, db.fkEnforced))
      ensures state.conversations == ShowOutcome(old(state.conversations), cid, outcome, stamps)
      ensures outcome.Apologized? ==> outcome.sent == Some(request)
      ensures outcome.Answered? || outcome.Rejected? || (outcome.Apologized? && outcome.cause.StoreFailed?)
      ensures state.isLoading == old(state.isLoading) && state.currentConversationId == old(state.currentConversationId)
      ensures Grows(old(state.conversations), state.conversations) && |state.conversations| == |old(state.conversations)|
      ensures var (after, r) := ReplyStep(old(db.Current()), cid, text, stamps, db.fkEnforced);
        && (r.Pass? ==> db.Current() == after && outcome == Answered(request, Message(stamps.replyId, "assistant", text)))
        && (r.Fail? ==> db.Current() == CatchEffect(after, Some(cid), stamps, db.fkEnforced) && !outcome.Answered?)
      ensures outcome.Answered? && GetCurrentConversation().Some? ==>
        GetCurrentConversation().value.messages == request.messages + [outcome.reply]
      ensures outcome.Apologized? && GetCurrentConversation().Some? ==>
        EndsWith(GetCurrentConversation().value.messages, ApologyMessage(stamps.apologyId))
    {
      var answer := Message(stamps.replyId, "assistant", text);
      var stored := db.AddMessage(answer.id, cid, answer.role, answer.content, stamps.replyTime);
      if stored.Fail? {
        outcome := Recover(StoreFailed(stored.error), Some(request), stamps);
        return;
      }
      ghost var before := state.conversations;
      state := state.(conversations := Store.AppendMessage(state.conversations, cid, answer));
      Store.AppendToCurrent(before, cid, answer);
      AppendGrows(before, cid, answer);
      outcome := Answered(request, answer);
    }

    /** The `catch` block: appends the apology to the selected conversation, in the
        database and then on the page. Without a selection the stored message would have
        a null conversation id, which the schema rejects. */
    method Recover(cause: Cause, sent: Option<Request>, stamps: Stamps) returns (outcome: SendOutcome)
      modifies this, db
      ensures Settles(outcome, CatchVerdict(old(db.Current()), old(state.currentConversationId), cause, stamps, db.fkEnforced))
      ensures outcome.Apologized? || outcome.Rejected?
      ensures Grows(old(state.conversations), state.conversations) && |state.conversations| == |old(state.conversations)|
      ensures state.isLoading == old(state.isLoading) && state.currentConversationId == old(state.currentConversationId)
      ensures outcome.Rejected? ==> state == old(state)
      ensures old(state.currentConversationId).None? ==> outcome.Rejected? && db.Current() == old(db.Current())
      ensures old(state.currentConversationId).None? ==> (outcome.error ==
        if db.db.None? then NotInitialized
        else if MessagesTable !in db.db.value.present then NoSuchTable(MessagesTable)
        else NotNullViolation)
      ensures db.Current() == CatchEffect(old(db.Current()), old(state.currentConversationId), stamps, db.fkEnforced)
      ensures old(state.currentConversationId).Some? ==> (outcome.Rejected? <==>
        ApologyStep(old(db.Current()), old(state.currentConversationId).value, stamps, db.fkEnforced).1.Fail?)
      ensures outcome.Apologized? ==>
        && outcome == Apologized(cause, sent)
        && old(state.currentConversationId).Some?
        && state == old(state).(conversations := Store.AppendMessage(old(state.conversations),
             old(state.currentConversationId).value, ApologyMessage(stamps.apologyId)))
      ensures outcome.Apologized? && GetCurrentConversation().Some? ==>
        EndsWith(GetCurrentConversation().value.messages, ApologyMessage(stamps.apologyId))
    {
      if state.currentConversationId.None? {
        // `currentConversationId!` is null here: the insert cannot name a conversation.
        if db.db.None? {
          return Rejected(NotInitialized);
        } else if MessagesTable !in db.db.value.present {
          return Rejected(NoSuchTable(MessagesTable));
        }
        return Rejected(NotNullViolation);
      }
      outcome := Apologize(state.currentConversationId.value, cause, sent, stamps);
    }

    /** The `catch` block with conversation `cid` selected: the apology is stored, and
        shown at the end of that conversation when storing it did not throw. */
    method Apologize(cid: string, cause: Cause, sent: Option<Request>, stamps: Stamps) returns (outcome: SendOutcome)
      requires state.currentConversationId == Some(cid)
      modifies this, db
      ensures Settles(outcome, CatchVerdict(old(db.Current()), Some(cid), cause, stamps, db.fkEnforced))
      ensures db.Current() == ApologyStep(old(db.Current()), cid, stamps, db.fkEnforced).0
      ensures outcome.Rejected? <==> ApologyStep(old(db.Current()), cid, stamps, db.fkEnforced).1.Fail?
      ensures outcome.Rejected? ==> state == old(state)
      ensures outcome.Apologized? ==>
        && outcome == Apologized(cause, sent)
        && state == old(state).(conversations := Store.AppendMessage(old(state.conversations), cid, ApologyMessage(stamps.apologyId)))
      ensures outcome.Apologized? || outcome.Rejected?
      ensures Grows(old(state.conversations), state.conversations) && |state.conversations| == |old(state.conversations)|
      ensures outcome.Apologized? && GetCurrentConversation().Some? ==>
        EndsWith(GetCurrentConversation().value.messages, ApologyMessage(stamps.apologyId))
    {
      var apology := ApologyMessage(stamps.apologyId);
      var stored := db.AddMessage(apology.id, cid, apology.role, apology.content, stamps.apologyTime);
      if stored.Fail? {
        return Rejected(stored.error);
      }
      AppendGrows(state.conversations, cid, apology);
      AppendedShownLast(state.conversations, cid, apology);
      state := state.(conversations := Store.AppendMessage(state.conversations, cid, apology));
      outcome := Apologized(cause, sent);
    }
  }
}
