/** The relational content of the chat database: its five tables as values, the effect
    of each SQL statement the repository runs, the ordered queries, and the integrity
    the schema declares (primary keys, and the foreign key from messages to
    conversations when the engine enforces it). */
module DbTables {
  import opened Js

  datatype TableName = ConversationsTable | MessagesTable | PromptsTable | SettingsTable | UserSettingsTable

  datatype ConversationRow = ConversationRow(id: string, title: string, createdAt: int)
  datatype MessageRow = MessageRow(id: string, conversationId: string, role: string, content: string, createdAt: int)
  datatype PromptRow = PromptRow(id: string, name: string, content: string, isActive: bool, createdAt: int)
  datatype SettingRow = SettingRow(value: string, enabled: bool)

  /** The content of the database: the tables that exist and their rows. Rows of the
      three id-keyed tables are kept in insertion (rowid) order; the two key/value
      tables are maps from their primary key. */
  datatype Tables = Tables(
    present: set<TableName>,
    conversations: seq<ConversationRow>,
    messages: seq<MessageRow>,
    prompts: seq<PromptRow>,
    settings: map<string, SettingRow>,
    userSettings: map<string, string>)

  /** Why a repository call throws. */
  datatype DbError =
    | NotInitialized             // 'Database not initialized'
    | NoSuchTable(table: TableName)
    | UniqueViolation(table: TableName)
    | ForeignKeyViolation
    | NotNullViolation
    | CorruptSnapshot

  /** The effect of a run of statements: all of them ran, or one failed after the
      earlier ones had taken effect (no transaction rolls them back). */
  datatype Exec = Done(tables: Tables) | Failed(tables: Tables, error: DbError) {
    function Status(): Outcome<DbError> {
      if Done? then Pass else Fail(error)
    }
  }

  // ---------------------------------------------------------------------------
  // Schema

  const AllTables: set<TableName> :=
    {ConversationsTable, MessagesTable, PromptsTable, SettingsTable, UserSettingsTable}

  /** A new database after the five `CREATE TABLE IF NOT EXISTS` statements. */
  const FreshDatabase: Tables := Tables(AllTables, [], [], [], map[], map[])

  /** The reload path: only the `settings` table is created if it is missing. */
  function EnsureSettingsTable(t: Tables): (r: Tables)
    ensures SettingsTable in r.present
    ensures r.present - {SettingsTable} == t.present - {SettingsTable}
    ensures r.(present := t.present) == t
  {
    t.(present := t.present + {SettingsTable})
  }

  // ---------------------------------------------------------------------------
  // Integrity

  function ConversationKey(c: ConversationRow): string { c.id }
  function MessageKey(m: MessageRow): string { m.id }
  function PromptKey(p: PromptRow): string { p.id }

  /** No two rows share a primary key. */
  predicate UniqueBy<T>(s: seq<T>, key: T -> string) {
    forall i, j :: 0 <= i < j < |s| ==> key(s[i]) != key(s[j])
  }

  predicate HasConversation(cs: seq<ConversationRow>, id: string) {
    exists c :: c in cs && c.id == id
  }

  predicate HasMessage(ms: seq<MessageRow>, id: string) {
    exists m :: m in ms && m.id == id
  }

  predicate HasPrompt(ps: seq<PromptRow>, id: string) {
    exists p :: p in ps && p.id == id
  }

  /** Every message belongs to an existing conversation. */
  predicate ReferentialIntegrity(t: Tables) {
    forall m :: m in t.messages ==> HasConversation(t.conversations, m.conversationId)
  }

  /** A table that does not exist holds no rows. */
  predicate AbsentTablesEmpty(t: Tables) {
    && (ConversationsTable !in t.present ==> t.conversations == [])
    && (MessagesTable !in t.present ==> t.messages == [])
    && (PromptsTable !in t.present ==> t.prompts == [])
    && (SettingsTable !in t.present ==> t.settings == map[])
    && (UserSettingsTable !in t.present ==> t.userSettings == map[])
  }

  /** What the schema guarantees of any content: unique primary keys, and, when the
      engine enforces foreign keys, referential integrity. */
  predicate Consistent(t: Tables, fkEnforced: bool) {
    && UniqueBy(t.conversations, ConversationKey)
    && UniqueBy(t.messages, MessageKey)
    && UniqueBy(t.prompts, PromptKey)
    && AbsentTablesEmpty(t)
    && (fkEnforced ==> ReferentialIntegrity(t))
  }

  /** Filtering rows never creates a duplicate key. */
  lemma {:induction false} FilterKeepsUnique<T(!new)>(s: seq<T>, keep: T -> bool, key: T -> string)
    requires UniqueBy(s, key)
    ensures UniqueBy(Filter(s, keep), key)
  {
    if s != [] {
      var tail := s[1..];
      assert UniqueBy(tail, key) by {
        forall i, j | 0 <= i < j < |tail| ensures key(tail[i]) != key(tail[j]) {
          assert tail[i] == s[i + 1] && tail[j] == s[j + 1];
        }
      }
      FilterKeepsUnique(tail, keep, key);
      var rest := Filter(tail, keep);
      if keep(s[0]) {
        forall y | y in rest ensures key(y) != key(s[0]) {
          var k :| 0 <= k < |tail| && tail[k] == y;
          assert s[k + 1] == y;
        }
        ConsKeepsUnique(s[0], rest, key);
      }
    }
  }

  lemma ConsKeepsUnique<T>(x: T, rest: seq<T>, key: T -> string)
    requires UniqueBy(rest, key)
    requires forall y :: y in rest ==> key(y) != key(x)
    ensures UniqueBy([x] + rest, key)
  {
    var r := [x] + rest;
    forall i, j | 0 <= i < j < |r| ensures key(r[i]) != key(r[j]) {
      assert r[j] == rest[j - 1];
      if i > 0 {
        assert r[i] == rest[i - 1];
      }
    }
  }

  // ---------------------------------------------------------------------------
  // ORDER BY created_at

  predicate SortedAsc<T>(s: seq<T>, key: T -> int) {
    forall i, j :: 0 <= i < j < |s| ==> key(s[i]) <= key(s[j])
  }

  predicate SortedDesc<T>(s: seq<T>, key: T -> int) {
    forall i, j :: 0 <= i < j < |s| ==> key(s[i]) >= key(s[j])
  }

  function InsertSorted<T(==)>(x: T, s: seq<T>, key: T -> int): (r: seq<T>)
    requires SortedAsc(s, key)
    ensures SortedAsc(r, key)
    ensures multiset(r) == multiset(s) + multiset{x}
  {
    if s == [] then [x]
    else if key(x) <= key(s[0]) then [x] + s
    else
      var rest := InsertSorted(x, s[1..], key);
      assert s == [s[0]] + s[1..];
      BoundedBelow(s[0], x, s[1..], rest, key);
      ConsSorted(s[0], rest, key);
      [s[0]] + rest
  }

  /** Every row of `rest`, a permutation of `x` and the tail of a sorted list headed by
      `h` with `key(h) < key(x)`, sorts after `h`. */
  lemma BoundedBelow<T>(h: T, x: T, tail: seq<T>, rest: seq<T>, key: T -> int)
    requires SortedAsc([h] + tail, key) && key(h) < key(x)
    requires multiset(rest) == multiset(tail) + multiset{x}
    ensures forall y :: y in rest ==> key(h) <= key(y)
  {
    forall y | y in rest ensures key(h) <= key(y) {
      assert y in multiset(rest);
      if y != x {
        assert y in multiset(tail);
        var k :| 0 <= k < |tail| && tail[k] == y;
        assert ([h] + tail)[0] == h && ([h] + tail)[k + 1] == y;
      }
    }
  }

  lemma ConsSorted<T>(h: T, rest: seq<T>, key: T -> int)
    requires SortedAsc(rest, key) && forall y :: y in rest ==> key(h) <= key(y)
    ensures SortedAsc([h] + rest, key)
  {
    var r := [h] + rest;
    forall i, j | 0 <= i < j < |r| ensures key(r[i]) <= key(r[j]) {
      if i == 0 {
        assert r[j] == rest[j - 1];
        assert rest[j - 1] in rest;
      } else {
        assert r[i] == rest[i - 1] && r[j] == rest[j - 1];
      }
    }
  }

  /** An ordering of the rows by ascending key; it keeps insertion order among ties, one
      of the orders the engine may return. */
  function SortAsc<T(==)>(s: seq<T>, key: T -> int): (r: seq<T>)
    ensures SortedAsc(r, key)
    ensures multiset(r) == multiset(s)
  {
    if s == [] then []
    else
      assert s == [s[0]] + s[1..];
      InsertSorted(s[0], SortAsc(s[1..], key), key)
  }

  function ConversationCreatedAt(c: ConversationRow): int { c.createdAt }
  function ConversationCreatedAtNeg(c: ConversationRow): int { -c.createdAt }
  function MessageCreatedAt(m: MessageRow): int { m.createdAt }
  function PromptCreatedAtNeg(p: PromptRow): int { -p.createdAt }

  // ---------------------------------------------------------------------------
  // Conversations

  /** `INSERT INTO conversations (id, title)`; `created_at` takes the current time. */
  function InsertConversation(t: Tables, id: string, title: string, now: int): (r: Exec)
    ensures r.Done? <==> ConversationsTable in t.present && !HasConversation(t.conversations, id)
    ensures r.Done? ==> r.tables.conversations == t.conversations + [ConversationRow(id, title, now)]
    ensures r.tables.(conversations := t.conversations) == t
    ensures r.Failed? ==> r.tables == t
  {
    if ConversationsTable !in t.present then Failed(t, NoSuchTable(ConversationsTable))
    else if HasConversation(t.conversations, id) then Failed(t, UniqueViolation(ConversationsTable))
    else Done(t.(conversations := t.conversations + [ConversationRow(id, title, now)]))
  }

  function RetitleRows(cs: seq<ConversationRow>, id: string, title: string): (r: seq<ConversationRow>)
    ensures |r| == |cs|
    ensures forall i :: 0 <= i < |cs| ==> r[i] == if cs[i].id == id then cs[i].(title := title) else cs[i]
  {
    seq(|cs|, i requires 0 <= i < |cs| => if cs[i].id == id then cs[i].(title := title) else cs[i])
  }

  /** `UPDATE conversations SET title = ? WHERE id = ?`. */
  function UpdateConversationTitle(t: Tables, id: string, title: string): (r: Exec)
    ensures r.Done? <==> ConversationsTable in t.present
    ensures r.Failed? ==> r.tables == t
    ensures r.tables.(conversations := t.conversations) == t
    ensures |r.tables.conversations| == |t.conversations|
    ensures r.Done? ==> forall i :: 0 <= i < |t.conversations| ==>
      && r.tables.conversations[i].id == t.conversations[i].id
      && r.tables.conversations[i].createdAt == t.conversations[i].createdAt
      && r.tables.conversations[i].title == if t.conversations[i].id == id then title else t.conversations[i].title
  {
    if ConversationsTable !in t.present then Failed(t, NoSuchTable(ConversationsTable))
    else Done(t.(conversations := RetitleRows(t.conversations, id, title)))
  }

  function IsNotConversation(id: string): ConversationRow -> bool {
    (c: ConversationRow) => c.id != id
  }

  function NotInConversation(id: string): MessageRow -> bool {
    (m: MessageRow) => m.conversationId != id
  }

  function InConversation(id: string): MessageRow -> bool {
    (m: MessageRow) => m.conversationId == id
  }

  /** `DELETE FROM conversations WHERE id = ?`, and, when foreign keys are enforced,
      the `ON DELETE CASCADE` removal of that conversation's messages. */
  function DeleteConversation(t: Tables, id: string, fkEnforced: bool): (r: Exec)
    ensures r.Done? <==> ConversationsTable in t.present
    ensures r.Failed? ==> r.tables == t
    ensures r.tables.(conversations := t.conversations, messages := t.messages) == t
    ensures r.Done? ==> forall c :: c in r.tables.conversations <==> c in t.conversations && c.id != id
    ensures r.Done? && fkEnforced && MessagesTable in t.present ==>
      forall m :: m in r.tables.messages <==> m in t.messages && m.conversationId != id
    ensures !(fkEnforced && MessagesTable in t.present) ==> r.tables.messages == t.messages
  {
    if ConversationsTable !in t.present then Failed(t, NoSuchTable(ConversationsTable))
    else Done(t.(
      conversations := Filter(t.conversations, IsNotConversation(id)),
      messages := if fkEnforced && MessagesTable in t.present then Filter(t.messages, NotInConversation(id)) else t.messages))
  }

  /** `SELECT * FROM conversations ORDER BY created_at DESC`: every conversation once,
      newest first. */
  function QueryConversations(t: Tables): (r: Result<seq<ConversationRow>, DbError>)
    ensures r.Failure? <==> ConversationsTable !in t.present
    ensures r.Success? ==> multiset(r.value) == multiset(t.conversations)
    ensures r.Success? ==> SortedDesc(r.value, ConversationCreatedAt)
  {
    if ConversationsTable !in t.present then Failure(NoSuchTable(ConversationsTable))
    else
      var r := SortAsc(t.conversations, ConversationCreatedAtNeg);
      assert SortedAsc(r, ConversationCreatedAtNeg);
      Success(r)
  }

  // ---------------------------------------------------------------------------
  // Messages

  /** `INSERT INTO messages (id, conversation_id, role, content)`: rejected on a
      duplicate id, and, when foreign keys are enforced, on an unknown conversation. */
  function InsertMessage(t: Tables, id: string, conversationId: string, role: string, content: string, now: int, fkEnforced: bool): (r: Exec)
    ensures r.Done? <==> && MessagesTable in t.present
                         && !HasMessage(t.messages, id)
                         && (fkEnforced ==> HasConversation(t.conversations, conversationId))
    ensures r.Done? ==> r.tables.messages == t.messages + [MessageRow(id, conversationId, role, content, now)]
    ensures r.tables.(messages := t.messages) == t
    ensures r.Failed? ==> r.tables == t
  {
    if MessagesTable !in t.present then Failed(t, NoSuchTable(MessagesTable))
    else if HasMessage(t.messages, id) then Failed(t, UniqueViolation(MessagesTable))
    else if fkEnforced && !HasConversation(t.conversations, conversationId) then Failed(t, ForeignKeyViolation)
    else Done(t.(messages := t.messages + [MessageRow(id, conversationId, role, content, now)]))
  }

  /** `SELECT * FROM messages WHERE conversation_id = ? ORDER BY created_at ASC`:
      exactly the messages of that conversation, oldest first. */
  function QueryMessages(t: Tables, conversationId: string): (r: Result<seq<MessageRow>, DbError>)
    ensures r.Failure? <==> MessagesTable !in t.present
    ensures r.Success? ==> forall m :: m in r.value <==> m in t.messages && m.conversationId == conversationId
    ensures r.Success? ==> forall m: MessageRow :: m.conversationId == conversationId ==> multiset(r.value)[m] == multiset(t.messages)[m]
    ensures r.Success? ==> SortedAsc(r.value, MessageCreatedAt)
  {
    if MessagesTable !in t.present then Failure(NoSuchTable(MessagesTable))
    else
      var mine := Filter(t.messages, InConversation(conversationId));
      var r := SortAsc(mine, MessageCreatedAt);
      assert forall m :: m in r <==> m in mine by {
        forall m ensures m in r <==> m in mine {
          assert m in r <==> m in multiset(r);
        }
      }
      Success(r)
  }

  // ---------------------------------------------------------------------------
  // Settings and user settings

  /** `INSERT OR REPLACE INTO settings`: the row under `key` becomes exactly the one given. */
  function UpsertSetting(t: Tables, key: string, value: string, enabled: bool): (r: Exec)
    ensures r.Done? <==> SettingsTable in t.present
    ensures r.Failed? ==> r.tables == t
    ensures r.tables.(settings := t.settings) == t
    ensures r.Done? ==> r.tables.settings.Keys == t.settings.Keys + {key}
    ensures r.Done? ==> r.tables.settings[key] == SettingRow(value, enabled)
    ensures r.Done? ==> forall k :: k in t.settings && k != key ==> r.tables.settings[k] == t.settings[k]
  {
    if SettingsTable !in t.present then Failed(t, NoSuchTable(SettingsTable))
    else Done(t.(settings := t.settings[key := SettingRow(value, enabled)]))
  }

  /** `SELECT value, enabled FROM settings WHERE key = ?`: the row, or null. */
  function LookupSetting(t: Tables, key: string): (r: Result<Option<SettingRow>, DbError>)
    ensures r.Failure? <==> SettingsTable !in t.present
    ensures r.Success? ==> (r.value.Some? <==> key in t.settings)
    ensures r.Success? && r.value.Some? ==> r.value.value == t.settings[key]
  {
    if SettingsTable !in t.present then Failure(NoSuchTable(SettingsTable))
    else if key in t.settings then Success(Some(t.settings[key]))
    else Success(None)
  }

  /** `INSERT OR REPLACE INTO user_settings`. */
  function UpsertUserSetting(t: Tables, key: string, value: string): (r: Exec)
    ensures r.Done? <==> UserSettingsTable in t.present
    ensures r.Failed? ==> r.tables == t
    ensures r.tables.(userSettings := t.userSettings) == t
    ensures r.Done? ==> r.tables.userSettings.Keys == t.userSettings.Keys + {key}
    ensures r.Done? ==> r.tables.userSettings[key] == value
    ensures r.Done? ==> forall k :: k in t.userSettings && k != key ==> r.tables.userSettings[k] == t.userSettings[k]
  {
    if UserSettingsTable !in t.present then Failed(t, NoSuchTable(UserSettingsTable))
    else Done(t.(userSettings := t.userSettings[key := value]))
  }

  /** `SELECT value FROM user_settings WHERE key = ?`: the value, or null. */
  function LookupUserSetting(t: Tables, key: string): (r: Result<Option<string>, DbError>)
    ensures r.Failure? <==> UserSettingsTable !in t.present
    ensures r.Success? ==> (r.value.Some? <==> key in t.userSettings)
    ensures r.Success? && r.value.Some? ==> r.value.value == t.userSettings[key]
  {
    if UserSettingsTable !in t.present then Failure(NoSuchTable(UserSettingsTable))
    else if key in t.userSettings then Success(Some(t.userSettings[key]))
    else Success(None)
  }

  // ---------------------------------------------------------------------------
  // Prompts

  /** `UPDATE prompts SET is_active = 0`. */
  function Deactivated(ps: seq<PromptRow>): (r: seq<PromptRow>)
    ensures |r| == |ps|
    ensures forall i :: 0 <= i < |ps| ==> r[i] == ps[i].(isActive := false)
  {
    seq(|ps|, i requires 0 <= i < |ps| => ps[i].(isActive := false))
  }

  /** `UPDATE prompts SET is_active = 1 WHERE id = ?`. */
  function Activated(ps: seq<PromptRow>, id: string): (r: seq<PromptRow>)
    ensures |r| == |ps|
    ensures forall i :: 0 <= i < |ps| ==> r[i] == if ps[i].id == id then ps[i].(isActive := true) else ps[i]
  {
    seq(|ps|, i requires 0 <= i < |ps| => if ps[i].id == id then ps[i].(isActive := true) else ps[i])
  }

  /** `createPrompt`: deactivate every prompt, then insert the new one as active. When
      the insert hits a duplicate id the deactivation has already happened. */
  function InsertPrompt(t: Tables, id: string, name: string, content: string, now: int): (r: Exec)
    ensures r.Done? <==> PromptsTable in t.present && !HasPrompt(t.prompts, id)
    ensures r.tables.(prompts := t.prompts) == t
    ensures PromptsTable !in t.present ==> r.tables == t
    ensures PromptsTable in t.present ==>
      && |r.tables.prompts| == |t.prompts| + (if r.Done? then 1 else 0)
      && forall i :: 0 <= i < |t.prompts| ==> r.tables.prompts[i] == t.prompts[i].(isActive := false)
    ensures r.Done? ==> r.tables.prompts[|t.prompts|] == PromptRow(id, name, content, true, now)
  {
    if PromptsTable !in t.present then Failed(t, NoSuchTable(PromptsTable))
    else
      var off := t.(prompts := Deactivated(t.prompts));
      if HasPrompt(t.prompts, id) then Failed(off, UniqueViolation(PromptsTable))
      else Done(off.(prompts := off.prompts + [PromptRow(id, name, content, true, now)]))
  }

  /** `UPDATE prompts SET name = ?, content = ? WHERE id = ?`. */
  function UpdatePrompt(t: Tables, id: string, name: string, content: string): (r: Exec)
    ensures r.Done? <==> PromptsTable in t.present
    ensures r.Failed? ==> r.tables == t
    ensures r.tables.(prompts := t.prompts) == t
    ensures |r.tables.prompts| == |t.prompts|
    ensures forall i :: 0 <= i < |t.prompts| ==>
      && r.tables.prompts[i].id == t.prompts[i].id
      && r.tables.prompts[i].isActive == t.prompts[i].isActive
      && r.tables.prompts[i].createdAt == t.prompts[i].createdAt
    ensures r.Done? ==> forall i :: 0 <= i < |t.prompts| ==>
      if t.prompts[i].id == id then r.tables.prompts[i].name == name && r.tables.prompts[i].content == content
      else r.tables.prompts[i] == t.prompts[i]
  {
    if PromptsTable !in t.present then Failed(t, NoSuchTable(PromptsTable))
    else Done(t.(prompts := seq(|t.prompts|, i requires 0 <= i < |t.prompts| =>
      if t.prompts[i].id == id then t.prompts[i].(name := name, content := content) else t.prompts[i])))
  }

  /** `setPromptActive`: deactivate every prompt, then, when asked to, activate `id`. */
  function SetPromptActive(t: Tables, id: string, shouldActivate: bool): (r: Exec)
    ensures r.Done? <==> PromptsTable in t.present
    ensures r.Failed? ==> r.tables == t
    ensures r.tables.(prompts := t.prompts) == t
    ensures |r.tables.prompts| == |t.prompts|
    ensures r.Done? ==> forall i :: 0 <= i < |t.prompts| ==>
      r.tables.prompts[i] == t.prompts[i].(isActive := shouldActivate && t.prompts[i].id == id)
  {
    if PromptsTable !in t.present then Failed(t, NoSuchTable(PromptsTable))
    else
      var off := Deactivated(t.prompts);
      Done(t.(prompts := if shouldActivate then Activated(off, id) else off))
  }

  function IsNotPrompt(id: string): PromptRow -> bool {
    (p: PromptRow) => p.id != id
  }

  /** `DELETE FROM prompts WHERE id = ?`. */
  function DeletePrompt(t: Tables, id: string): (r: Exec)
    ensures r.Done? <==> PromptsTable in t.present
    ensures r.Failed? ==> r.tables == t
    ensures r.tables.(prompts := t.prompts) == t
    ensures forall p :: p in r.tables.prompts <==> p in t.prompts && (r.Done? ==> p.id != id)
  {
    if PromptsTable !in t.present then Failed(t, NoSuchTable(PromptsTable))
    else Done(t.(prompts := Filter(t.prompts, IsNotPrompt(id))))
  }

  /** `SELECT * FROM prompts ORDER BY created_at DESC`: every prompt once, newest first. */
  function QueryPrompts(t: Tables): (r: Result<seq<PromptRow>, DbError>)
    ensures r.Failure? <==> PromptsTable !in t.present
    ensures r.Success? ==> multiset(r.value) == multiset(t.prompts)
    ensures r.Success? ==> forall i, j :: 0 <= i < j < |r.value| ==> r.value[i].createdAt >= r.value[j].createdAt
  {
    if PromptsTable !in t.present then Failure(NoSuchTable(PromptsTable))
    else
      var r := SortAsc(t.prompts, PromptCreatedAtNeg);
      assert SortedAsc(r, PromptCreatedAtNeg);
      Success(r)
  }

  /** At most one prompt is active. */
  predicate AtMostOneActive(ps: seq<PromptRow>) {
    forall i, j :: 0 <= i < |ps| && 0 <= j < |ps| && ps[i].isActive && ps[j].isActive ==> i == j
  }

  // ---------------------------------------------------------------------------
  // The repository's mutations as one type

  datatype Mutation =
    | CreateConversation(id: string, title: string, now: int)
    | RetitleConversation(id: string, title: string)
    | RemoveConversation(id: string)
    | AddMessage(id: string, conversationId: string, role: string, content: string, now: int)
    | SetSetting(key: string, value: string, enabled: bool)
    | CreatePrompt(id: string, name: string, content: string, now: int)
    | EditPrompt(id: string, name: string, content: string)
    | ActivatePrompt(id: string, shouldActivate: bool)
    | RemovePrompt(id: string)
    | SetUserSetting(key: string, value: string)

  /** The statements one repository call runs against the content. No statement
      creates or drops a table, and a failed call changes nothing, except that a
      `createPrompt` whose insert fails has already deactivated every prompt. */
  function Apply(t: Tables, op: Mutation, fkEnforced: bool): (r: Exec)
    ensures r.tables.present == t.present
    ensures r.Failed? && !op.CreatePrompt? ==> r.tables == t
    ensures r.Failed? && op.CreatePrompt? ==> r.tables == t.(prompts := r.tables.prompts)
  {
    match op
    case CreateConversation(id, title, now) => InsertConversation(t, id, title, now)
    case RetitleConversation(id, title) => UpdateConversationTitle(t, id, title)
    case RemoveConversation(id) => DeleteConversation(t, id, fkEnforced)
    case AddMessage(id, cid, role, content, now) => InsertMessage(t, id, cid, role, content, now, fkEnforced)
    case SetSetting(key, value, enabled) => UpsertSetting(t, key, value, enabled)
    case CreatePrompt(id, name, content, now) => InsertPrompt(t, id, name, content, now)
    case EditPrompt(id, name, content) => UpdatePrompt(t, id, name, content)
    case ActivatePrompt(id, shouldActivate) => SetPromptActive(t, id, shouldActivate)
    case RemovePrompt(id) => DeletePrompt(t, id)
    case SetUserSetting(key, value) => UpsertUserSetting(t, key, value)
  }

  // ---------------------------------------------------------------------------
  // Properties of the statements

  lemma SnocKeepsUnique<T>(s: seq<T>, x: T, key: T -> string)
    requires UniqueBy(s, key)
    requires forall y :: y in s ==> key(y) != key(x)
    ensures UniqueBy(s + [x], key)
  {
    var r := s + [x];
    forall i, j | 0 <= i < j < |r| ensures key(r[i]) != key(r[j]) {
      assert r[i] == s[i];
      if j < |s| {
        assert r[j] == s[j];
      }
    }
  }

  lemma InsertConversationConsistent(t: Tables, id: string, title: string, now: int, fkEnforced: bool)
    requires Consistent(t, fkEnforced)
    ensures Consistent(InsertConversation(t, id, title, now).tables, fkEnforced)
  {
    var e := InsertConversation(t, id, title, now);
    if e.Done? {
      SnocKeepsUnique(t.conversations, ConversationRow(id, title, now), ConversationKey);
      if fkEnforced {
        forall m | m in e.tables.messages ensures HasConversation(e.tables.conversations, m.conversationId) {
          var c :| c in t.conversations && c.id == m.conversationId;
          assert c in e.tables.conversations;
        }
      }
    }
  }

  lemma RetitleKeepsIds(cs: seq<ConversationRow>, id: string, title: string)
    ensures forall x :: HasConversation(RetitleRows(cs, id, title), x) <==> HasConversation(cs, x)
    ensures UniqueBy(cs, ConversationKey) ==> UniqueBy(RetitleRows(cs, id, title), ConversationKey)
  {
    var r := RetitleRows(cs, id, title);
    forall x ensures HasConversation(r, x) <==> HasConversation(cs, x) {
      if HasConversation(cs, x) {
        var c :| c in cs && c.id == x;
        var k :| 0 <= k < |cs| && cs[k] == c;
        assert r[k] in r;
      }
      if HasConversation(r, x) {
        var c :| c in r && c.id == x;
        var k :| 0 <= k < |r| && r[k] == c;
        assert cs[k] in cs;
      }
    }
  }

  lemma UpdateConversationTitleConsistent(t: Tables, id: string, title: string, fkEnforced: bool)
    requires Consistent(t, fkEnforced)
    ensures Consistent(UpdateConversationTitle(t, id, title).tables, fkEnforced)
  {
    RetitleKeepsIds(t.conversations, id, title);
  }

  lemma DeleteConversationConsistent(t: Tables, id: string, fkEnforced: bool)
    requires Consistent(t, fkEnforced)
    ensures Consistent(DeleteConversation(t, id, fkEnforced).tables, fkEnforced)
  {
    var e := DeleteConversation(t, id, fkEnforced);
    if e.Done? {
      FilterKeepsUnique(t.conversations, IsNotConversation(id), ConversationKey);
      FilterKeepsUnique(t.messages, NotInConversation(id), MessageKey);
      if fkEnforced {
        forall m | m in e.tables.messages ensures HasConversation(e.tables.conversations, m.conversationId) {
          assert m in t.messages && m.conversationId != id;
          var c :| c in t.conversations && c.id == m.conversationId;
          assert c in e.tables.conversations;
        }
      }
    }
  }

  lemma InsertMessageConsistent(t: Tables, id: string, cid: string, role: string, content: string, now: int, fkEnforced: bool)
    requires Consistent(t, fkEnforced)
    ensures Consistent(InsertMessage(t, id, cid, role, content, now, fkEnforced).tables, fkEnforced)
  {
    var e := InsertMessage(t, id, cid, role, content, now, fkEnforced);
    if e.Done? {
      SnocKeepsUnique(t.messages, MessageRow(id, cid, role, content, now), MessageKey);
    }
  }

  /** The prompt statements keep each row's id in place. */
  predicate SameIds(a: seq<PromptRow>, b: seq<PromptRow>) {
    |a| == |b| && forall i :: 0 <= i < |a| ==> a[i].id == b[i].id
  }

  lemma SameIdsKeepUnique(a: seq<PromptRow>, b: seq<PromptRow>)
    requires SameIds(a, b) && UniqueBy(a, PromptKey)
    ensures UniqueBy(b, PromptKey)
  {
    forall i, j | 0 <= i < j < |b| ensures PromptKey(b[i]) != PromptKey(b[j]) {
      assert PromptKey(a[i]) != PromptKey(a[j]);
    }
  }

  lemma InsertPromptConsistent(t: Tables, id: string, name: string, content: string, now: int, fkEnforced: bool)
    requires Consistent(t, fkEnforced)
    ensures Consistent(InsertPrompt(t, id, name, content, now).tables, fkEnforced)
  {
    if PromptsTable in t.present {
      var off := Deactivated(t.prompts);
      SameIdsKeepUnique(t.prompts, off);
      if !HasPrompt(t.prompts, id) {
        forall y | y in off ensures PromptKey(y) != PromptKey(PromptRow(id, name, content, true, now)) {
          var k :| 0 <= k < |off| && off[k] == y;
          assert t.prompts[k] in t.prompts;
        }
        SnocKeepsUnique(off, PromptRow(id, name, content, true, now), PromptKey);
      }
    }
  }

  /** Every statement keeps the content consistent with the schema: primary keys stay
      unique, absent tables stay empty, and with foreign keys enforced every message
      keeps its conversation. */
  lemma {:induction false} ApplyPreservesConsistency(t: Tables, op: Mutation, fkEnforced: bool)
    requires Consistent(t, fkEnforced)
    ensures Consistent(Apply(t, op, fkEnforced).tables, fkEnforced)
  {
    match op
    case CreateConversation(id, title, now) => InsertConversationConsistent(t, id, title, now, fkEnforced);
    case RetitleConversation(id, title) => UpdateConversationTitleConsistent(t, id, title, fkEnforced);
    case RemoveConversation(id) => DeleteConversationConsistent(t, id, fkEnforced);
    case AddMessage(id, cid, role, content, now) => InsertMessageConsistent(t, id, cid, role, content, now, fkEnforced);
    case SetSetting(key, value, enabled) =>
    case CreatePrompt(id, name, content, now) => InsertPromptConsistent(t, id, name, content, now, fkEnforced);
    case EditPrompt(id, name, content) =>
      if PromptsTable in t.present {
        SameIdsKeepUnique(t.prompts, UpdatePrompt(t, id, name, content).tables.prompts);
      }
    case ActivatePrompt(id, shouldActivate) =>
      if PromptsTable in t.present {
        var off := Deactivated(t.prompts);
        SameIdsKeepUnique(t.prompts, off);
        SameIdsKeepUnique(off, Activated(off, id));
      }
    case RemovePrompt(id) => FilterKeepsUnique(t.prompts, IsNotPrompt(id), PromptKey);
    case SetUserSetting(key, value) =>
  }

  /** `createPrompt` leaves exactly one active prompt, the new one, at the end of the
      table; on a duplicate id it throws after every prompt has been deactivated. */
  lemma CreatePromptActivatesOnlyIt(t: Tables, id: string, name: string, content: string, now: int)
    requires PromptsTable in t.present
    ensures var e := InsertPrompt(t, id, name, content, now);
      && (e.Done? <==> !HasPrompt(t.prompts, id))
      && (e.Done? ==>
            && |e.tables.prompts| == |t.prompts| + 1
            && e.tables.prompts[|t.prompts|] == PromptRow(id, name, content, true, now)
            && forall i :: 0 <= i < |e.tables.prompts| ==> (e.tables.prompts[i].isActive <==> i == |t.prompts|))
      && (e.Failed? ==>
            && e.error == UniqueViolation(PromptsTable)
            && forall i :: 0 <= i < |e.tables.prompts| ==> !e.tables.prompts[i].isActive)
  {
  }

  /** `setPromptActive` makes a prompt active exactly when activation was asked for and
      the prompt has that id; names, contents and order are untouched. */
  lemma SetPromptActiveSelects(t: Tables, id: string, shouldActivate: bool)
    requires PromptsTable in t.present
    ensures var e := SetPromptActive(t, id, shouldActivate);
      && e.Done?
      && |e.tables.prompts| == |t.prompts|
      && forall i :: 0 <= i < |t.prompts| ==>
           e.tables.prompts[i] == t.prompts[i].(isActive := shouldActivate && t.prompts[i].id == id)
  {
  }

  /** With unique prompt ids, every statement leaves at most one prompt active. */
  lemma ApplyKeepsAtMostOneActive(t: Tables, op: Mutation, fkEnforced: bool)
    requires UniqueBy(t.prompts, PromptKey) && AtMostOneActive(t.prompts)
    ensures AtMostOneActive(Apply(t, op, fkEnforced).tables.prompts)
  {
    var ps := Apply(t, op, fkEnforced).tables.prompts;
    match op
    case CreatePrompt(id, name, content, now) =>
      if PromptsTable in t.present {
        CreatePromptActivatesOnlyIt(t, id, name, content, now);
      }
    case EditPrompt(id, name, content) =>
      assert forall i :: 0 <= i < |ps| ==> ps[i].isActive == t.prompts[i].isActive;
    case ActivatePrompt(id, shouldActivate) =>
      if PromptsTable in t.present {
        SetPromptActiveSelects(t, id, shouldActivate);
      }
    case RemovePrompt(id) =>
      if PromptsTable in t.present {
        forall i, j | 0 <= i < |ps| && 0 <= j < |ps| && ps[i].isActive && ps[j].isActive ensures i == j {
          FilterActiveAtMostOne(t.prompts, IsNotPrompt(id), i, j);
        }
      }
    case CreateConversation(_, _, _) =>
    case RetitleConversation(_, _) =>
    case RemoveConversation(_) =>
    case AddMessage(_, _, _, _, _) =>
    case SetSetting(_, _, _) =>
    case SetUserSetting(_, _) =>
  }

  lemma {:induction false} FilterActiveAtMostOne(ps: seq<PromptRow>, keep: PromptRow -> bool, i: int, j: int)
    requires UniqueBy(ps, PromptKey) && AtMostOneActive(ps)
    requires 0 <= i < |Filter(ps, keep)| && 0 <= j < |Filter(ps, keep)|
    requires Filter(ps, keep)[i].isActive && Filter(ps, keep)[j].isActive
    ensures i == j
  {
    var r := Filter(ps, keep);
    FilterKeepsUnique(ps, keep, PromptKey);
    assert r[i] in ps && r[j] in ps;
    var a :| 0 <= a < |ps| && ps[a] == r[i];
    var b :| 0 <= b < |ps| && ps[b] == r[j];
    assert a == b;
  }

  /** Editing or deleting a prompt never activates one. */
  lemma EditAndDeleteNeverActivate(t: Tables, op: Mutation, fkEnforced: bool)
    requires op.EditPrompt? || op.RemovePrompt?
    ensures forall p :: p in Apply(t, op, fkEnforced).tables.prompts && p.isActive ==>
      exists q :: q in t.prompts && q.isActive && q.id == p.id
  {
    var ps := Apply(t, op, fkEnforced).tables.prompts;
    forall p | p in ps && p.isActive ensures exists q :: q in t.prompts && q.isActive && q.id == p.id {
      if op.EditPrompt? && PromptsTable in t.present {
        var k :| 0 <= k < |ps| && ps[k] == p;
        assert t.prompts[k] in t.prompts;
      } else {
        assert p in t.prompts;
      }
    }
  }

  /** An upsert is read back as written, and leaves every other key as it was. */
  lemma SettingReadsBack(t: Tables, key: string, value: string, enabled: bool, other: string)
    requires SettingsTable in t.present
    ensures UpsertSetting(t, key, value, enabled).Done?
    ensures LookupSetting(UpsertSetting(t, key, value, enabled).tables, key) == Success(Some(SettingRow(value, enabled)))
    ensures other != key ==> LookupSetting(UpsertSetting(t, key, value, enabled).tables, other) == LookupSetting(t, other)
  {
  }

  /** The same for `user_settings`. */
  lemma UserSettingReadsBack(t: Tables, key: string, value: string, other: string)
    requires UserSettingsTable in t.present
    ensures UpsertUserSetting(t, key, value).Done?
    ensures LookupUserSetting(UpsertUserSetting(t, key, value).tables, key) == Success(Some(value))
    ensures other != key ==> LookupUserSetting(UpsertUserSetting(t, key, value).tables, other) == LookupUserSetting(t, other)
  {
  }

  /** Deleting a conversation removes it; with foreign keys enforced its messages go
      with it, without them they stay behind; other conversations' messages stay. */
  lemma DeleteConversationCascades(t: Tables, id: string, fkEnforced: bool)
    requires ConversationsTable in t.present && MessagesTable in t.present
    ensures var after := DeleteConversation(t, id, fkEnforced).tables;
      && !HasConversation(after.conversations, id)
      && (forall c :: c in t.conversations && c.id != id ==> c in after.conversations)
      && (fkEnforced ==> QueryMessages(after, id) == Success([]))
      && (!fkEnforced ==> after.messages == t.messages)
      && (forall m :: m in t.messages && m.conversationId != id ==> m in after.messages)
  {
    var after := DeleteConversation(t, id, fkEnforced).tables;
    if fkEnforced {
      var q := QueryMessages(after, id);
      assert forall m :: m !in q.value;
    }
  }

  /** Retitling an unknown id changes nothing. */
  lemma {:induction false} RetitleUnknownIsNoOp(t: Tables, id: string, title: string)
    requires ConversationsTable in t.present && !HasConversation(t.conversations, id)
    ensures UpdateConversationTitle(t, id, title) == Done(t)
  {
    var r := RetitleRows(t.conversations, id, title);
    forall i | 0 <= i < |r| ensures r[i] == t.conversations[i] {
      assert t.conversations[i] in t.conversations;
    }
    assert r == t.conversations;
  }

  /** A created conversation is listed by the next query. */
  lemma CreatedConversationIsListed(t: Tables, id: string, title: string, now: int)
    requires InsertConversation(t, id, title, now).Done?
    ensures var q := QueryConversations(InsertConversation(t, id, title, now).tables);
      q.Success? && ConversationRow(id, title, now) in q.value
  {
    var after := InsertConversation(t, id, title, now).tables;
    assert ConversationRow(id, title, now) in multiset(after.conversations);
  }

  /** The reload path adds the `settings` table and nothing else: every query over the
      other tables answers as before, and a missing `user_settings` table stays missing. */
  lemma ReloadKeepsContent(t: Tables, conversationId: string, key: string)
    ensures SettingsTable in EnsureSettingsTable(t).present
    ensures EnsureSettingsTable(EnsureSettingsTable(t)) == EnsureSettingsTable(t)
    ensures QueryConversations(EnsureSettingsTable(t)) == QueryConversations(t)
    ensures QueryMessages(EnsureSettingsTable(t), conversationId) == QueryMessages(t, conversationId)
    ensures QueryPrompts(EnsureSettingsTable(t)) == QueryPrompts(t)
    ensures UserSettingsTable !in t.present ==>
      LookupUserSetting(EnsureSettingsTable(t), key) == Failure(NoSuchTable(UserSettingsTable))
  {
    var u := EnsureSettingsTable(t);
    assert u.conversations == t.conversations && u.messages == t.messages && u.prompts == t.prompts;
    assert ConversationsTable in u.present <==> ConversationsTable in t.present;
    assert MessagesTable in u.present <==> MessagesTable in t.present;
    assert PromptsTable in u.present <==> PromptsTable in t.present;
    assert UserSettingsTable in u.present <==> UserSettingsTable in t.present;
  }

  /** A freshly created database satisfies the schema's guarantees. */
  lemma FreshDatabaseConsistent(fkEnforced: bool)
    ensures Consistent(FreshDatabase, fkEnforced) && AtMostOneActive(FreshDatabase.prompts)
    ensures FreshDatabase.present == AllTables
  {
  }
}
