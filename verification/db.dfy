/** The database module of the chat app: one engine per page, created on first use from
    the snapshot kept in browser storage (or empty), and a snapshot written back after
    every successful change. */
module Db {
  import opened Js
  import opened DbTables

  /** What the `chatdb` storage entry holds: a snapshot of the database file, a value
      that does not decode to one, or the empty string. */
  datatype Blob = Image(tables: Tables) | Corrupt | Blank

  /** The engine and the storage entry together. */
  datatype Storage = Storage(engine: Option<Tables>, slot: Option<Blob>)

  /** `initDB`: an existing engine is returned as is; otherwise a stored snapshot is
      opened with a `settings` table added and nothing else changed (in particular a
      missing `user_settings` table stays missing), and without one a fresh database is
      created. */
  function InitEngine(s: Storage): (r: Result<Tables, DbError>)
    ensures s.engine.Some? ==> r == Success(s.engine.value)
    ensures s.engine.None? && (s.slot.None? || s.slot == Some(Blank)) ==> r == Success(FreshDatabase)
    ensures s.engine.None? && s.slot.Some? && s.slot.value.Image? ==>
      r == Success(s.slot.value.tables.(present := s.slot.value.tables.present + {SettingsTable}))
    ensures r.Failure? <==> s.engine.None? && s.slot == Some(Corrupt)
  {
    if s.engine.Some? then Success(s.engine.value)
    else match s.slot
      case None => Success(FreshDatabase)
      case Some(Blank) => Success(FreshDatabase)
      case Some(Image(t)) => Success(EnsureSettingsTable(t))
      case Some(Corrupt) => Failure(CorruptSnapshot)
  }

  /** One repository call that changes data: without an engine it throws and nothing
      changes; otherwise its statements take effect, and only when all of them succeed
      is the snapshot written, so that a call that throws leaves the old snapshot. */
  function Step(s: Storage, op: Mutation, fkEnforced: bool): (r: (Storage, Outcome<DbError>))
    ensures s.engine.None? ==> r == (s, Fail(NotInitialized))
    ensures s.engine.Some? ==> r.0.engine.Some? && r.0.engine.value.present == s.engine.value.present
    ensures s.engine.Some? ==>
      r.0.engine == Some(Apply(s.engine.value, op, fkEnforced).tables) && r.1 == Apply(s.engine.value, op, fkEnforced).Status()
    ensures r.1.Pass? <==> s.engine.Some? && Apply(s.engine.value, op, fkEnforced).Done?
    ensures r.1.Pass? ==> Persisted(r.0)
    ensures r.1.Fail? ==> r.0.slot == s.slot
  {
    if s.engine.None? then (s, Fail(NotInitialized))
    else
      var e := Apply(s.engine.value, op, fkEnforced);
      (Storage(Some(e.tables), if e.Done? then Some(Image(e.tables)) else s.slot), e.Status())
  }

  /** The storage is coherent when the stored snapshot is the engine's content. */
  predicate Persisted(s: Storage) {
    s.engine.Some? && s.slot == Some(Image(s.engine.value))
  }

  /** Whether it succeeds or throws, a call keeps a consistent engine consistent. */
  lemma StepPreservesConsistency(s: Storage, op: Mutation, fkEnforced: bool)
    ensures s.engine.Some? && Consistent(s.engine.value, fkEnforced) ==>
      Consistent(Step(s, op, fkEnforced).0.engine.value, fkEnforced)
  {
    if s.engine.Some? && Consistent(s.engine.value, fkEnforced) {
      ApplyPreservesConsistency(s.engine.value, op, fkEnforced);
    }
  }

  /** A call that throws after some of its statements ran (only `createPrompt` can)
      leaves the engine ahead of the stored snapshot; the next successful call
      writes the snapshot again. */
  lemma FailedCreatePromptLeavesSnapshotBehind(t: Tables, id: string, name: string, content: string, now: int, fkEnforced: bool)
    requires PromptsTable in t.present && HasPrompt(t.prompts, id)
    requires exists i :: 0 <= i < |t.prompts| && t.prompts[i].isActive
    ensures var (after, r) := Step(Storage(Some(t), Some(Image(t))), CreatePrompt(id, name, content, now), fkEnforced);
      && r == Fail(UniqueViolation(PromptsTable))
      && after.slot == Some(Image(t))
      && after.engine != Some(t)
  {
    var i :| 0 <= i < |t.prompts| && t.prompts[i].isActive;
    var e := InsertPrompt(t, id, name, content, now);
    assert !e.tables.prompts[i].isActive;
  }

  // ---------------------------------------------------------------------------
  // Bytes and binary strings

  newtype byte = x: int | 0 <= x < 256

  /** The binary string of a byte sequence: one character per byte, its code the byte. */
  function Latin1(bs: seq<byte>): (r: string)
    ensures |r| == |bs|
    ensures forall i :: 0 <= i < |bs| ==> r[i] as int == bs[i] as int
  {
    seq(|bs|, i requires 0 <= i < |bs| => (bs[i] as int) as char)
  }

  /** Storing each character code into a `Uint8Array`, which keeps it modulo 256. */
  function CodesMod256(s: string): (r: seq<byte>)
    ensures |r| == |s|
    ensures forall i :: 0 <= i < |s| ==> r[i] as int == (s[i] as int) % 256
  {
    seq(|s|, i requires 0 <= i < |s| => ((s[i] as int) % 256) as byte)
  }

  /** Decoding a binary string gives back the bytes it was built from. */
  lemma {:induction false} BytesRoundTrip(bs: seq<byte>)
    ensures CodesMod256(Latin1(bs)) == bs
  {
    var r := CodesMod256(Latin1(bs));
    forall i | 0 <= i < |bs| ensures r[i] == bs[i] {
      assert r[i] as int == (Latin1(bs)[i] as int) % 256;
    }
  }

  /** A string survives the trip through bytes exactly when every code is below 256,
      which holds of every string `atob` produces. */
  lemma {:induction false} BinaryStringRoundTrip(s: string)
    ensures Latin1(CodesMod256(s)) == s <==> forall i :: 0 <= i < |s| ==> s[i] as int < 256
  {
    var r := Latin1(CodesMod256(s));
    if forall i :: 0 <= i < |s| ==> s[i] as int < 256 {
      forall i | 0 <= i < |s| ensures r[i] == s[i] {
        assert r[i] as int == s[i] as int;
      }
    } else {
      var i :| 0 <= i < |s| && s[i] as int >= 256;
      assert r[i] as int < 256;
    }
  }

  /** The loop of `arrayBufferToBase64`, before the base-64 step. */
  method BytesToBinaryString(bytes: array<byte>) returns (binary: string)
    ensures binary == Latin1(bytes[..])
  {
    binary := "";
    var i := 0;
    while i < bytes.Length
      invariant 0 <= i <= bytes.Length
      invariant binary == Latin1(bytes[..i])
    {
      binary := binary + [(bytes[i] as int) as char];
      i := i + 1;
    }
    assert bytes[..i] == bytes[..];
  }

  /** The loop of `base64ToArrayBuffer`, after the base-64 step. */
  method BinaryStringToBytes(binary: string) returns (bytes: array<byte>)
    ensures fresh(bytes)
    ensures bytes[..] == CodesMod256(binary)
  {
    bytes := new byte[|binary|](_ => 0);
    var i := 0;
    while i < |binary|
      invariant 0 <= i <= |binary| == bytes.Length
      invariant bytes[..i] == CodesMod256(binary[..i])
      modifies bytes
    {
      bytes[i] := ((binary[i] as int) % 256) as byte;
      i := i + 1;
    }
    assert binary[..i] == binary;
  }

  // ---------------------------------------------------------------------------
  // The engine

  /** The page's database: the engine (`null` until `initDB` succeeds) and the browser
      storage entry that outlives it. `fkEnforced` says whether the engine enforces
      foreign keys. */
  class ChatDb {
    var db: Option<Tables>
    var slot: Option<Blob>
    const fkEnforced: bool

    constructor (slot: Option<Blob>, fkEnforced: bool)
      ensures db == None && this.slot == slot && this.fkEnforced == fkEnforced
    {
      db := None;
      this.slot := slot;
      this.fkEnforced := fkEnforced;
    }

    function Current(): Storage
      reads this
    {
      Storage(db, slot)
    }

    /** `saveToLocalStorage`: writes the engine's snapshot, or does nothing without one. */
    method SaveToLocalStorage()
      modifies this
      ensures db == old(db)
      ensures slot == if db.Some? then Some(Image(db.value)) else old(slot)
    {
      if db.Some? {
        slot := Some(Image(db.value));
      }
    }

    /** `initDB`: the first successful call creates the engine and writes its snapshot;
        later calls return the same engine and change nothing. */
    method InitDB() returns (r: Result<Tables, DbError>)
      modifies this
      ensures r == InitEngine(old(Current()))
      ensures old(db).Some? ==> db == old(db) && slot == old(slot)
      ensures old(db).None? && r.Success? ==> Persisted(Current()) && db == Some(r.value)
      ensures r.Failure? ==> Current() == old(Current())
    {
      if db.Some? {
        return Success(db.value);
      }
      if slot == Some(Corrupt) {
        return Failure(CorruptSnapshot);
      } else if slot.Some? && slot.value.Image? {
        db := Some(EnsureSettingsTable(slot.value.tables));
      } else {
        db := Some(FreshDatabase);
      }
      SaveToLocalStorage();
      r := Success(db.value);
    }

    /** Runs one change: throws without an engine, otherwise applies the statements and
        writes the snapshot when they all succeed. */
    method Execute(op: Mutation) returns (r: Outcome<DbError>)
      modifies this
      ensures (Current(), r) == Step(old(Current()), op, fkEnforced)
    {
      if db.None? {
        return Fail(NotInitialized);
      }
      var e := Apply(db.value, op, fkEnforced);
      db := Some(e.tables);
      if e.Done? {
        SaveToLocalStorage();
      }
      r := e.Status();
    }

    method CreateConversation(id: string, title: string, now: int) returns (r: Outcome<DbError>)
      modifies this
      ensures (Current(), r) == Step(old(Current()), Mutation.CreateConversation(id, title, now), fkEnforced)
    {
      r := Execute(Mutation.CreateConversation(id, title, now));
    }

    method UpdateConversationTitle(id: string, title: string) returns (r: Outcome<DbError>)
      modifies this
      ensures (Current(), r) == Step(old(Current()), RetitleConversation(id, title), fkEnforced)
    {
      r := Execute(RetitleConversation(id, title));
    }

    method DeleteConversation(id: string) returns (r: Outcome<DbError>)
      modifies this
      ensures (Current(), r) == Step(old(Current()), RemoveConversation(id), fkEnforced)
    {
      r := Execute(RemoveConversation(id));
    }

    method AddMessage(id: string, conversationId: string, role: string, content: string, now: int) returns (r: Outcome<DbError>)
      modifies this
      ensures (Current(), r) == Step(old(Current()), Mutation.AddMessage(id, conversationId, role, content, now), fkEnforced)
    {
      r := Execute(Mutation.AddMessage(id, conversationId, role, content, now));
    }

    method SetSetting(key: string, value: string, enabled: bool) returns (r: Outcome<DbError>)
      modifies this
      ensures (Current(), r) == Step(old(Current()), Mutation.SetSetting(key, value, enabled), fkEnforced)
    {
      r := Execute(Mutation.SetSetting(key, value, enabled));
    }

    method CreatePrompt(id: string, name: string, content: string, now: int) returns (r: Outcome<DbError>)
      modifies this
      ensures (Current(), r) == Step(old(Current()), Mutation.CreatePrompt(id, name, content, now), fkEnforced)
    {
      r := Execute(Mutation.CreatePrompt(id, name, content, now));
    }

    method UpdatePrompt(id: string, name: string, content: string) returns (r: Outcome<DbError>)
      modifies this
      ensures (Current(), r) == Step(old(Current()), EditPrompt(id, name, content), fkEnforced)
    {
      r := Execute(EditPrompt(id, name, content));
    }

    method SetPromptActive(id: string, shouldActivate: bool) returns (r: Outcome<DbError>)
      modifies this
      ensures (Current(), r) == Step(old(Current()), ActivatePrompt(id, shouldActivate), fkEnforced)
    {
      r := Execute(ActivatePrompt(id, shouldActivate));
    }

    method DeletePrompt(id: string) returns (r: Outcome<DbError>)
      modifies this
      ensures (Current(), r) == Step(old(Current()), RemovePrompt(id), fkEnforced)
    {
      r := Execute(RemovePrompt(id));
    }

    method SetUserSetting(key: string, value: string) returns (r: Outcome<DbError>)
      modifies this
      ensures (Current(), r) == Step(old(Current()), Mutation.SetUserSetting(key, value), fkEnforced)
    {
      r := Execute(Mutation.SetUserSetting(key, value));
    }

    /** `getConversations`: every conversation once, newest first. */
    function GetConversations(): (r: Result<seq<ConversationRow>, DbError>)
      reads this
      ensures db.None? ==> r == Failure(NotInitialized)
      ensures db.Some? ==> (r.Failure? <==> ConversationsTable !in db.value.present)
      ensures r.Success? ==> multiset(r.value) == multiset(db.value.conversations)
      ensures r.Success? ==> SortedDesc(r.value, ConversationCreatedAt)
    {
      if db.None? then Failure(NotInitialized) else QueryConversations(db.value)
    }

    /** `getMessagesForConversation`: that conversation's messages, oldest first. */
    function GetMessagesForConversation(conversationId: string): (r: Result<seq<MessageRow>, DbError>)
      reads this
      ensures db.None? ==> r == Failure(NotInitialized)
      ensures db.Some? ==> (r.Failure? <==> MessagesTable !in db.value.present)
      ensures r.Success? ==> forall m :: m in r.value <==> m in db.value.messages && m.conversationId == conversationId
      ensures r.Success? ==> forall m: MessageRow :: m.conversationId == conversationId ==>
        multiset(r.value)[m] == multiset(db.value.messages)[m]
      ensures r.Success? ==> SortedAsc(r.value, MessageCreatedAt)
    {
      if db.None? then Failure(NotInitialized) else QueryMessages(db.value, conversationId)
    }

    /** `getSetting`: the stored row, or null when the key was never set; it throws when
        there is no engine or no `settings` table. */
    function GetSetting(key: string): (r: Result<Option<SettingRow>, DbError>)
      reads this
      ensures db.None? ==> r == Failure(NotInitialized)
      ensures db.Some? ==> (r.Failure? <==> SettingsTable !in db.value.present)
      ensures r.Success? ==> (r.value.Some? <==> key in db.value.settings)
      ensures r.Success? && r.value.Some? ==> r.value.value == db.value.settings[key]
    {
      if db.None? then Failure(NotInitialized) else LookupSetting(db.value, key)
    }

    /** `getPrompts`: every prompt once, newest first. */
    function GetPrompts(): (r: Result<seq<PromptRow>, DbError>)
      reads this
      ensures db.None? ==> r == Failure(NotInitialized)
      ensures db.Some? ==> (r.Failure? <==> PromptsTable !in db.value.present)
      ensures r.Success? ==> multiset(r.value) == multiset(db.value.prompts)
      ensures r.Success? ==> forall i, j :: 0 <= i < j < |r.value| ==> r.value[i].createdAt >= r.value[j].createdAt
    {
      if db.None? then Failure(NotInitialized) else QueryPrompts(db.value)
    }

    /** `getUserSetting`: the stored value, or null; it throws when there is no engine
        or no `user_settings` table, which is the case after reopening a snapshot
        written before that table existed. */
    function GetUserSetting(key: string): (r: Result<Option<string>, DbError>)
      reads this
      ensures db.None? ==> r == Failure(NotInitialized)
      ensures db.Some? ==> (r.Failure? <==> UserSettingsTable !in db.value.present)
      ensures r.Success? ==> (r.value.Some? <==> key in db.value.userSettings)
      ensures r.Success? && r.value.Some? ==> r.value.value == db.value.userSettings[key]
    {
      if db.None? then Failure(NotInitialized) else LookupUserSetting(db.value, key)
    }
  }

  /** Initialising twice is initialising once. */
  lemma InitIdempotent(s: Storage)
    requires InitEngine(s).Success?
    ensures InitEngine(Storage(Some(InitEngine(s).value), s.slot)) == InitEngine(s)
  {
  }

  /** A consistent stored snapshot opens as a consistent engine. */
  lemma ReopenedSnapshotConsistent(t: Tables, fkEnforced: bool)
    requires Consistent(t, fkEnforced)
    ensures var r := InitEngine(Storage(None, Some(Image(t))));
      r.Success? && Consistent(r.value, fkEnforced)
  {
  }
}
