/** The application store: prompts, conversations with their messages, the current
    selection, the loading flag and the user's model, reasoning and theme choices; the
    pure updaters each action applies, the selectors, and the store object whose
    settings actions also persist their choice. */
module Store {
  import opened Js
  import opened Ai
  import opened Settings
  import DbTables
  import Themes

  /** `Prompt` carries the same fields as a row of the `prompts` table. */
  type Prompt = DbTables.PromptRow

  /** `Conversation`: a titled list of messages. */
  datatype Conversation = Conversation(id: string, title: string, messages: seq<Message>)

  datatype State = State(
    prompts: seq<Prompt>,
    conversations: seq<Conversation>,
    currentConversationId: Option<string>,
    isLoading: bool,
    selectedModel: string,
    reasoningConfig: ReasoningConfig,
    selectedTheme: string)

  const DefaultModelChoice: string := "grok-4"
  const DefaultReasoning: ReasoningConfig := ReasoningConfig(Medium, NoSummary)

  /** `v || fallback` for an optional string: the empty string is falsy too. */
  function OrElse(v: Option<string>, fallback: string): string {
    if v.Some? && v.value != "" then v.value else fallback
  }

  /** `initialState`: empty lists, no selection, not loading, and each choice taken from
      the persisted settings unless it is missing (or an empty string). */
  function InitialState(persisted: PersistedSettings): (s: State)
    ensures s.prompts == [] && s.conversations == [] && s.currentConversationId.None? && !s.isLoading
    ensures persisted.selectedModel.Some? && persisted.selectedModel.value != "" ==> s.selectedModel == persisted.selectedModel.value
    ensures persisted.selectedModel.None? || persisted.selectedModel == Some("") ==> s.selectedModel == DefaultModelChoice
    ensures persisted.reasoningConfig.Some? ==> s.reasoningConfig == persisted.reasoningConfig.value
    ensures persisted.reasoningConfig.None? ==> s.reasoningConfig == DefaultReasoning
    ensures persisted.selectedTheme.Some? && persisted.selectedTheme.value != "" ==> s.selectedTheme == persisted.selectedTheme.value
    ensures persisted.selectedTheme.None? || persisted.selectedTheme == Some("") ==> s.selectedTheme == Themes.DefaultTheme.id
  {
    State([], [], None, false,
      OrElse(persisted.selectedModel, DefaultModelChoice),
      if persisted.reasoningConfig.Some? then persisted.reasoningConfig.value else DefaultReasoning,
      OrElse(persisted.selectedTheme, Themes.DefaultTheme.id))
  }

  // ---------------------------------------------------------------------------
  // Prompt updaters

  /** `createPrompt`'s updater: every existing prompt becomes inactive, in place, and
      the new prompt is appended as the only active one. */
  function AddActivePrompt(ps: seq<Prompt>, id: string, name: string, content: string, createdAt: int): (r: seq<Prompt>)
    ensures |r| == |ps| + 1
    ensures forall i :: 0 <= i < |ps| ==> r[i] == ps[i].(isActive := false)
    ensures r[|ps|] == DbTables.PromptRow(id, name, content, true, createdAt)
    ensures forall i :: 0 <= i < |r| ==> (r[i].isActive <==> i == |ps|)
    ensures DbTables.AtMostOneActive(r)
  {
    DbTables.Deactivated(ps) + [DbTables.PromptRow(id, name, content, true, createdAt)]
  }

  /** `deletePrompt`'s updater: exactly the prompts with that id go; the rest keep their
      fields and their relative order. */
  function RemovePrompt(ps: seq<Prompt>, id: string): (r: seq<Prompt>)
    ensures forall p :: p in r <==> p in ps && p.id != id
    ensures forall p: Prompt :: p.id != id ==> multiset(r)[p] == multiset(ps)[p]
    ensures IsSubsequence(r, ps)
  {
    Filter(ps, DbTables.IsNotPrompt(id))
  }

  /** `setPromptActive`'s updater: a prompt is active afterwards exactly when it has that
      id and activation was asked for; nothing else about it changes. */
  function ChoosePrompt(ps: seq<Prompt>, id: string, shouldActivate: bool): (r: seq<Prompt>)
    ensures |r| == |ps|
    ensures forall i :: 0 <= i < |ps| ==> r[i] == ps[i].(isActive := ps[i].id == id && shouldActivate)
  {
    seq(|ps|, i requires 0 <= i < |ps| => ps[i].(isActive := if ps[i].id == id then shouldActivate else false))
  }

  /** With unique ids, choosing a prompt leaves at most one active: that prompt when
      activation was asked for and it exists, otherwise none. */
  lemma ChoosePromptAtMostOne(ps: seq<Prompt>, id: string, shouldActivate: bool)
    requires DbTables.UniqueBy(ps, DbTables.PromptKey)
    ensures DbTables.AtMostOneActive(ChoosePrompt(ps, id, shouldActivate))
    ensures (exists i :: 0 <= i < |ps| && ChoosePrompt(ps, id, shouldActivate)[i].isActive)
      <==> shouldActivate && exists i :: 0 <= i < |ps| && ps[i].id == id
  {
  }

  /** The store and the database agree: the store's prompt updaters produce the rows the
      matching repository calls leave in the `prompts` table. */
  lemma StoreMirrorsDatabasePrompts(t: DbTables.Tables, id: string, name: string, content: string, now: int, shouldActivate: bool)
    requires DbTables.PromptsTable in t.present
    ensures DbTables.SetPromptActive(t, id, shouldActivate).tables.prompts == ChoosePrompt(t.prompts, id, shouldActivate)
    ensures DbTables.InsertPrompt(t, id, name, content, now).Done? ==>
      DbTables.InsertPrompt(t, id, name, content, now).tables.prompts == AddActivePrompt(t.prompts, id, name, content, now)
    ensures DbTables.DeletePrompt(t, id).tables.prompts == RemovePrompt(t.prompts, id)
  {
    DbTables.SetPromptActiveSelects(t, id, shouldActivate);
  }

  // ---------------------------------------------------------------------------
  // Conversation updaters

  /** Renames the conversations with that id; ids, messages, order and every other title
      stay. */
  function RetitleConversations(cs: seq<Conversation>, id: string, title: string): (r: seq<Conversation>)
    ensures |r| == |cs|
    ensures forall i :: 0 <= i < |cs| ==> r[i].id == cs[i].id && r[i].messages == cs[i].messages
    ensures forall i :: 0 <= i < |cs| ==> r[i].title == if cs[i].id == id then title else cs[i].title
  {
    seq(|cs|, i requires 0 <= i < |cs| => if cs[i].id == id then cs[i].(title := title) else cs[i])
  }

  function IsNotConversation(id: string): Conversation -> bool {
    (c: Conversation) => c.id != id
  }

  /** Removes exactly the conversations with that id, keeping each other one as often
      as it occurs, in order. */
  function DropConversation(cs: seq<Conversation>, id: string): (r: seq<Conversation>)
    ensures forall c :: multiset(r)[c] == if c.id != id then multiset(cs)[c] else 0
    ensures forall c :: c in r <==> c in cs && c.id != id
    ensures IsSubsequence(r, cs)
  {
    Filter(cs, IsNotConversation(id))
  }

  /** Appends `m` to the end of the messages of the conversations with id `cid`; every
      other conversation, and every id and title, stays as it was. */
  function AppendMessage(cs: seq<Conversation>, cid: string, m: Message): (r: seq<Conversation>)
    ensures |r| == |cs|
    ensures forall i :: 0 <= i < |cs| ==> r[i].id == cs[i].id && r[i].title == cs[i].title
    ensures forall i :: 0 <= i < |cs| ==> r[i].messages == if cs[i].id == cid then cs[i].messages + [m] else cs[i].messages
  {
    seq(|cs|, i requires 0 <= i < |cs| => if cs[i].id == cid then cs[i].(messages := cs[i].messages + [m]) else cs[i])
  }

  /** Appending to, or renaming, a conversation id that is not in the list changes
      nothing. */
  lemma {:induction false} UnknownConversationUntouched(cs: seq<Conversation>, cid: string, m: Message, title: string)
    requires forall i :: 0 <= i < |cs| ==> cs[i].id != cid
    ensures AppendMessage(cs, cid, m) == cs
    ensures RetitleConversations(cs, cid, title) == cs
  {
    var a := AppendMessage(cs, cid, m);
    var b := RetitleConversations(cs, cid, title);
    assert forall i :: 0 <= i < |cs| ==> a[i] == cs[i];
    assert forall i :: 0 <= i < |cs| ==> b[i] == cs[i];
  }

  // ---------------------------------------------------------------------------
  // State updaters

  /** `deleteConversation`'s updater: the conversation goes, and the selection is
      cleared exactly when it pointed at it. */
  function DeleteConversationFrom(s: State, id: string): (r: State)
    ensures r.conversations == DropConversation(s.conversations, id)
    ensures forall c :: c in r.conversations <==> c in s.conversations && c.id != id
    ensures r.currentConversationId == if s.currentConversationId == Some(id) then None else s.currentConversationId
    ensures r == s.(conversations := r.conversations, currentConversationId := r.currentConversationId)
  {
    s.(conversations := DropConversation(s.conversations, id),
       currentConversationId := if s.currentConversationId == Some(id) then None else s.currentConversationId)
  }

  /** `addConversation`'s updater: appended and made current. */
  function AddConversationTo(s: State, c: Conversation): (r: State)
    ensures r.conversations == s.conversations + [c] && r.currentConversationId == Some(c.id)
    ensures r == s.(conversations := r.conversations, currentConversationId := r.currentConversationId)
  {
    s.(conversations := s.conversations + [c], currentConversationId := Some(c.id))
  }

  /** `clearSettings`'s updater: the three choices return to their defaults; prompts,
      conversations, selection and loading flag stay. */
  function ResetChoices(s: State): (r: State)
    ensures r.selectedModel == "grok-4" && r.reasoningConfig == ReasoningConfig(Medium, NoSummary)
    ensures r.selectedTheme == Themes.DefaultTheme.id
    ensures r.prompts == s.prompts && r.conversations == s.conversations
    ensures r.currentConversationId == s.currentConversationId && r.isLoading == s.isLoading
  {
    s.(selectedModel := DefaultModelChoice, reasoningConfig := DefaultReasoning, selectedTheme := Themes.DefaultTheme.id)
  }

  /** The defaults `clearSettings` restores are the ones a page starts with when nothing
      is persisted, which is what it finds after the settings are cleared. */
  lemma ResetMatchesFreshStart(s: State)
    ensures var start := InitialState(NoSettings);
      && ResetChoices(s).selectedModel == start.selectedModel
      && ResetChoices(s).reasoningConfig == start.reasoningConfig
      && ResetChoices(s).selectedTheme == start.selectedTheme
  {
  }

  /** A non-empty choice that was persisted is the choice the next page starts with. */
  lemma PersistedChoicesSurviveReload(p: PersistedSettings, modelId: string, themeId: string, config: ReasoningConfig)
    requires modelId != "" && themeId != ""
    ensures InitialState(p.(selectedModel := Some(modelId))).selectedModel == modelId
    ensures InitialState(p.(selectedTheme := Some(themeId))).selectedTheme == themeId
    ensures InitialState(p.(reasoningConfig := Some(config))).reasoningConfig == config
  {
  }

  /** As written, `clearSettings` throws before it clears the entry, so the choices it
      reset come back with the next page: an entry holding the model "gpt-4o" still
      starts the page on "gpt-4o", not on the default the reset showed. */
  lemma ClearedChoicesComeBack(s: State, p: PersistedSettings)
    requires p.selectedModel == Some("gpt-4o")
    ensures ResetChoices(s).selectedModel == DefaultModelChoice
    ensures InitialState(p).selectedModel == "gpt-4o" != ResetChoices(s).selectedModel
  {
  }

  // ---------------------------------------------------------------------------
  // Selectors

  function IsActivePrompt(p: Prompt): bool { p.isActive }

  function HasConversationId(id: string): Conversation -> bool {
    (c: Conversation) => c.id == id
  }

  /** `getActivePrompt`: the first active prompt, if any. */
  function GetActivePrompt(s: State): (r: Option<Prompt>)
    ensures r.None? <==> forall i :: 0 <= i < |s.prompts| ==> !s.prompts[i].isActive
    ensures r.Some? ==> exists i :: (0 <= i < |s.prompts| && s.prompts[i] == r.value && r.value.isActive
      && forall j :: 0 <= j < i ==> !s.prompts[j].isActive)
  {
    Find(s.prompts, IsActivePrompt)
  }

  /** The conversation a current id selects: the first one with that id, and none
      when there is no current id. */
  function CurrentIn(cs: seq<Conversation>, current: Option<string>): (r: Option<Conversation>)
    ensures r.Some? ==> current == Some(r.value.id) && r.value in cs
    ensures r.None? <==> (current.None? || forall i :: 0 <= i < |cs| ==> cs[i].id != current.value)
    ensures r.Some? ==> exists i :: (0 <= i < |cs| && cs[i] == r.value && forall j :: 0 <= j < i ==> cs[j].id != current.value)
  {
    if current.None? then None else Find(cs, HasConversationId(current.value))
  }

  /** Appending a message to the selected conversation keeps it selected and extends
      its messages by that one message. */
  lemma AppendToCurrent(cs: seq<Conversation>, cid: string, m: Message)
    ensures var after := CurrentIn(AppendMessage(cs, cid, m), Some(cid));
      && (after.Some? <==> CurrentIn(cs, Some(cid)).Some?)
      && (after.Some? ==> after.value == CurrentIn(cs, Some(cid)).value.(messages := CurrentIn(cs, Some(cid)).value.messages + [m]))
  {
    var ap := AppendMessage(cs, cid, m);
    FindIndexAgrees(ap, HasConversationId(cid), cs, HasConversationId(cid));
  }

  /** `getCurrentConversation`: a conversation of the list whose id is the current one,
      and none exactly when there is no current id or no conversation carries it. */
  function GetCurrentConversation(s: State): (r: Option<Conversation>)
    ensures r.Some? ==> r.value in s.conversations && s.currentConversationId == Some(r.value.id)
    ensures r.None? <==> (s.currentConversationId.None?
                          || forall i :: 0 <= i < |s.conversations| ==> s.conversations[i].id != s.currentConversationId.value)
  {
    CurrentIn(s.conversations, s.currentConversationId)
  }

  /** After `createPrompt` the active prompt is the new one. */
  lemma CreatedPromptIsActive(s: State, id: string, name: string, content: string, createdAt: int)
    ensures GetActivePrompt(s.(prompts := AddActivePrompt(s.prompts, id, name, content, createdAt)))
      == Some(DbTables.PromptRow(id, name, content, true, createdAt))
  {
    var ps := AddActivePrompt(s.prompts, id, name, content, createdAt);
    var r := GetActivePrompt(s.(prompts := ps));
    var i :| 0 <= i < |ps| && ps[i] == r.value && r.value.isActive;
  }

  /** After `addConversation` of a conversation whose id is new, the current
      conversation is the added one. */
  lemma AddedConversationIsCurrent(s: State, c: Conversation)
    requires forall i :: 0 <= i < |s.conversations| ==> s.conversations[i].id != c.id
    ensures GetCurrentConversation(AddConversationTo(s, c)) == Some(c)
  {
    var r := AddConversationTo(s, c);
    assert r.conversations[|s.conversations|] == c;
    var found := GetCurrentConversation(r);
    var i :| 0 <= i < |r.conversations| && r.conversations[i] == found.value
      && HasConversationId(c.id)(r.conversations[i]);
  }

  // ---------------------------------------------------------------------------
  // The store object

  /** `store` with its `actions`. The settings actions also write to the settings slot. */
  class AppStore {
    var state: State
    const storage: SettingsStorage

    /** The store starts from the settings persisted on this page. */
    constructor (storage: SettingsStorage)
      ensures this.storage == storage && state == InitialState(storage.Load())
    {
      this.storage := storage;
      state := InitialState(storage.Load());
    }

    method CreatePrompt(id: string, name: string, content: string, createdAt: int)
      modifies this
      ensures state == old(state).(prompts := AddActivePrompt(old(state.prompts), id, name, content, createdAt))
    {
      state := state.(prompts := AddActivePrompt(state.prompts, id, name, content, createdAt));
    }

    method DeletePrompt(id: string)
      modifies this
      ensures state == old(state).(prompts := RemovePrompt(old(state.prompts), id))
    {
      state := state.(prompts := RemovePrompt(state.prompts, id));
    }

    method SetPromptActive(id: string, shouldActivate: bool)
      modifies this
      ensures state == old(state).(prompts := ChoosePrompt(old(state.prompts), id, shouldActivate))
    {
      state := state.(prompts := ChoosePrompt(state.prompts, id, shouldActivate));
    }

    method SetConversations(conversations: seq<Conversation>)
      modifies this
      ensures state == old(state).(conversations := conversations)
    {
      state := state.(conversations := conversations);
    }

    method SetCurrentConversationId(id: Option<string>)
      modifies this
      ensures state == old(state).(currentConversationId := id)
    {
      state := state.(currentConversationId := id);
    }

    method AddConversation(c: Conversation)
      modifies this
      ensures state == AddConversationTo(old(state), c)
    {
      state := AddConversationTo(state, c);
    }

    method UpdateConversationTitle(id: string, title: string)
      modifies this
      ensures state == old(state).(conversations := RetitleConversations(old(state.conversations), id, title))
    {
      state := state.(conversations := RetitleConversations(state.conversations, id, title));
    }

    method DeleteConversation(id: string)
      modifies this
      ensures state == DeleteConversationFrom(old(state), id)
    {
      state := DeleteConversationFrom(state, id);
    }

    method AddMessage(conversationId: string, message: Message)
      modifies this
      ensures state == old(state).(conversations := AppendMessage(old(state.conversations), conversationId, message))
    {
      state := state.(conversations := AppendMessage(state.conversations, conversationId, message));
    }

    method SetLoading(isLoading: bool)
      modifies this
      ensures state == old(state).(isLoading := isLoading)
    {
      state := state.(isLoading := isLoading);
    }

    /** `setSelectedModel`: the state and the persisted settings both take the model. */
    method SetSelectedModel(modelId: string)
      modifies this, storage
      ensures state == old(state).(selectedModel := modelId)
      ensures storage.isBrowser ==> storage.Load() == old(storage.Load()).(selectedModel := Some(modelId))
    {
      state := state.(selectedModel := modelId);
      storage.SaveSelectedModel(modelId);
    }

    method SetReasoningConfig(config: ReasoningConfig)
      modifies this, storage
      ensures state == old(state).(reasoningConfig := config)
      ensures storage.isBrowser ==> storage.Load() == old(storage.Load()).(reasoningConfig := Some(config))
    {
      state := state.(reasoningConfig := config);
      storage.SaveReasoningConfig(config);
    }

    /** `setReasoningEffort`: only the effort changes, and the whole configuration is
        persisted. */
    method SetReasoningEffort(effort: Effort)
      modifies this, storage
      ensures state == old(state).(reasoningConfig := old(state.reasoningConfig).(effort := effort))
      ensures storage.isBrowser ==> storage.Load() == old(storage.Load()).(reasoningConfig := Some(state.reasoningConfig))
    {
      var config := state.reasoningConfig.(effort := effort);
      storage.SaveReasoningConfig(config);
      state := state.(reasoningConfig := config);
    }

    /** `setReasoningSummary`: only the summary changes. */
    method SetReasoningSummary(summary: Summary)
      modifies this, storage
      ensures state == old(state).(reasoningConfig := old(state.reasoningConfig).(summary := summary))
      ensures storage.isBrowser ==> storage.Load() == old(storage.Load()).(reasoningConfig := Some(state.reasoningConfig))
    {
      var config := state.reasoningConfig.(summary := summary);
      storage.SaveReasoningConfig(config);
      state := state.(reasoningConfig := config);
    }

    method SetSelectedTheme(themeId: string)
      modifies this, storage
      ensures state == old(state).(selectedTheme := themeId)
      ensures storage.isBrowser ==> storage.Load() == old(storage.Load()).(selectedTheme := Some(themeId))
    {
      state := state.(selectedTheme := themeId);
      storage.SaveSelectedTheme(themeId);
    }

    /** `clearSettings` as written, in the browser bundle, where the CommonJS `require`
        it calls is not defined: the choices are reset, then the call throws a
        ReferenceError before the entry is cleared. */
    method ClearSettingsAsWritten() returns (threw: bool)
      modifies this
      ensures threw
      ensures state == ResetChoices(old(state))
      ensures storage.slot == old(storage.slot) && storage.Load() == old(storage.Load())
    {
      state := ResetChoices(state);
      threw := true;
    }

    /** `clearSettings`, corrected: defaults in the state, nothing left in the slot. */
    method ClearSettings()
      modifies this, storage
      ensures state == ResetChoices(old(state))
      ensures storage.Load() == NoSettings
    {
      state := ResetChoices(state);
      storage.ClearSettings();
    }
  }
}
