# TanChat data layer in Dafny

TanChat is a browser chat client. It keeps its data in an in-browser SQLite database, persists that database in local storage, and asks an AI provider for replies through a server function. This project models the core of that client as Dafny and proves properties of the model. The core comprises:

- the database module: one engine per page, five tables and the repository calls, with a snapshot written back after every change;
- the application store and the chat store, with their updaters, selectors and actions;
- the persisted user settings;
- the colour themes;
- the pure parts of the AI server function: the message filter, the system prompt, the model and provider, and error classification.

Modules:

- `Js` (`js.dfy`): the JavaScript built-ins the code relies on, stated over sequences:
  - `trim` (ECMAScript 2023 white space, sections 12.2 and 12.3);
  - `startsWith`, `includes`, `slice(0, n)`, `find` and `filter`;
  - `Option`, `Result` and `Outcome` stand for `null`/`undefined` and for thrown errors.
- `Themes` (`themes.dfy`): the seven themes and `getTheme` with its fallback to the first theme.
- `Ai` (`ai.dfy`): the server function's request handling:
  - which messages are sent, and how they are converted;
  - the system prompt, the model id and the provider;
  - the 400 response for an empty transcript;
  - the classification of a provider failure into a 500 response.
- `Settings` (`settings.dfy`): the `tanchat-settings` storage entry:
  - validation on load;
  - the save, clear and merge helpers, with the storage slot as a class.
- `DbTables` (`db_tables.dfy`): the database content as values:
  - five tables, rows in insertion order, key/value tables as maps;
  - the effect of every SQL statement the repository runs, and the `ORDER BY` queries;
  - the schema's guarantees (unique primary keys, absent tables empty, referential integrity when foreign keys are enforced) and the lemmas that every statement keeps them.
- `Db` (`db.dfy`):
  - the page's engine and storage entry as the class `ChatDb`: `initDB`, `saveToLocalStorage`, one method per repository call, and the queries;
  - the byte/character loops of the base-64 helpers, as methods over an `array`.
- `Store` (`store.dfy`): the application store:
  - `initialState` from the persisted settings;
  - the pure updaters and the selectors;
  - the class `AppStore`, whose settings actions also persist their choice.
- `Chat` (`chat.dfy`): the chat store:
  - the class `ChatStore`, its actions kept in step with `ChatDb`;
  - the loading of conversations from the database;
  - the `clearAllChats` loop;
  - `sendMessage` with its `try`, `catch` and `finally` blocks.

Time, randomness and the network are parameters:

- `Date.now()` ids and timestamps arrive as values (`Stamps`, `now`, `createdAt`);
- `unixepoch()` arrives as `now`;
- the AI reply arrives as an `AiReply`.

The chat store imports its `genAIResponse` from `app/utils/ai.ts`. The `Ai` module models the server function of `src/utils/ai.ts`. `sendMessage` uses only the reply, so either one fits the parameter.

Whether the engine enforces foreign keys is a constructor argument of `ChatDb` (`fkEnforced`). The repository never issues `PRAGMA foreign_keys = ON`, and SQLite's default is off, so the flag is false for the code as written. Both settings are proved.

## Model

| member | source | states |
|---|---|---|
| Js.TrimStart | src/utils/ai.ts:101 | the result is a suffix of the input, every dropped character is white space, and the result does not start with white space |
| Js.TrimEnd | src/utils/ai.ts:101 | the result is a prefix of the input, every dropped character is white space, and the result does not end with white space |
| Js.StartsWith | src/utils/ai.ts:25 | `startsWith` holds exactly when the prefix is no longer than the string and matches it character by character |
| Js.Trim | app/store/chat.ts:115 | `trim()` returns a contiguous part of the input that neither starts nor ends with white space, and everything of the input before and after that part is white space; it is empty exactly when the input is all white space |
| Js.IncludesIffOccurs | src/utils/ai.ts:25 | the `includes` scan succeeds exactly when the substring occurs at some position |
| Js.Includes | src/utils/ai.ts:25 | the empty string is found in every string, and nothing longer than the string is found in it; the full meaning is stated by `IncludesIffOccurs` |
| Js.Take | app/store/chat.ts:127 | `slice(0, n)` is a prefix of length `min(n, length)` |
| Js.FindIndex | app/store/store.ts:200 | the position of the first element satisfying the predicate, or none exactly when no element satisfies it |
| Js.Find | app/store/chat.ts:165 | `find` returns an element satisfying the predicate that no earlier element satisfies, or `undefined` exactly when none does |
| Js.FindIndexAgrees | app/store/chat.ts:174 | two lists whose elements the predicates judge alike, position by position, are searched alike |
| Js.Filter | app/store/store.ts:85 | `filter` keeps exactly the accepted elements with their multiplicities, in their original order |
| Js.FilterAppendRejected | src/utils/ai.ts:100-101 | appending an element the filter rejects leaves the filtered result unchanged |
| Themes.LookupTheme | app/utils/themes.ts:200-202 | a lookup in a non-empty table returns a table member; it has the requested id when some theme has it, and is the first theme otherwise |
| Themes.GetTheme | app/utils/themes.ts:200-202 | `getTheme` returns the theme with that id when there is one, otherwise `defaultTheme` |
| Themes.ThemeIdsDistinct | app/utils/themes.ts:36-198 | no two built-in themes share an id |
| Themes.GetThemeOfTableMember | app/utils/themes.ts:200-202 | looking up the id of any built-in theme returns that very theme |
| Themes.DefaultThemeIsFallback | app/utils/themes.ts:204 | the default theme is "dark", and every unknown id falls back to it |
| Ai.ConvertToModelMessage | src/utils/ai.ts:18-21 | role and content are kept; the id is dropped |
| Ai.SendableMessages | src/utils/ai.ts:100-101 | a message is sent exactly when its trimmed content is non-empty and it does not start with the apology prefix; each sent message occurs as often as in the transcript, has a non-blank character, and transcript order is kept |
| Ai.GetProviderFromModel | src/utils/ai.ts:24-29 | the provider is OpenAI exactly when the model id starts with "o3" or contains "gpt" |
| Ai.ModelIdOf | src/utils/ai.ts:118 | the model id is never empty; a non-empty requested model is used as given, and a missing or empty one is replaced by the default model |
| Ai.ComposeSystemPrompt | src/utils/ai.ts:113-115 | the system prompt starts with the instructions; an enabled custom prompt follows them after a blank line and can be read back, otherwise the instructions are the whole prompt |
| Ai.PrepareRequestWith | src/utils/ai.ts:99-119 | the request fails exactly when no message survives the filter, and then with status 400 and "No valid messages to send"; otherwise it carries the converted surviving messages, the composed prompt, the model id, and the explicit provider or the detected one |
| Ai.PrepareRequest | src/utils/ai.ts:41-119 | the request handling with the built-in instructions: it fails exactly when nothing is sendable, every accepted request's system prompt starts with those instructions, and everything else is as `PrepareRequestWith` states |
| Ai.InstructionsLead | src/utils/ai.ts:113-115 | for any instructions, an accepted request's system prompt starts with them |
| Ai.ClassifyError | src/utils/ai.ts:214-224 | a thrown value that is not an `Error` yields "Failed to get AI response"; the texts for an `Error` are stated by `ClassifyFollowsRuleTable` |
| Ai.FirstMatch | src/utils/ai.ts:215-223 | the text of the first rule whose keyword occurs in the message, or none exactly when no rule matches |
| Ai.ClassifyFollowsRuleTable | src/utils/ai.ts:214-224 | the nested conditional is the first-match reading of the keyword table (rate limit, API key, access/tier, not found/404); a message that matches no rule is returned unchanged |
| Ai.MatchesKeywords | src/utils/ai.ts:219-221 | a rule with one or two keywords matches exactly when the message contains one of them |
| Ai.RateLimitTakesPrecedence | src/utils/ai.ts:215-216 | any message mentioning "rate limit" is reported as a rate limit, whatever else it mentions |
| Ai.ErrorResponseFor | src/utils/ai.ts:213-229 | the failure response has status 500 and the classified text: the text of the first matching rule, or the `Error`'s own message when no rule matches |
| Settings.ParseEffort | app/utils/localStorage.ts:36 | only "low", "medium" and "high" are accepted, each read back as the effort it names |
| Settings.ParseSummary | app/utils/localStorage.ts:37 | only "auto", "detailed" and "none" are accepted, each read back as the summary it names |
| Settings.ValidateReasoning | app/utils/localStorage.ts:33-41 | a reasoning configuration is kept exactly when it is an object with a valid effort and a valid summary, and it is kept as stored |
| Settings.Validate | app/utils/localStorage.ts:23-43 | a model or theme is kept exactly when it is a string; the reasoning configuration is kept as validated; a value that is not an object yields no settings |
| Settings.LoadSettings | app/utils/localStorage.ts:11-48 | no settings on the server, for a missing or empty entry, or for unparsable text; otherwise the validated value |
| Settings.ToJson | app/utils/localStorage.ts:56 | `JSON.stringify` writes an object with exactly the fields that are present, each under its own name, and omits the absent ones |
| Settings.ValidateToJson | app/utils/localStorage.ts:56 | validation gives back exactly the settings that `JSON.stringify` wrote |
| Settings.SettingsStorage.constructor | app/utils/localStorage.ts:9 | the slot starts with the given entry text |
| Settings.SettingsStorage.SaveSettings | app/utils/localStorage.ts:50-60 | in the browser, the entry holds the encoding of the settings and loading returns exactly them; on the server nothing changes |
| Settings.SettingsStorage.ClearSettings | app/utils/localStorage.ts:62-72 | the entry is removed, and loading then yields no settings |
| Settings.SettingsStorage.SaveSelectedModel | app/utils/localStorage.ts:75-78 | the loaded settings change in the model only |
| Settings.SettingsStorage.SaveReasoningConfig | app/utils/localStorage.ts:80-83 | the loaded settings change in the reasoning configuration only |
| Settings.SettingsStorage.SaveSelectedTheme | app/utils/localStorage.ts:85-88 | the loaded settings change in the theme only |
| Settings.SaveModelKeepsOtherFields | app/utils/localStorage.ts:75-78 | from any stored entry, saving a model keeps the stored reasoning configuration and theme as validated |
| DbTables.SortAsc | app/utils/db.ts:124 | the result is sorted by the key and is a permutation of the rows |
| DbTables.EnsureSettingsTable | app/utils/db.ts:21-28 | the reload path makes the `settings` table exist and changes no other table and no row |
| DbTables.InsertConversation | app/utils/db.ts:110-114 | succeeds exactly when the table exists and the id is new, and then appends the row; nothing else changes, and a failure changes nothing |
| DbTables.UpdateConversationTitle | app/utils/db.ts:116-120 | succeeds exactly when the table exists; the rows with that id take the title, and ids, timestamps, order and every other title are kept; a failure changes nothing |
| DbTables.DeleteConversation | app/utils/db.ts:134-138 | succeeds exactly when the table exists; exactly the conversations with that id go, their messages too when foreign keys are enforced, and no message otherwise; no other table changes |
| DbTables.InsertMessage | app/utils/db.ts:141-148 | succeeds exactly when the table exists, the id is new and, with foreign keys enforced, the conversation exists; then the row is appended, and a failure changes nothing |
| DbTables.UpsertSetting | app/utils/db.ts:168-175 | succeeds exactly when the table exists; the key then holds the new row, every other key keeps its row, and no other table changes |
| DbTables.UpsertUserSetting | app/utils/db.ts:270-277 | succeeds exactly when the table exists; the key then holds the new value, every other key keeps its value, and no other table changes |
| DbTables.InsertPrompt | app/utils/db.ts:220-229 | succeeds exactly when the table exists and the id is new; every existing prompt is deactivated even when the insert then fails, and on success the new prompt follows them, active |
| DbTables.UpdatePrompt | app/utils/db.ts:231-238 | succeeds exactly when the table exists; every row keeps its id, activation and timestamp, the rows with that id take the new name and content, and every other row is unchanged |
| DbTables.SetPromptActive | app/utils/db.ts:240-247 | succeeds exactly when the table exists; every row keeps everything but its activation, which becomes true exactly for the rows with that id when activation was asked for |
| DbTables.DeletePrompt | app/utils/db.ts:263-267 | succeeds exactly when the table exists; exactly the prompts with that id go, and no other table changes |
| DbTables.Apply | app/utils/db.ts:110-277 | no repository call creates or drops a table, and a call that throws changes nothing, except `createPrompt`, which may throw after deactivating the prompts |
| DbTables.RetitleRows | app/utils/db.ts:118 | the rows with that id take the title; every other row is unchanged, and the count is kept |
| DbTables.QueryConversations | app/utils/db.ts:122-132 | fails exactly when the table is missing; otherwise every conversation, each once, newest first |
| DbTables.QueryMessages | app/utils/db.ts:150-165 | fails exactly when the table is missing; otherwise exactly that conversation's messages, each as often as stored, oldest first |
| DbTables.LookupSetting | app/utils/db.ts:177-185 | fails exactly when the table is missing; otherwise the stored row, or null exactly when the key is absent |
| DbTables.LookupUserSetting | app/utils/db.ts:279-284 | fails exactly when the table is missing; otherwise the stored value, or null exactly when the key is absent |
| DbTables.Deactivated | app/utils/db.ts:223 | every prompt becomes inactive; nothing else changes |
| DbTables.Activated | app/utils/db.ts:244 | exactly the prompts with that id become active; nothing else changes |
| DbTables.QueryPrompts | app/utils/db.ts:249-261 | fails exactly when the table is missing; otherwise every prompt, each once, newest first |
| DbTables.InsertConversationConsistent | app/utils/db.ts:110-114 | inserting a conversation keeps the schema's guarantees |
| DbTables.RetitleKeepsIds | app/utils/db.ts:116-120 | a retitle keeps the set of conversation ids and their uniqueness |
| DbTables.UpdateConversationTitleConsistent | app/utils/db.ts:116-120 | a retitle keeps the schema's guarantees |
| DbTables.DeleteConversationConsistent | app/utils/db.ts:134-138 | a conversation delete, with or without the cascade, keeps the schema's guarantees |
| DbTables.InsertMessageConsistent | app/utils/db.ts:141-148 | inserting a message keeps the schema's guarantees |
| DbTables.InsertPromptConsistent | app/utils/db.ts:220-229 | `createPrompt`'s statements keep the schema's guarantees, even when the insert fails after the deactivation |
| DbTables.ApplyPreservesConsistency | app/utils/db.ts:35-68 | every repository statement keeps unique primary keys and empty absent tables, and, with foreign keys enforced, every message's conversation |
| DbTables.CreatePromptActivatesOnlyIt | app/utils/db.ts:220-229 | `createPrompt` succeeds exactly when the id is new, and then leaves the new prompt at the end as the only active one; on a duplicate id it fails with every prompt deactivated |
| DbTables.SetPromptActiveSelects | app/utils/db.ts:240-247 | afterwards a prompt is active exactly when activation was asked for and it has that id; names, contents and order are kept |
| DbTables.ApplyKeepsAtMostOneActive | app/utils/db.ts:220-267 | with unique prompt ids, every statement leaves at most one prompt active |
| DbTables.FilterActiveAtMostOne | app/utils/db.ts:265 | deleting rows cannot create a second active prompt |
| DbTables.EditAndDeleteNeverActivate | app/utils/db.ts:231-238 | editing or deleting a prompt never activates one that was inactive |
| DbTables.SettingReadsBack | app/utils/db.ts:168-185 | `INSERT OR REPLACE` into `settings` is read back as written, and every other key reads as before |
| DbTables.UserSettingReadsBack | app/utils/db.ts:270-284 | the same for `user_settings` |
| DbTables.DeleteConversationCascades | app/utils/db.ts:48 | the deleted conversation is gone and the others stay; with foreign keys enforced its messages go, without them every message stays |
| DbTables.RetitleUnknownIsNoOp | app/utils/db.ts:118 | retitling an id that is not stored changes nothing |
| DbTables.CreatedConversationIsListed | app/utils/db.ts:110-132 | a conversation that was inserted is returned by the next `getConversations` |
| DbTables.ReloadKeepsContent | app/utils/db.ts:21-28 | the reload path adds the `settings` table and nothing else: it is idempotent, every other query answers as before, and a missing `user_settings` stays missing |
| DbTables.FreshDatabaseConsistent | app/utils/db.ts:35-68 | a new database has all five tables, meets the schema's guarantees, and has at most one active prompt |
| Db.InitEngine | app/utils/db.ts:7-75 | an existing engine is kept; a missing or empty entry yields a fresh database; a stored snapshot opens with exactly its own tables plus `settings` and its rows unchanged, so a missing `user_settings` stays missing; it fails exactly for a snapshot that does not decode |
| Db.Step | app/utils/db.ts:110-114 | a call without an engine throws "Database not initialized" and changes nothing; otherwise the engine takes the statements' effects (kept even when a later statement throws) and the call succeeds exactly when they all do; no table is created or dropped; a success leaves the stored snapshot equal to the engine, and a throw leaves the old snapshot |
| Db.StepPreservesConsistency | app/utils/db.ts:110-114 | whether it succeeds or throws, a call keeps a consistent engine consistent |
| Db.FailedCreatePromptLeavesSnapshotBehind | app/utils/db.ts:220-229 | a duplicate `createPrompt` throws after deactivating the prompts, so the engine differs from the stored snapshot, which stays behind |
| Db.Latin1 | app/utils/db.ts:196-200 | one character per byte, its code the byte |
| Db.CodesMod256 | app/utils/db.ts:206-209 | one byte per character, its code modulo 256 (the `Uint8Array` store) |
| Db.BytesRoundTrip | app/utils/db.ts:195-211 | converting bytes to a binary string and back returns the bytes |
| Db.BinaryStringRoundTrip | app/utils/db.ts:204-211 | a string survives the trip through bytes exactly when every code is below 256 |
| Db.BytesToBinaryString | app/utils/db.ts:195-202 | the loop builds the binary string of the whole byte array |
| Db.BinaryStringToBytes | app/utils/db.ts:204-211 | the loop fills a new array with every character code modulo 256 |
| Db.ChatDb.constructor | app/utils/db.ts:4 | the engine starts unset, with the given storage entry |
| Db.ChatDb.SaveToLocalStorage | app/utils/db.ts:188-192 | writes the engine's snapshot, or does nothing without an engine |
| Db.ChatDb.InitDB | app/utils/db.ts:7-75 | the result follows `InitEngine`; a later call changes nothing; a first successful call sets the engine and stores its snapshot; a failure changes nothing |
| Db.ChatDb.Execute | app/utils/db.ts:110-114 | engine, entry and result follow `Step` |
| Db.ChatDb.CreateConversation | app/utils/db.ts:110-114 | the engine and entry follow `Step` of the conversation insert |
| Db.ChatDb.UpdateConversationTitle | app/utils/db.ts:116-120 | the engine and entry follow `Step` of the retitle |
| Db.ChatDb.DeleteConversation | app/utils/db.ts:134-138 | the engine and entry follow `Step` of the delete |
| Db.ChatDb.AddMessage | app/utils/db.ts:141-148 | the engine and entry follow `Step` of the message insert |
| Db.ChatDb.SetSetting | app/utils/db.ts:168-175 | the engine and entry follow `Step` of the upsert |
| Db.ChatDb.CreatePrompt | app/utils/db.ts:220-229 | the engine and entry follow `Step` of the deactivation and insert |
| Db.ChatDb.UpdatePrompt | app/utils/db.ts:231-238 | the engine and entry follow `Step` of the prompt edit |
| Db.ChatDb.SetPromptActive | app/utils/db.ts:240-247 | the engine and entry follow `Step` of the activation |
| Db.ChatDb.DeletePrompt | app/utils/db.ts:263-267 | the engine and entry follow `Step` of the prompt delete |
| Db.ChatDb.SetUserSetting | app/utils/db.ts:270-277 | the engine and entry follow `Step` of the upsert |
| Db.ChatDb.GetConversations | app/utils/db.ts:122-132 | throws without an engine or table; otherwise every conversation once, newest first |
| Db.ChatDb.GetMessagesForConversation | app/utils/db.ts:150-165 | throws exactly without an engine or table; otherwise exactly that conversation's messages, each as often as stored, oldest first |
| Db.ChatDb.GetSetting | app/utils/db.ts:177-185 | throws exactly without an engine or a `settings` table; otherwise the stored row, or null exactly when the key is absent |
| Db.ChatDb.GetPrompts | app/utils/db.ts:249-261 | throws without an engine or table; otherwise every prompt once, newest first |
| Db.ChatDb.GetUserSetting | app/utils/db.ts:279-284 | throws exactly without an engine or a `user_settings` table (which a reopened snapshot written before that table existed lacks); otherwise the stored value, or null exactly when the key is absent |
| Db.InitIdempotent | app/utils/db.ts:8 | initialising an initialised engine returns it unchanged |
| Db.ReopenedSnapshotConsistent | app/utils/db.ts:17-29 | a consistent stored snapshot opens as a consistent engine |
| Store.InitialState | app/store/store.ts:43-56 | empty lists, no selection, not loading; each choice is the persisted one unless it is missing or empty, else "grok-4", medium/none reasoning, and the default theme |
| Store.AddActivePrompt | app/store/store.ts:62-80 | every existing prompt becomes inactive in place, and the new prompt is appended as the only active one |
| Store.RemovePrompt | app/store/store.ts:82-87 | exactly the prompts with that id go; the others keep their multiplicity and order |
| Store.ChoosePrompt | app/store/store.ts:89-97 | a prompt is active exactly when it has that id and activation was asked for; nothing else changes |
| Store.ChoosePromptAtMostOne | app/store/store.ts:89-97 | with unique ids, at most one prompt is active, and one is exactly when activation was asked for and the id exists |
| Store.StoreMirrorsDatabasePrompts | app/store/store.ts:62-97 | the store's prompt updaters produce exactly the rows the matching database calls leave |
| Store.RetitleConversations | app/store/store.ts:116-123 | the conversations with that id take the title; ids, messages, order and other titles are kept |
| Store.DropConversation | app/store/store.ts:125-131 | exactly the conversations with that id go; each other one keeps its multiplicity and its order |
| Store.AppendMessage | app/store/store.ts:133-142 | the message is appended to the conversations with that id; everything else is kept |
| Store.UnknownConversationUntouched | app/store/store.ts:116-142 | appending to, or retitling, an unlisted id changes nothing |
| Store.DeleteConversationFrom | app/store/store.ts:125-131 | the list becomes `DropConversation` of the old one, the selection is cleared exactly when it pointed at that id, and nothing else changes |
| Store.AddConversationTo | app/store/store.ts:108-114 | the conversation is appended and selected; nothing else changes |
| Store.ResetChoices | app/store/store.ts:182-191 | the three choices return to their defaults; prompts, conversations, selection and loading flag are kept |
| Store.ResetMatchesFreshStart | app/store/store.ts:182-195 | the restored defaults are the ones a page starts with when nothing is persisted |
| Store.PersistedChoicesSurviveReload | app/store/store.ts:50-55 | a persisted non-empty choice is the choice the next page starts with |
| Store.GetActivePrompt | app/store/store.ts:200 | the first active prompt, or none exactly when no prompt is active |
| Store.CurrentIn | app/store/store.ts:201-202 | the first conversation with the current id, or none exactly when there is no current id or no such conversation |
| Store.GetCurrentConversation | app/store/store.ts:201-202 | a listed conversation with the current id, or none exactly when there is no current id or no listed conversation has it |
| Store.AppendToCurrent | app/store/store.ts:133-142 | appending to the selected conversation keeps it selected and extends its messages by exactly that message |
| Store.CreatedPromptIsActive | app/store/store.ts:62-80 | after `createPrompt` the active prompt is the new one |
| Store.AddedConversationIsCurrent | app/store/store.ts:108-114 | after adding a conversation with a new id, it is the current conversation |
| Store.AppStore.constructor | app/store/store.ts:43-58 | the store starts from `initialState` over the persisted settings |
| Store.AppStore.CreatePrompt | app/store/store.ts:62-80 | only the prompts change, by `AddActivePrompt` |
| Store.AppStore.DeletePrompt | app/store/store.ts:82-87 | only the prompts change, by `RemovePrompt` |
| Store.AppStore.SetPromptActive | app/store/store.ts:89-97 | only the prompts change, by `ChoosePrompt` |
| Store.AppStore.SetConversations | app/store/store.ts:100-102 | only the conversations change |
| Store.AppStore.SetCurrentConversationId | app/store/store.ts:104-106 | only the selection changes |
| Store.AppStore.AddConversation | app/store/store.ts:108-114 | the state becomes `AddConversationTo` of the old one |
| Store.AppStore.UpdateConversationTitle | app/store/store.ts:116-123 | only the conversations change, by `RetitleConversations` |
| Store.AppStore.DeleteConversation | app/store/store.ts:125-131 | the state becomes `DeleteConversationFrom` of the old one |
| Store.AppStore.AddMessage | app/store/store.ts:133-142 | only the conversations change, by `AppendMessage` |
| Store.AppStore.SetLoading | app/store/store.ts:144-146 | only the loading flag changes |
| Store.AppStore.SetSelectedModel | app/store/store.ts:148-151 | the state takes the model, and so do the persisted settings, in that field only |
| Store.AppStore.SetReasoningConfig | app/store/store.ts:154-157 | the state takes the configuration, and so do the persisted settings, in that field only |
| Store.AppStore.SetReasoningEffort | app/store/store.ts:159-165 | only the effort changes, and the whole new configuration is persisted |
| Store.AppStore.SetReasoningSummary | app/store/store.ts:167-173 | only the summary changes, and the whole new configuration is persisted |
| Store.AppStore.SetSelectedTheme | app/store/store.ts:176-179 | the state takes the theme, and so do the persisted settings, in that field only |
| Store.AppStore.ClearSettings | app/store/store.ts:182-195 | corrected: the state's choices return to their defaults, and nothing stays persisted, so the next page starts from the defaults too |
| Store.AppStore.ClearSettingsAsWritten | app/store/store.ts:182-195 | as written in the browser bundle: the choices are reset, then `require` throws and the settings entry is left as it was |
| Store.ClearedChoicesComeBack | app/store/store.ts:192-194 | with the entry left behind, a page reloaded after the reset starts on the persisted model "gpt-4o" rather than the default the reset showed |
| Chat.ToMessages | app/store/chat.ts:105-109 | each stored row becomes one message with its id, role and content, in order |
| Chat.ToMessagesMembers | app/store/chat.ts:105-109 | a message is shown exactly when some stored row converts to it |
| Chat.ProjectConversations | app/store/chat.ts:100-111 | each listed conversation keeps its id and title and gets its stored messages; the projection throws exactly when there is a conversation and no `messages` table |
| Chat.LoadedConversations | app/store/chat.ts:98-111 | throws without an engine, without the `conversations` table, or with conversations but no `messages` table; otherwise the stored conversations, newest first, with their ids and titles |
| Chat.LoadedMessagesMatchStore | app/store/chat.ts:98-111 | a loaded conversation is a stored one, and it holds exactly its stored messages |
| Chat.ConversationIds | app/store/chat.ts:80-81 | the ids of the listed conversations, in order |
| Chat.DeleteEach | app/store/chat.ts:80-82 | no ids do nothing; without an engine the first delete throws and nothing changes; no table is created or dropped |
| Chat.DeleteEachOneMore | app/store/chat.ts:80-82 | one more id runs one more delete, unless an earlier one threw |
| Chat.DeleteEachStopsAtFailure | app/store/chat.ts:80-82 | once a delete throws, the later ones never run |
| Chat.DeleteEachRemovesAll | app/store/chat.ts:79-88 | with an engine and a `conversations` table, every delete succeeds; exactly the listed conversations go, their messages too when foreign keys are enforced and none otherwise, and the snapshot is stored |
| Chat.ApologyNeverSent | src/utils/ai.ts:100-101 | the streaming route's filter drops the apology: it is never sendable, and ending a transcript with it leaves the filtered transcript unchanged (the chat store's own call does not filter; see Left out) |
| Chat.UserMessageSentTwice | app/store/chat.ts:174-181 | as written, a conversation whose only message is the user's sends that message twice |
| Chat.RequestMessagesAsWritten | app/store/chat.ts:174-181 | as written, the request is the whole transcript read after the append, then the user message |
| Chat.RequestEndsWithUserOnce | app/store/chat.ts:174-181 | corrected, the request is the transcript as it stood, plus the user message exactly once |
| Chat.RequestMessages | app/store/chat.ts:174-181 | corrected, the request is the listed conversation's transcript as it stands, or the user message alone when the conversation is not listed |
| Chat.GetCurrentMessagesAsWritten | app/store/chat.ts:40-43 | the installed getter reads the initial state, so it always returns no messages |
| Chat.StaleGetterHidesMessages | app/store/chat.ts:35-44 | with one conversation selected that holds one message, the installed getter returns none, while the live state has that message |
| Chat.CurrentMessagesFollowAppend | app/store/chat.ts:40-43 | read from the live state, the current messages follow every message appended to the selected conversation |
| Chat.ActiveSystemPrompt | app/store/chat.ts:162-171 | the system prompt is the enabled content of the first active prompt, and none exactly when no prompt is active |
| Chat.SystemPromptIsTheActivePrompt | app/store/chat.ts:162-171 | whatever order `getPrompts` lists them in, a database with at most one active prompt sends that prompt's content |
| Chat.PromptsUntouched | app/store/chat.ts:131-164 | creating a conversation or storing a message does not change what `getPrompts` returns |
| Chat.SendStoresTwoMessages | app/store/chat.ts:139-232 | into a database with every table, new distinct message ids and, with foreign keys enforced, an existing conversation, a send stores the user message and then the reply when it is usable or the apology otherwise, changes no other table, and leaves the snapshot equal to the engine |
| Chat.HealthySendSettles | app/store/chat.ts:139-232 | in the same well-formed database a send is never rejected: it is answered exactly when the reply is usable, and otherwise apologised for because the call threw or the reply was missing or blank |
| Chat.StoreMessage | app/utils/db.ts:141-148 | a message with a new id, into a table that exists (and its conversation, with foreign keys enforced), is appended and the snapshot written |
| Chat.StoreTwo | app/utils/db.ts:141-148 | two messages with new, distinct ids stored in turn are appended in that order |
| Chat.RemoveOne | app/utils/db.ts:134-138 | one conversation delete on an engine with a `conversations` table succeeds, removes exactly that conversation (and its messages with foreign keys enforced) and writes the snapshot |
| Chat.SendShowsUserThenAnswer | app/store/chat.ts:153-160 | in a listed conversation, showing the user message and then the reply or the apology leaves exactly its earlier transcript followed by those two messages, so the page never shows the user message twice |
| Chat.AppendedShownLast | app/store/chat.ts:222-229 | a message appended to the selected conversation is the last one it shows |
| Chat.ChatStore.constructor | app/store/chat.ts:26-32 | the store starts with nothing listed, nothing selected and not loading |
| Chat.ChatStore.GetCurrentConversation | app/store/chat.ts:244-246 | read from the live state, as `useCurrentConversation` does (the corrected half of Findings row 2): a listed conversation with the current id, or none exactly when no listed conversation has it |
| Chat.ChatStore.GetCurrentMessages | app/store/chat.ts:40-43 | the selected conversation's messages, or none when nothing is selected |
| Chat.ChatStore.SetConversations | app/store/chat.ts:48-50 | only the conversations change |
| Chat.ChatStore.SetCurrentConversationId | app/store/chat.ts:51-53 | only the selection changes |
| Chat.ChatStore.SetIsLoading | app/store/chat.ts:54-56 | only the loading flag changes |
| Chat.ChatStore.CreateNewChat | app/store/chat.ts:57-70 | the database takes a conversation titled "New Chat"; when that does not throw, the page appends it, empty, and selects it, and otherwise the page is unchanged |
| Chat.ChatStore.OpenConversation | app/store/chat.ts:131-136 | the database takes the conversation; when that does not throw, the page appends it, empty, and selects it, and otherwise the page is unchanged |
| Chat.ChatStore.DeleteChat | app/store/chat.ts:71-78 | the database deletes the conversation; when that does not throw, the page's list becomes `DropConversation` of the old one, the selection is cleared exactly when it pointed at it, and nothing else changes; otherwise the page is unchanged |
| Chat.ChatStore.ClearAllChats | app/store/chat.ts:79-88 | one database delete per listed conversation, in order, stopping at the first that throws; when none throws, the page has no conversations and no selection |
| Chat.ChatStore.DeleteAll | app/store/chat.ts:80-82 | the loop performs exactly the deletes `DeleteEach` describes |
| Chat.ChatStore.DeleteNext | app/store/chat.ts:81 | one turn of the loop extends the deletes by the next id |
| Chat.ChatStore.UpdateChatTitle | app/store/chat.ts:89-97 | the database retitles; when that does not throw, the page does too, and otherwise the page is unchanged |
| Chat.ChatStore.LoadConversations | app/store/chat.ts:98-113 | succeeds exactly when the stored conversations can be read, and then shows them; otherwise it throws their error and the page is unchanged |
| Chat.ChatStore.SendMessage | app/store/chat.ts:114-236 | blank input or a send under way is ignored and changes nothing; otherwise the loading flag ends down and `SendEnded` holds: the database follows `SendEffect`, the outcome is the one `SendVerdict` decides from which writes threw (answered exactly when the user insert, the prompt lookup and the reply insert passed with a usable reply; apologised for with the cause of the first throw exactly when the apology insert then passed; rejected with that insert's error otherwise), and the page shows exactly what that outcome and those writes imply; an unusable reply ends apologised for or rejected |
| Chat.ChatStore.TrySend | app/store/chat.ts:119-137 | with a selection, the send goes to it through `Converse`; without one, `OpenFirst` runs; either way `SendEnded` holds: database, outcome and page follow `SendEffect`, `SendVerdict` and `PageAfterSend` |
| Chat.ChatStore.OpenFirst | app/store/chat.ts:122-136 | with nothing selected, a conversation titled by the first 30 characters of the text is created and selected when that did not throw, and the catch block runs otherwise; `SendEnded` holds for the whole send |
| Chat.ChatStore.Converse | app/store/chat.ts:139-160 | `ConverseEnded`: the database follows `ConverseEffect` and the outcome `ConverseVerdict`; the list is the old one with the user message when its insert passed, then the reply or the apology the outcome implies; an answered request is the transcript before the send plus the user message once, with the active prompt as system prompt; the selection stays |
| Chat.ChatStore.ShowAndAsk | app/store/chat.ts:153-181 | with the user message stored, the list becomes the list with the user message appended to the selected conversation and then the reply or the apology; the database follows `AskEffect` and the outcome `AskVerdict`; an answered request is the old transcript plus the user message once |
| Chat.ChatStore.Ask | app/store/chat.ts:162-181 | the database follows `AskEffect` and the outcome `AskVerdict` (a throw of `getPrompts` goes to the `catch` block with that error as cause); the list gains exactly the reply or the apology that outcome implies; an answered request is the transcript with the active prompt as system prompt |
| Chat.ChatStore.Respond | app/store/chat.ts:183-207 | the database follows `RespondEffect` and the outcome `RespondVerdict`: a thrown reply leads to the `catch` block with cause AiThrew, a missing or blank one with cause EmptyReply (each apologised for, with the request as sent, exactly when the apology insert passes, rejected with its error otherwise); a usable reply is answered exactly when its insert passes, and is then shown after the request's transcript |
| Chat.ChatStore.StoreReply | app/store/chat.ts:189-207 | the reply is stored; when that does not throw, the database is the one after the insert, the outcome is answered and the reply is shown after the transcript; when it throws, the `catch` block runs and the outcome follows `CatchVerdict` with the insert's error as cause |
| Chat.ChatStore.Recover | app/store/chat.ts:209-232 | the database follows `CatchEffect` and the outcome `CatchVerdict`: the apology is stored in the selected conversation and then appended to it exactly when that insert passes, otherwise the send is rejected with the insert's error; without a selection the insert names a null conversation and is rejected with the error the database gives for that |
| Chat.ChatStore.Apologize | app/store/chat.ts:215-229 | with a conversation selected, the database is the one after the apology insert; the outcome follows `CatchVerdict`: rejected with the insert's error exactly when it throws (page unchanged), otherwise apologised for with the given cause and the apology appended last |
| Chat.SelectedSendEnds | app/store/chat.ts:119-120 | with a selection, what the rest of the `try` block leaves (`ConverseEnded`) is what the whole send leaves (`SendEnded`) |
| Chat.OpenedSendEnds | app/store/chat.ts:122-139 | without a selection and with the new conversation stored, added and selected, the rest of the `try` block in it leaves what the whole send leaves |
| Chat.OpenFailedEnds | app/store/chat.ts:209-232 | without a selection, when storing the new conversation throws, the `catch` block's result is what the whole send leaves, with nothing selected |

## Left out

- The base-64 step (`btoa`, `atob`): the model keeps the byte/character loops, and the stored entry is a value: a snapshot, text that does not decode (`Corrupt`), or the empty string.
- The sql.js engine, its file format and `db.export()`: a snapshot is the table content it encodes.
- Loading the WebAssembly module (`initSqlJs`, `locateFile`): an external runtime.
- `useDB` and the React hooks (`useStore`, `useEffect`): rendering and component state.
- The AI call itself, the provider SDKs, the streaming response and `getModelInstance`: network I/O. The reply is a parameter (`AiReply`), and `Replied(None)` stands for a response without `text`.
- `Date.now()` and `unixepoch()` are parameters; whether two ids drawn from the clock coincide is left to the caller.
- Db.InitEngine: a stored entry that `atob` accepts but that is not a database file leaves a broken engine assigned in the source; the model instead fails `initDB` with the engine unset.
- `JSON.parse` and `JSON.stringify` are abstracted: the entry is classified as empty, unparsable or an encoded `Json` value.
- Settings.ValidateReasoning: a stored reasoning configuration with extra fields keeps them in the source; the model keeps only effort and summary.
- The tie order of `ORDER BY created_at` is unspecified by SQLite; the model returns one valid order (insertion order among ties), and the queries' contracts promise only the ordering and the content.
- Logging (`console`, Sentry spans, captures and attachments): no effect on data.
- Chat.ChatStore.SendMessage: it sends the corrected request (see Findings); the request as written is modelled separately.
- Chat.ChatStore.SendMessage: it models one send running alone from start to end. A second send stops at the loading flag, which is checked and raised before the first `await`, but other chat actions can run while `genAIResponse` is awaited (app/store/chat.ts:176): selecting another conversation, `deleteChat`, `createNewChat`, `clearAllChats` or `loadConversations`. They are not modelled. Because the `try` block writes to the conversation it started with while the `catch` block reads the live `currentConversationId` (line 217), in the source an apology after a switch lands in the other conversation, and a reply after a delete is stored under the removed id (accepted when foreign keys are not enforced); the model's `Recover` always uses the send's own conversation.
- The role of a message is a string, as stored; the source's cast to `'user' | 'assistant'` checks nothing.
- The selectors that return a field as is (`getPrompts`, `getConversations`, `getCurrentConversationId`) have no contract of their own.
- `app/utils/ai.ts` is not part of this model; the chat store's call to it is the `AiReply` parameter.
- Chat.ApologyNeverSent: it states what the filter of src/utils/ai.ts does. `genAIResponse` of app/utils/ai.ts, which the chat store calls, forwards every message, so earlier apologies do reach the model on that path.
- Js.Take: `slice` counts UTF-16 code units while the model's strings are sequences of code points, so a title cut inside a surrogate pair (an emoji among the first 30 units) differs; the model takes the first 30 code points.
- Db.Step: a `localStorage.setItem` that throws (quota exceeded, storage disabled) inside `saveToLocalStorage` is not modelled; the model's write of the snapshot always succeeds, whereas the source would throw from the repository call after its statements took effect.
- Db.ChatDb.SaveToLocalStorage: the same `setItem` failure is left out; the write always succeeds.
- Settings.SettingsStorage.SaveSettings: the source catches a throwing `setItem` and only logs it, leaving the old entry; the model's write always succeeds.

## Findings

| source | as written | input that shows it | evidently intended | confidence | as-written member | corrected member |
|---|---|---|---|---|---|---|
| app/store/chat.ts:174-181 | the request is the selected conversation's transcript, read after the user message was already appended, followed by the user message again | a first message "hi" in a new conversation sends `[hi, hi]` | the transcript ending with the user message once | not executed | Chat.UserMessageSentTwice | Chat.RequestEndsWithUserOnce |
| app/store/chat.ts:35-44 | `getCurrentConversation` and `getCurrentMessages` close over the `state` passed to the updater that installs them, the initial state | select a conversation holding one message: `getCurrentMessages()` returns `[]` | read the store's live state on each call | not executed | Chat.StaleGetterHidesMessages | Chat.CurrentMessagesFollowAppend |
| app/store/store.ts:192-194 | `clearSettings` resets the choices in the state, then calls the CommonJS `require` inside an ES module; in the browser bundle that is not defined, so the call throws before the settings entry is cleared | choose model "gpt-4o", clear the settings, reload the page: it starts on "gpt-4o" again | the entry is removed, so the next page starts from the defaults | not executed; depends on the bundler leaving `require` undefined in the browser | Store.ClearedChoicesComeBack | Store.AppStore.ClearSettings |
