# Gate-driven quoting engine, modelled in Dafny

This project models the core of the TheEasy.AI quoting backend. A conversation walks through numbered
*gates*. Each gate is a step of the quote, and each has its own prompt for the completion service. The
model covers:

- the gate catalog: `GateConfig`, the shipped table of 16 gates, `get_gate` and `get_active_gates`;
- the per-conversation `SessionState`: a cursor over a gate order, plus the collected product
  configuration. It is saved as a JSON blob;
- the orchestrator:
  - it resolves the gate to prompt and skips a placeholder;
  - it binds a gate's template variables;
  - it decides whether a reply completes the gate;
  - it merges a reply into the configuration;
  - it advances and saves;
- the display builder, which turns a gate reply into the display object every response carries: lettered
  options, message, warnings, status and gate;
- the legacy two-step quote service: prompt selection, reply parsing, metadata, and the
  chunk-then-done event stream;
- the two derived settings properties (`resolved_api_key`, `cors_origin_list`) and the set of attribute
  names the settings object answers to.

Layout (one module per source file):

| file | module | models |
|---|---|---|
| `wrappers.dfy` | `Wrappers` | `Option`, `Result` and the errors: the exceptions the core raises (`KeyError`, `AttributeError`), plus `MalformedState`, which exists only in the model, for a stored session blob the typed record cannot hold |
| `text.dfy` | `Text` | the `str` operations used: `strip`, `lstrip`/`rstrip`, `lower`, `split`, `join`, `str(int)` |
| `json.dfy` | `Json` | JSON/Python values, truthiness, `dict.get`, `str()` |
| `config.dfy` | `Config` | `AppSettings`, `resolved_api_key`, `cors_origin_list`, attribute lookup |
| `gate_models.dfy` | `GateModels` | `GateType`, `GateStatus`, `GateConfig` and its defaults |
| `gate_registry.dfy` | `GateRegistry` | `GATE_REGISTRY`, `DEFAULT_GATE_SEQUENCE`, `get_gate`, `get_active_gates` |
| `session_state.dfy` | `SessionStates` | `SessionState` (a class), `to_dict`/`from_dict`, `next_gate`, `advance` |
| `store.dfy` | `ConversationStore` | the session blob and the message rows the services read and write |
| `orchestrator.dfy` | `Orchestrator` | `GateOrchestrator` |
| `display_builder.dfy` | `DisplayBuilder` | `parse_options`, `_extract_message`, `_resolve_status`, `build_display`, `build_error_display` |
| `quote_service.dfy` | `QuoteService` | `_pick_prompt`, `_parse_response_text`, `handle_message`, `handle_message_stream` |

Modelling choices:

- Python `None` and JSON `null` are the same value, `Json.Null`.
- A dict is a `map<string, Value>`.
- The settings object and the gate table are parameters, not globals. `GateRegistry.Shipped(settings)` is
  the table the program ships.
- `json.loads`, the option regex's `findall`, and the completion service (plain and streaming) are
  function parameters.
- The database is the class `ConversationStore.Store`. It holds a session blob per conversation and the
  message rows in insertion order.

## Model

| member | source | states |
|---|---|---|
| GateModels.NewGateDefaults | src/app/gates/models.py:20-29 | a gate built from number, name and type alone has no prompt id or version, an empty template and tool list, and status PLACEHOLDER |
| GateModels.EnumerationValues | src/app/gates/models.py:10-17 | each enumeration has exactly its two members, with distinct string values |
| GateRegistry.Shipped | src/app/gates/registry.py:8-95 | the shipped table as data (no contract of its own); its properties are stated by `ShippedKeys`, `ShippedStatus`, `ShippedFirstGates` and `ShippedActiveList` |
| GateRegistry.Lookup | src/app/gates/registry.py:100-102 | the lookup fails exactly when no table entry has the key |
| GateRegistry.LookupFinds | src/app/gates/registry.py:100-102 | the lookup returns the gate stored under the first entry with the key |
| GateRegistry.GetGate | src/app/gates/registry.py:100-102 | `get_gate(n)` returns the stored gate, or raises `KeyError(n)` exactly when `n` is not a key |
| GateRegistry.ActiveGates | src/app/gates/registry.py:105-107 | every returned gate is ACTIVE and in the table, and every ACTIVE table entry is returned; the order is fixed by `ActiveGatesAppend` and `ActiveGatesSingle` |
| GateRegistry.ActiveGatesAppend | src/app/gates/registry.py:105-107 | the scan keeps table order: on `a + b` it is the ACTIVE gates of `a` followed by those of `b` |
| GateRegistry.ActiveGatesSingle | src/app/gates/registry.py:105-107 | a one-entry table lists its gate exactly when it is ACTIVE (with `ActiveGatesAppend`, this fixes the result for every table) |
| GateRegistry.ShippedKeys | src/app/gates/registry.py:8-95 | the shipped table has 16 entries, and each key equals the `number` of the gate stored under it |
| GateRegistry.ShippedStatus | src/app/gates/registry.py:8-95 | only the first two entries are ACTIVE; entries 3 to 16 carry no prompt id |
| GateRegistry.ShippedLookup | src/app/gates/registry.py:8-95 | a lookup in the shipped table succeeds exactly for 1..16 and finds that entry |
| GateRegistry.GetGateShipped | src/app/gates/registry.py:100-102 | `get_gate` on the shipped table succeeds exactly for 1..16, returns the gate numbered `n`, and raises `KeyError(n)` otherwise (for 0 and 17 among others) |
| GateRegistry.ShippedActiveGates | src/app/gates/registry.py:16-23 | a shipped gate is ACTIVE if and only if it is gate 1 or gate 2 |
| GateRegistry.ShippedPlaceholders | src/app/gates/registry.py:25-94 | gates 3 to 16 are PLACEHOLDER and have no prompt id |
| GateRegistry.ShippedFirstGates | src/app/gates/registry.py:9-24 | gate 1 binds `product_options` to `product_options` and carries the prompt version; gate 2 has an empty template |
| GateRegistry.NoActiveGates | src/app/gates/registry.py:105-107 | a table without ACTIVE entries yields no active gates |
| GateRegistry.ShippedActiveList | src/app/gates/registry.py:105-107 | `get_active_gates()` on the shipped table is gates 1 and 2, in table order |
| GateRegistry.ActivePrefix | src/app/gates/registry.py:105-107 | when the ACTIVE entries of a table are exactly its first `k`, `get_active_gates()` is those `k` gates in table order |
| GateRegistry.DefaultGateSequenceKeys | src/app/gates/registry.py:97 | `DEFAULT_GATE_SEQUENCE` is 1..16 ascending, and every element is a key of the table |
| SessionStates.DecodeEncodeInts | src/app/gates/session_state.py:23-37 | decoding an encoded gate order gives the order back |
| SessionStates.ToDict | src/app/gates/session_state.py:23-24 | the dict has exactly the six dataclass fields as keys, and the gate order is stored as a JSON list of integers |
| SessionStates.FromDict | src/app/gates/session_state.py:26-37 | a falsy blob gives the fresh session; a truthy blob that is not a dict is rejected; what a dict gives is stated by `FromDictDefaults`, `FromDictPresent` and `FromDictRejects` |
| SessionStates.FromDictToDict | src/app/gates/session_state.py:23-37 | `from_dict(to_dict(s))` is `s` |
| SessionStates.FromDictDefaults | src/app/gates/session_state.py:30-37 | in a non-empty dict, each of the six keys that is missing takes its default (1, the session's default order, `{}`, `[]`, `{}`, `[]`) |
| SessionStates.FromDictPresent | src/app/gates/session_state.py:30-37 | in a non-empty dict, each of the six keys that is present gives the session its value (the order decoded from its JSON list) |
| SessionStates.FromDictRejects | src/app/gates/session_state.py:30-37 | a non-empty dict is rejected exactly when its cursor is not a number, its order is not a list of integers, or its product configuration is not a dict |
| SessionStates.IndexOf | src/app/gates/session_state.py:42-45 | the result is the first position of the cursor, or none exactly when the cursor is absent (`ValueError`) |
| SessionStates.FirstActive | src/app/gates/session_state.py:46-49 | the result is the first position holding a registered ACTIVE gate, and none exactly when there is none |
| SessionStates.NextGateOf | src/app/gates/session_state.py:39-50 | a returned gate is in the order and is a registered ACTIVE gate; a cursor absent from the order gives None |
| SessionStates.NextGateSpec | src/app/gates/session_state.py:39-50 | `next_gate` scans after the first occurrence of the cursor and returns the first registered ACTIVE candidate; it returns None if and only if the cursor is absent or no such candidate follows |
| SessionStates.NextGateIsRegisteredAndActive | src/app/gates/session_state.py:46-49 | a returned next gate is a table key and ACTIVE, never a placeholder or an unregistered 17 |
| SessionStates.NextGateMovesForward | src/app/gates/session_state.py:42-49 | in an order without duplicates, the next gate sits strictly later in the order than the cursor |
| SessionStates.LastGate | src/app/gates/session_state.py:52-57 | in an order without duplicates, repeated advancing ends on a gate with no next gate |
| SessionStates.RepeatedGateCycles | src/app/gates/session_state.py:42-49 | with a repeated entry the cursor can cycle: in [1, 2, 1], gate 1 leads to 2 and gate 2 leads back to 1 |
| SessionStates.DefaultSessionSequenceDistinct | src/app/gates/session_state.py:15-17 | the session's default order has no duplicates |
| SessionStates.DefaultWalk | src/app/gates/session_state.py:14-17 | with the shipped table and the default order, gate 1 leads to 2, while gate 2 and gate 17 lead nowhere (17 is skipped as unregistered) |
| SessionStates.DefaultActivePositions | src/app/gates/session_state.py:14-17 | in the default order only the first two positions (gates 1 and 2) hold ACTIVE shipped gates; 17 is unregistered and 3..16 are placeholders |
| SessionStates.DefaultWalkFrom | src/app/gates/session_state.py:39-50 | in the default order with the shipped table, the next gate after 1 is 2, and after 2 or 17 there is none |
| SessionStates.SessionState.constructor | src/app/gates/session_state.py:14-21 | a fresh state has cursor 1, the order [1,2,17,3,...,16] and empty configuration, line items, subtotals and flags |
| SessionStates.SessionState.FromData | src/app/gates/session_state.py:30-37 | the fields are those given |
| SessionStates.SessionState.NextGate | src/app/gates/session_state.py:39-50 | the search loop returns what `NextGateOf` specifies (see `NextGateSpec`) |
| SessionStates.SessionState.Advance | src/app/gates/session_state.py:52-57 | returns the next gate and moves the cursor to it only when there is one; no other field changes |
| ConversationStore.StoredRow | src/app/services/conversation_service.py:92-93 | a row keeps role, content and metadata; a truthy reply is kept and a falsy one becomes NULL |
| ConversationStore.Store.SessionBlob | src/app/services/conversation_service.py:146-159 | the stored blob, or `{}` when there is no row or no blob |
| ConversationStore.Store.History | src/app/services/conversation_service.py:175-183 | one `{role, content}` entry per stored row, in order |
| ConversationStore.Store.UpdateSessionState | src/app/services/conversation_service.py:162-172 | the blob of an existing conversation is replaced; an unknown id changes nothing; no other conversation's blob changes |
| ConversationStore.Store.AddMessage | src/app/services/conversation_service.py:72-106 | appends one row with the reply kept only when truthy and metadata defaulting to `{}`; returns the message with the reply as given; the history grows by one `{role, content}` entry |
| Orchestrator.Bind | src/app/services/orchestrator.py:43-48 | a settings attribute named by the source key wins (as is); otherwise `str()` of the product-configuration entry; otherwise "" |
| Orchestrator.ResolvedVariables | src/app/services/orchestrator.py:38-49 | the keys are exactly the template's variable names, and each is bound by `Bind` |
| Orchestrator.ResolveVariables | src/app/services/orchestrator.py:38-49 | the loop's map equals `ResolvedVariables` for the gate's template and the session's configuration |
| Orchestrator.SettingsShadowSession | src/app/services/orchestrator.py:43-44 | when a settings attribute exists, the session's configuration does not affect the binding |
| Orchestrator.Gate1Variables | src/app/services/orchestrator.py:38-49 | for shipped gate 1 the variables are exactly `{product_options: settings.product_options}` |
| Orchestrator.UnsetKeyBindsNone | src/app/services/orchestrator.py:43-44 | a source key `api_key` binds the unset key's None, not "" |
| Orchestrator.ShouldAdvance | src/app/services/orchestrator.py:51-61 | false for None, empty or non-dict input; an error exactly when the status is not a string; true if and only if the lower-cased status is ok/complete/done, or `product_id` is truthy and `question` is falsy |
| Orchestrator.ShouldAdvanceMatchesDisplay | src/app/services/orchestrator.py:55-61 | a status the display shows as ok/complete/done makes the gate advance; advancing while the display shows needs_info means a product was chosen without a question |
| Orchestrator.Merge | src/app/services/orchestrator.py:63-68 | the keys are the old ones plus every reply key that is neither a control key nor None; those reply values overwrite, and all other entries are untouched |
| Orchestrator.MergeProperties | src/app/services/orchestrator.py:65-68 | control keys are never written; collecting the same reply twice equals collecting it once |
| Orchestrator.MergeStep | src/app/services/orchestrator.py:66-68 | visiting one more reply key extends the merge by that key exactly when it is collected |
| Orchestrator.CollectData | src/app/services/orchestrator.py:63-68 | the session's configuration becomes `Merge(old configuration, reply)`; no other field changes |
| Orchestrator.LoadSession | src/app/services/orchestrator.py:17-19 | a fresh session holding `from_dict` of the stored blob |
| Orchestrator.SaveSession | src/app/services/orchestrator.py:21-22 | the blob becomes `to_dict()` of the session, and loading it back gives the same session |
| Orchestrator.AdvanceGate | src/app/services/orchestrator.py:70-79 | collects only a non-empty dict reply, advances exactly once, returns the result of `advance`, and saves in every case |
| Orchestrator.ResolveGate | src/app/services/orchestrator.py:24-36 | KeyError for a cursor that is not a table key; an ACTIVE gate is returned with nothing saved; a placeholder advances at most once, and returns the new ACTIVE gate and saves only when the cursor moved, otherwise it returns the placeholder with nothing saved |
| DisplayBuilder.CleanCaption | src/app/services/display_builder.py:34 | the label is a prefix of the stripped text, with no leading whitespace and no trailing comma, and everything of the stripped text after it is commas |
| DisplayBuilder.CollapseRuns | src/app/services/display_builder.py:35 | the output has only `[a-z0-9_]` and no `__`, and does not start with `_` when it continues a run; what it holds is stated by the four lemmas below |
| DisplayBuilder.SlugChars | src/app/services/display_builder.py:35 | the `[a-z0-9]` characters of a text, in order (the reference the substitution is measured against) |
| DisplayBuilder.CollapseRunsKeepsSlugChars | src/app/services/display_builder.py:35 | the substitution keeps every `[a-z0-9]` character, in order, and adds none |
| DisplayBuilder.CollapseRunsAppend | src/app/services/display_builder.py:35 | the substitution works piece by piece: on `a + b` it is the result on `a` followed by the result on `b`, and a run spanning the boundary still gives one `_` |
| DisplayBuilder.CollapseRunOfOthers | src/app/services/display_builder.py:35 | a maximal run of characters outside `[a-z0-9]` becomes exactly one `_` (nothing more when it continues a run) |
| DisplayBuilder.CollapseRunsOfWord | src/app/services/display_builder.py:35 | text made of `[a-z0-9]` only is copied unchanged |
| DisplayBuilder.Slugify | src/app/services/display_builder.py:35 | every value has only `[a-z0-9_]`, no `__` and no `_` at either end, and holds exactly the `[a-z0-9]` characters of the lower-cased label, in order |
| DisplayBuilder.CollapseRunsOfSlug | src/app/services/display_builder.py:35 | collapsing text that already has the slug shape changes nothing |
| DisplayBuilder.SlugifyOfSlug | src/app/services/display_builder.py:35 | a slug is its own value |
| DisplayBuilder.SlugifyIdempotent | src/app/services/display_builder.py:35 | deriving the value twice is deriving it once |
| DisplayBuilder.SlugExample | src/app/services/display_builder.py:17-20 | "R-Blade" gets the value "r_blade" |
| DisplayBuilder.MakeChoice | src/app/services/display_builder.py:33-36 | an option's key is its letter, its label is the cleaned text, and its value is the label's slug |
| DisplayBuilder.ParseOptions | src/app/services/display_builder.py:16-37 | options are non-empty if and only if there are matches and the i-th letter is 'A'+i for every i; then there is one option per match, in order |
| DisplayBuilder.ParseOptionsShape | src/app/services/display_builder.py:27-37 | option keys run A, B, C... and every value has the slug shape |
| DisplayBuilder.WordChoice | src/app/services/display_builder.py:33-36 | an entry holding one capitalised word keeps it as the label and gets the lower-case word as the value |
| DisplayBuilder.ParseOptionsRejectsGap | src/app/services/display_builder.py:27-30 | letters A then C give no options |
| DisplayBuilder.ExtractMessage | src/app/services/display_builder.py:40-55 | None for anything but a non-empty dict; a string `question` that is not blank wins, stripped; otherwise a non-empty `questions` list gives its truthy items rendered and joined by newlines; otherwise None |
| DisplayBuilder.ResolveStatus | src/app/services/display_builder.py:146-153 | the result is ok, complete, done or needs_info; it is a completion status if and only if the input is a non-empty dict whose lower-cased `str(status)` is one, and then it is that string |
| DisplayBuilder.ResolveStatusStable | src/app/services/display_builder.py:146-153 | feeding a resolved status back as a reply status resolves to the same status |
| DisplayBuilder.MessageOr | src/app/services/display_builder.py:99-101 | a non-empty extracted message is the message; when there is none, or it is empty, the raw text is |
| DisplayBuilder.WarningsOf | src/app/services/display_builder.py:107-115 | there are warnings to take exactly when the reply is a dict whose `warnings` entry is a list |
| DisplayBuilder.DisplayWarnings | src/app/services/display_builder.py:105-115 | the rendered truthy items of the next gate reply's `warnings` list when it has one; otherwise those of the current reply's list; otherwise none |
| DisplayBuilder.NextMessage | src/app/services/display_builder.py:78-84 | a dict reply's message, a string reply itself, else the raw text |
| DisplayBuilder.NextGateDisplay | src/app/services/display_builder.py:74-87 | the next gate's number and name; its reply's message and options; status from a dict reply, or needs_info |
| DisplayBuilder.FetchFailedDisplay | src/app/services/display_builder.py:88-94 | "Moving to next step...", no options, status error, gate `n`, named "Gate n" |
| DisplayBuilder.CurrentGateDisplay | src/app/services/display_builder.py:95-103 | the current gate; the extracted message or the raw text; status from the reply, never error |
| DisplayBuilder.BuildDisplay | src/app/services/display_builder.py:58-125 | `error` is None; status is error if and only if the gate advanced, no next gate was fetched and the fetch failed; each of the three branches is taken under its condition; warnings come from the next gate's reply when it has a list, else from the current reply |
| DisplayBuilder.BuildErrorDisplay | src/app/services/display_builder.py:128-143 | status error, no options or warnings, and the error carries the code and the message |
| QuoteService.UserMessageCount | src/app/services/quote_service.py:21 | the count is at most the history length, and zero if and only if no entry has role `user` |
| QuoteService.UserMessageCountAppend | src/app/services/quote_service.py:21 | appending a message adds one to the count exactly when its role is `user` |
| QuoteService.PickPromptAsWritten | src/app/services/quote_service.py:13-28 | the selection fails exactly when the settings have no attribute of the name it reads |
| QuoteService.PickPromptAsWrittenFails | src/app/services/quote_service.py:24-28 | for every settings value and history, the selection raises AttributeError |
| QuoteService.PickPrompt | src/app/services/quote_service.py:13-28 | at most one user message gives the gate-1 prompt and the configured version; more give the gate-2 prompt with no variables and no version |
| QuoteService.PickPromptMatchesRegistry | src/app/services/quote_service.py:22-28 | the chosen prompt id and version are those of shipped gate 1 or 2, and the variables are what the orchestrator binds for that gate |
| QuoteService.ParseResponseText | src/app/services/quote_service.py:31-37 | the decoded stripped text, or None when it does not decode |
| QuoteService.ParseIgnoresSurroundingSpace | src/app/services/quote_service.py:33 | stripping the text first does not change the parse |
| QuoteService.BuildMetadata | src/app/services/quote_service.py:62-64 | `prompt_id` is always present; `parsed_status` is present if and only if the reply is a non-empty dict, and then it is that reply's `status` (or None); no other key |
| QuoteService.AssistantMessage | src/app/services/quote_service.py:61-73 | the assistant message holds the text, its parse and the metadata of prompt and parse |
| QuoteService.StoreReply | src/app/services/quote_service.py:61-73 | returns the assistant message and appends its row to the conversation |
| QuoteService.StoreUserMessage | src/app/services/quote_service.py:46-49 | appends the user row, with no reply and metadata `{}`, and returns the history ending with it |
| QuoteService.UserRow | src/app/services/quote_service.py:46 | the user row has role `user`, the message as content and no reply |
| QuoteService.HandleMessage | src/app/services/quote_service.py:40-75 | with the corrected prompt selection: stores the user message, picks the prompt from the history that includes it, and stores and returns the assistant message for the unstripped reply; exactly two rows are appended |
| QuoteService.HandleMessageAsWritten | src/app/services/quote_service.py:40-75 | as written: the user message is stored, then the prompt selection raises; the handler ends with that error and only the user row is appended (a selection that succeeds behaves as `HandleMessage`) |
| QuoteService.ChunkEvents | src/app/services/quote_service.py:98-99 | one chunk event per delta, in arrival order |
| QuoteService.RelayDeltas | src/app/services/quote_service.py:90-99 | the collected chunks are the deltas, and the events are their chunk events |
| QuoteService.RelayAndStore | src/app/services/quote_service.py:90-116 | the chunk events, then one done event carrying the stored message for the stripped concatenation |
| QuoteService.HandleMessageStream | src/app/services/quote_service.py:78-116 | with the corrected prompt selection: one chunk per delta in order, then exactly one done event; the stored content is the stripped concatenation of the deltas; exactly two rows are appended |
| QuoteService.HandleMessageStreamAsWritten | src/app/services/quote_service.py:78-116 | as written: the user message is stored, then the prompt selection raises before any event; no event is produced and only the user row is appended (a selection that succeeds behaves as `HandleMessageStream`) |
| QuoteService.StreamedContent | src/app/services/quote_service.py:101-102 | the streamed content has no surrounding whitespace, and parsing it is parsing the raw concatenation |
| Config.ResolvedApiKey | src/app/config.py:172-175 | `api_key` when it is set and non-empty; else `openai_api_key` when that is set and non-empty; "" exactly when neither is set |
| Config.DropEmpty | src/app/config.py:179 | the `if o.strip()` filter: no more elements than the input, each non-empty and taken from the input |
| Config.DropEmptyAppend | src/app/config.py:179 | the filter works piece by piece, keeping order: on `a + b` it is the result on `a` followed by the result on `b` |
| Config.DropEmptyAllKept | src/app/config.py:179 | when no string is empty, all are kept, in order |
| Config.DropEmptyAllBlank | src/app/config.py:179 | when every string is empty, none is kept |
| Config.StripAll | src/app/config.py:179 | one stripped piece per input piece, in order |
| Config.NonEmptyStripped | src/app/config.py:179 | no more elements than pieces, each non-empty and without surrounding whitespace; the exact result is stated by `NonEmptyStrippedAllKept`, `NonEmptyStrippedAllBlank` and `DropEmptyAppend` |
| Config.NonEmptyStrippedAllKept | src/app/config.py:179 | when no piece is blank, the result is every piece stripped, in order |
| Config.NonEmptyStrippedAllBlank | src/app/config.py:179 | when every piece is empty or whitespace only, the result is empty |
| Config.CorsOriginList | src/app/config.py:177-179 | no more origins than comma-separated pieces, each non-empty and without surrounding whitespace |
| Config.NonEmptyStrippedKeeps | src/app/config.py:179 | pieces that are already non-empty and stripped are kept, in order |
| Config.CorsOriginListStripsPieces | src/app/config.py:177-179 | non-blank origins written comma-separated, padded with whitespace or not, are read back stripped and in order |
| Config.OriginListRoundTrip | src/app/config.py:177-179 | for any settings whose `cors_origins` is clean origins joined by commas, the list is those origins, unchanged and in order |
| Config.DefaultCorsOriginList | src/app/config.py:177-179 | settings that keep the default `cors_origins` allow exactly ["http://localhost:3000", "http://localhost:3001"] |
| Config.Attribute | src/app/config.py:17-181 | `hasattr(settings, name)` holds exactly for the declared field names, the two properties and `model_config` |
| Config.SettingsAttributes | src/app/config.py:17-181 | the declared fields and properties are attributes; `openai_prompt_id_step1`/`step2` are only aliases and are not |
| Text.QuoteFor | src/app/services/display_builder.py:53 | `repr` quotes a string with `"` exactly when it holds `'` and no `"`, and with `'` otherwise |
| Text.Escape | src/app/services/display_builder.py:53 | the escaped body is at least as long as the string and holds no raw tab, newline, carriage return or other control character |
| Text.StrRepr | src/app/services/display_builder.py:53 | definition of `repr(s)` (its contract only names its parts: the quote `QuoteFor(s)` at both ends around `Escape(s, ..)`); what it means is stated by `QuoteFor`, `Escape`, `UnescapeEscape`, `StrReprRoundTrip`, `StrReprDoubleQuoted`, `StrReprApostrophe` and `StrReprNewline` |
| Text.UnescapeEscape | src/app/services/display_builder.py:53 | the escapes lose nothing: reading them back gives the string |
| Text.StrReprRoundTrip | src/app/services/display_builder.py:53 | the text between the quotes of `repr(s)` reads back as `s` |
| Text.EscapePlain | src/app/services/display_builder.py:53 | text with no quote, backslash or control character is left as it is |
| Text.StrReprDoubleQuoted | src/app/services/display_builder.py:53 | a string holding `'` but no `"`, backslash or control character is its own text between double quotes |
| Text.StrReprApostrophe | src/app/services/display_builder.py:53 | `repr("it's")` is `"it's"` |
| Text.StrReprNewline | src/app/services/display_builder.py:53 | `repr("a\nb")` writes the newline as the two characters `\n` |
| Text.TrimStart | src/app/services/display_builder.py:35 | `lstrip(chars)`: the result is a suffix that starts with a kept character, and everything removed was droppable |
| Text.TrimEnd | src/app/services/display_builder.py:34 | `rstrip(chars)`: the result is a prefix that ends with a kept character, and everything removed was droppable |
| Text.Strip | src/app/config.py:179 | the result is the input with only its leading and trailing whitespace removed: a slice of the input, preceded and followed in it only by whitespace, and itself free of surrounding whitespace; the input itself when that has none |
| Text.TrimmedSliceUnique | src/app/config.py:179 | a string has only one stripped slice with nothing but whitespace before and after it |
| Text.StripUnique | src/app/config.py:179 | `Strip`'s contract fixes its result: every stripped slice with only whitespace around it is `s.strip()` |
| Text.StripLeadingSpace | src/app/config.py:179 | `" a".strip()` is `"a"`: leading whitespace goes and the rest is kept |
| Text.StripProperties | src/app/config.py:179 | stripped text has no surrounding whitespace, and stripping again changes nothing |
| Text.Lower | src/app/services/display_builder.py:35 | each character is lower-cased, and the length is kept |
| Text.Split | src/app/config.py:179 | `split(sep)` gives at least one piece, and no piece holds the separator |
| Text.JoinSplit | src/app/config.py:179 | joining the pieces of a split with the same separator gives the text back |
| Text.SplitJoin | src/app/config.py:179 | splitting pieces joined by a separator none of them holds gives the pieces back |
| Json.Truthy | src/app/services/display_builder.py:42 | Python truthiness as a definition (no contract of its own): None, False, 0 and empty strings, lists and dicts are falsy |
| Json.Render | src/app/services/display_builder.py:53 | `str()` as a definition (no contract of its own): a string is itself, None is "None", booleans are "True"/"False", a list shows its items' `repr` |
| Json.RenderSingleton | src/app/services/display_builder.py:53 | a one-item list is that item's `repr` between brackets, so `str(["it's"])` is `["it's"]` |
| Json.RenderTruthy | src/app/services/display_builder.py:53 | `[str(x) for x in items if x]` has at most as many elements as the input; when every item is truthy it is every item rendered, in order; when none is, it is empty |
| Json.RenderTruthyAppend | src/app/services/display_builder.py:53 | the filter works piece by piece, keeping order: on `a + b` it is the result on `a` followed by the result on `b` |

## Left out

- I/O:
  - SQL, UUIDs and timestamps are not modelled.
  - The store keeps rows in insertion order, which the source gets by ordering on `created_at`.
  - The FastAPI routers, authentication and the server-sent-event transport are not modelled.
- The completion service is a function parameter. Its threads, queue and network access are not modelled.
  - A failure in the middle of a stream is covered. The producer thread's `finally` still queues the end
    marker (src/app/services/openai_service.py:108-113), so the stream simply stops early. The handler then
    stores the stripped partial text, possibly "", and yields `done`. The delta list given to
    `HandleMessageStream` can be any sequence, including a cut-off one.
  - A failure of the non-streaming call is not modelled. `call_prompt` raises after the user row is stored
    (src/app/services/openai_service.py:55-70), so only that one row remains and the router answers 502.
    `HandleMessage` takes a total `complete` function, which cannot fail.
- `json.loads` is a function parameter. `json.dumps` is not modelled: the store holds decoded values.
- The option regex (`_OPTION_RE.findall`) is a function parameter. It yields (letter, text) pairs. Its
  lazy matching and lookahead are not modelled.
- Floating point is not modelled. JSON numbers are integers, and `subtotals_by_gate`, `line_items` and
  `flags` are carried through unchanged.
- Dict key order is not modelled. A dict is a map, so `str()` of a non-empty dict is rendered as `{...}`
  rather than its Python text.
- Text.StrRepr: the quote choice and the escapes of `\`, the quote, tab, newline, carriage return, the ASCII
  controls, DEL and the non-printable Latin-1 characters follow Python's `repr`. Non-printable characters
  above U+00FF, which Python writes as `\uXXXX` or `\UXXXXXXXX`, are kept as they are.
- Text.Lower: only ASCII letters are lower-cased. Python's `str.lower` also maps other scripts.
- SessionStates.FromDict: a blob whose `current_gate`, `gate_sequence` or `product_config` has a JSON
  type the record cannot hold is rejected, and `Orchestrator.LoadSession` reports that as `MalformedState`.
  Python accepts such blobs unchecked:
  - some fail later, e.g. a `product_config` that is not a dict fails in `collect_data` or in `.get`;
  - some work: `next_gate` skips a `"x"` in the order through `GATE_REGISTRY.get`, and `current_gate: true`
    equals 1 and hashes like it, so it finds gate 1.

  A truthy blob that is not a dict at all (a list, a string, a number) is also rejected as `MalformedState`,
  where Python raises `AttributeError` at `data.get` (src/app/gates/session_state.py:29-36).

  Blobs the program writes itself (`to_dict`) are always well typed, and `FromDictToDict` covers them.
- Config.Attribute:
  - `hasattr(settings, name)` also answers for pydantic's own methods and attributes (`model_dump`,
    `dict`, ...). The model knows only the declared fields, the two properties and `model_config`.
  - Loading the settings from the environment is not modelled. The settings value is a parameter.
- DisplayBuilder.CollapseRuns: its own contract states only the alphabet and the absence of `__`. Which
  characters it keeps, and that each run becomes one `_`, is stated by `CollapseRunsKeepsSlugChars`,
  `CollapseRunsAppend`, `CollapseRunOfOthers` and `CollapseRunsOfWord`. Those facts are kept apart from the
  recursive definition so that every proof about it stays small.
- QuoteService.HandleMessage, QuoteService.HandleMessageStream: both use the corrected prompt selection
  `PickPrompt`, so they describe the handlers as evidently intended. The handlers as written, which end with
  the selection's `AttributeError`, are `HandleMessageAsWritten` and `HandleMessageStreamAsWritten`.
- Orchestrator.ShouldAdvance: a status that is not a string has no `lower()`. This is modelled as an
  `AttributeError` result, not a raised exception.
- Concurrent access to the same conversation is not modelled: last-writer-wins races on the blob.
- The object identity of `product_config` is not modelled. `from_dict` shares it with the decoded blob,
  so `collect_data` updates that dict in place, not a copy.
- No file of the core implements chain-advance, `result_single` hoisting, `gate_<n>_response` recording
  or composite context building, so they are not modelled. `BuildDisplay` only reads `advanced_to_gate`,
  `next_gate` and `next_gate_error` as inputs.
- DisplayBuilder.BuildDisplay: its `next_gate` input is a typed record (`NextGateReply`), so two inputs
  the source can receive cannot be expressed:
  - an empty dict `{}`, which Python treats as falsy, so it takes the other branches;
  - a non-empty dict without `gate_number` or `gate_name`, which raises `KeyError` at
    src/app/services/display_builder.py:76-77.

## Findings

| source | as written | input that shows it | evidently intended | confidence | as-written member | corrected member |
|---|---|---|---|---|---|---|
| src/app/services/quote_service.py:24-28 | `_pick_prompt` reads `settings.openai_prompt_id_step1` and `settings.openai_prompt_id_step2`. Those names are only environment aliases of `openai_prompt_id_gate1`/`gate2` (src/app/config.py:23-41), not attributes, so every call raises AttributeError. This happens after the user message has been stored, and the router answers 502. | any history, e.g. `[{"role": "user", "content": "hi"}]` with the default settings | read `openai_prompt_id_gate1` for the first step and `openai_prompt_id_gate2` for the second; the aliases populate those fields | high (not executed) | QuoteService.PickPromptAsWritten, QuoteService.PickPromptAsWrittenFails, QuoteService.HandleMessageAsWritten, QuoteService.HandleMessageStreamAsWritten | QuoteService.PickPrompt, QuoteService.PickPromptMatchesRegistry, QuoteService.HandleMessage, QuoteService.HandleMessageStream |
