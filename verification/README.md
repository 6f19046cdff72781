# Byok chat client: a verified model of its core

Byok ("bring your own key") is a desktop chat client built with Tauri. The user stores API keys for
several LLM providers and chats with their models. Each answer is split into text and code blocks,
rendered to HTML and kept in a local SQLite database. New chats get a title from the model.

This project models the parts of the Rust back end whose behaviour can be stated exactly:

- **Message rendering** (`src-tauri/src/utils.rs`), modules `Render` and `Markdown`.
  - Fenced code blocks are found by an explicit scanner: leftmost, non-overlapping, lazy.
  - The language tag of a fence is detected, and text between fences is trimmed.
  - Text is turned into HTML by a chain of passes: tag escaping, inline code spans, pipe tables, headers,
    line breaks and bold.
  - Each pass is a function. Its round trip or invariant is proved as a lemma.
  - The passes that loop in the source (headers, tables, the block loop) are methods. Each is proved equal
    to its specifying function.
- **The chat turn** (`providers.rs::get_message`), module `Turn`.
  - The turn is a method over the chats, messages and providers tables.
  - It is proved equal, step by step, to a pure function `Turn`. The ordering and failure properties are
    lemmas about that function.
  - The network answers, the title answer and the clock are inputs of the turn (`TurnEnv`). So are the
    fate of every SQL statement and the ids.
  - The turn's observable events become an effect trace.
- **The store** (`db/*.rs`), modules `ModelsDb`, `ChatsDb`, `MessagesDb`, `ProvidersDb` and `Init`.
  - Each table is a class holding a sequence of rows.
  - Each SQL statement is one atomic step. Its failure is an `Option<string>` input carrying the
    database's error text.
- **Small pure pieces**, modules `Errors`, `Types` and `LlmProviders`.
  - The error `Display` formats and `From` conversions.
  - The `MessageBlock` display.
  - Provider construction by name, and its delegation of `send_message`.
  - Anthropic's history flattening and its error classification.

`Wrappers` (Option, Result) and `Strings` (trimming, lines, split/join, ASCII case mapping) are shared
helpers.

Behaviour taken from the code where it differs from its comments or from the intended design:

- `Provider::new` (`llm_providers/enums.rs:19-25`) knows only `"openai"` and `"anthropic"`; every other name
  reaches a `panic!`.
  - The comments at `db/init.rs:35,44` claim that the aliases `"mistral"` and `"groq"` are accepted. The code
    has no such aliases.
  - `validate_api_key` treats the constructor's outcome as a `Result` (`db/providers_db.rs:63`). The model
    therefore gives `NewProvider` an `Err("Unsupported provider: <name>")` outcome.
  - As a consequence, no key for `mistralai` or `groqcloud` ever validates (`ProvidersDb.MistralAndGroqNeverValidate`).
    No key for `google` validates either, because `google` has no default model (`ProvidersDb.GoogleNeverValidates`).
- `get_message` answers the provider `"local"` with `"Provider local not implemented"` (`providers.rs:178-180`).
  It looks up no key for it (`providers.rs:74`).
- The OpenAI and Claude clients in the answer step are built with their library's default model
  (`providers.rs:125-147`). The requested model name is not sent with them (`Turn.Request.model` is `None`).

## Model

| member | source | states |
|---|---|---|
| Render.RenderMessage | src-tauri/src/utils.rs:10-76 | the blocks built by the fence loop are exactly `RenderedBlocks`, which is the message's pieces (text between fences, fence captures) mapped in order to text and code blocks |
| Render.RenderFence | src-tauri/src/utils.rs:15-60 | one iteration of the fence loop: an optional text block for what precedes the fence, then its code block; resumes right after the closing fence |
| Render.RenderTail | src-tauri/src/utils.rs:63-74 | after the last fence, the remaining text (if any) becomes one text block, completing the whole piece list |
| Render.PushTextBlock | src-tauri/src/utils.rs:21-32 | a text block carries the trimmed segment as raw content, its `process_text` rendering, type "text" and no language |
| Render.PushCodeBlock | src-tauri/src/utils.rs:35-56 | a code block carries the detected language and code; its rendering is the highlighter's output or the raw code when highlighting fails |
| Render.FindBackticks | src-tauri/src/utils.rs:12 | the result is the leftmost occurrence of three backticks at or after the start index; there is none before it |
| Render.LetterRunEnd | src-tauri/src/utils.rs:12 | the `[a-zA-Z]*` run after an opening fence is maximal: all letters, followed by a non-letter or the end |
| Render.FenceAt | src-tauri/src/utils.rs:12 | a fence found at a position starts there and has the tag/body/closing bounds of the lazy pattern |
| Render.FenceAtSound | src-tauri/src/utils.rs:12 | a fence found at a position matches the pattern: opening backticks, letter tag, newline, a body without three backticks, closing backticks |
| Render.TagIsLetterRun | src-tauri/src/utils.rs:12 | a fence's tag is exactly the maximal letter run after the opening backticks |
| Render.FenceAtFinds | src-tauri/src/utils.rs:12 | every fence starting at a position is found there (completeness of the scanner) |
| Render.FenceUnique | src-tauri/src/utils.rs:12 | the lazy pattern has at most one match starting at a given position |
| Render.NextFence | src-tauri/src/utils.rs:15 | the next fence starts at or after the index and lies within the message |
| Render.NextFenceSound | src-tauri/src/utils.rs:15 | the next fence found is a real match of the pattern |
| Render.NextFenceIsLeftmost | src-tauri/src/utils.rs:15 | the match found is leftmost: any fence at or after the index starts no earlier |
| Render.NextFenceAtMatch | src-tauri/src/utils.rs:15 | searching from a fence's own start finds that fence |
| Render.BackticksAtIsFence | src-tauri/src/utils.rs:12 | the backtick test at a position is equivalent to three backticks occurring there |
| Render.FenceLanguageAndCode | src-tauri/src/utils.rs:35-41 | language is the lower-cased tag, or "plain" with no tag; with a tag, the code is the body's lines joined by "\n"; without, the body less its leading newlines |
| Render.TaggedLanguageAndCode | src-tauri/src/utils.rs:35-41 | the same rule, stated for a capture written as tag, newline, body |
| Render.PiecesAtFence | src-tauri/src/utils.rs:21-59 | the piece list at a fence is the text before it (when non-empty), the capture, then the pieces after its closing backticks |
| Render.ToBlocks | src-tauri/src/utils.rs:15-74 | blocks correspond one-to-one and in order with the pieces |
| Render.RenderedBlocksWellFormed | src-tauri/src/utils.rs:22-31 | every rendered block is a trimmed text block with its HTML, or a code block with a language whose rendering is the highlight or the raw code |
| Render.TextBlockWellFormed | src-tauri/src/utils.rs:21-32 | a text block's raw content is trimmed and its rendering is `process_text` of it |
| Render.PiecesCover | src-tauri/src/utils.rs:15-74 | nothing is lost: the pieces, with fences put back, concatenate to the scanned suffix |
| Render.MessageIsItsPieces | src-tauri/src/utils.rs:15-74 | the pieces of a message, with fences put back, give back the message |
| Render.TextPiecesNonEmpty | src-tauri/src/utils.rs:21-63 | a text piece is produced only when characters lie between fences or after the last one |
| Render.FencePiecesNonEmpty | src-tauri/src/utils.rs:21 | the text before a fence is only emitted when non-empty |
| Render.NoFenceOneBlock | src-tauri/src/utils.rs:15-74 | a message with no fence renders to nothing when empty, otherwise to exactly one text block of the trimmed message |
| Render.NoBackticksNoFence | src-tauri/src/utils.rs:12 | a message without three consecutive backticks holds no fence |
| Render.SingleFence | src-tauri/src/utils.rs:35-56 | a message that is one tagged fence renders to exactly one code block with the lower-cased tag and the body as code |
| Render.SingleFencePieces | src-tauri/src/utils.rs:12-15 | a message that is one fence is one code piece, matched from index 0 |
| Render.CapitalizeFirstLetter | src-tauri/src/utils.rs:104-110 | same length; empty stays empty; otherwise only the first character is upper-cased |
| Render.CapitalizeIdempotent | src-tauri/src/utils.rs:104-110 | capitalising twice equals capitalising once |
| Markdown.EscapeRoundTrip | src-tauri/src/utils.rs:182-186 | escaping tags loses nothing: turning `&lt;`/`&gt;` back gives the input (for text without '&') |
| Markdown.EscapeTag | src-tauri/src/utils.rs:182-186 | a tag `<t>` (t non-empty, without `<` or `>`) is written as `&lt;t&gt;` and the pass continues after it |
| Markdown.EscapePlainPrefix | src-tauri/src/utils.rs:182-186 | text with no '<' before a tag is copied unchanged and the pass continues after it, so a tag anywhere in the text is escaped |
| Markdown.EscapeTagExample | src-tauri/src/utils.rs:182-186 | `a<b>` is written `a&lt;b&gt;` |
| Markdown.EscapeTagRestored | src-tauri/src/utils.rs:182-186 | one escaped `<[^<>]+>` tag restores to the tag |
| Markdown.EscapeWithoutTags | src-tauri/src/utils.rs:182-186 | text with no '<' is not changed by escaping |
| Markdown.TagClose | src-tauri/src/utils.rs:184 | a match of `<[^<>]+>` ends at a '>' with no '<' or '>' between the two brackets |
| Markdown.NextAngle | src-tauri/src/utils.rs:184 | the result is the first '<' or '>' at or after the index, and none lies before it |
| Markdown.BackticksRoundTrip | src-tauri/src/utils.rs:122-132 | replacing code spans loses nothing: turning each span back into backticks gives the input |
| Markdown.BackticksSpan | src-tauri/src/utils.rs:122-132 | `` `c` `` (c non-empty, without a backtick) becomes the code span around c and the pass continues after it |
| Markdown.BackticksPlainPrefix | src-tauri/src/utils.rs:122-132 | text with no backtick before a span is copied unchanged and the pass continues after it |
| Markdown.CodeSpanRestored | src-tauri/src/utils.rs:122-132 | one inline code span restores to its backticked text |
| Markdown.BoldRoundTrip | src-tauri/src/utils.rs:134-142 | replacing bold loses nothing: turning each bold span back into `**…**` gives the input |
| Markdown.BoldSpan | src-tauri/src/utils.rs:134-142 | `**x**` becomes the bold span around x and the pass continues after it, for any x without a line break in which every `*` is followed by another character (so `**a*b**` is bold too) |
| Markdown.BoldCloseAt | src-tauri/src/utils.rs:136 | the lazy body closes at the first `**` when no `**` and no line break start before it |
| Markdown.BoldPlainPrefix | src-tauri/src/utils.rs:134-142 | text with no `*` before a bold span is copied unchanged and the pass continues after it |
| Markdown.BoldSpanRestored | src-tauri/src/utils.rs:134-142 | one bold span restores to its `**…**` |
| Markdown.BoldClose | src-tauri/src/utils.rs:136 | the lazy `.*?` closes at the first "**" and never crosses a newline |
| Markdown.ReplaceBold | src-tauri/src/utils.rs:134-142 | the bold pass adds no line break |
| Markdown.BoldStopsAtNewline | src-tauri/src/utils.rs:136 | a newline between two "**" prevents the bold match |
| Markdown.BoldOpenBeforeNewline | src-tauri/src/utils.rs:136 | no closing "**" is found past a newline |
| Markdown.BoldLoneStar | src-tauri/src/utils.rs:136 | a lone '*' opens no bold span |
| Markdown.BoldNoCloseBeforeNewline | src-tauri/src/utils.rs:136 | with no '*' before the first newline, no closing is found |
| Markdown.BoldFreeOfStars | src-tauri/src/utils.rs:134-142 | star-free text is copied unchanged by the bold pass |
| Markdown.ReplaceLinebreaks | src-tauri/src/utils.rs:144-146 | the output contains no "\n" |
| Markdown.LinebreaksAppend | src-tauri/src/utils.rs:144-146 | the pass works piecewise: it distributes over concatenation |
| Markdown.LinebreaksIdentity | src-tauri/src/utils.rs:144-146 | text without a newline is unchanged |
| Markdown.HeaderLevel | src-tauri/src/utils.rs:156-162 | the level is the length of the maximal run of leading '#' |
| Markdown.CountHashes | src-tauri/src/utils.rs:156-162 | the counting loop returns exactly the header level |
| Markdown.ReplaceMarkdownHeaders | src-tauri/src/utils.rs:148-180 | the result is every line rewritten in order: headers get their level's class, other lines a plain span, each followed by "\n" |
| Markdown.HeaderLevelIs | src-tauri/src/utils.rs:156-162 | a run of '#' ending at a non-'#' is the header level |
| Markdown.HeaderLineOf | src-tauri/src/utils.rs:163-175 | an indented `#…# content` line becomes a span with its level's class around the content |
| Markdown.HashesThenContent | src-tauri/src/utils.rs:156-165 | after k '#' and a space, the level is k and the content is what follows, trimmed |
| Markdown.HeaderLinesSnoc | src-tauri/src/utils.rs:150-178 | the result grows by one rewritten line per loop iteration |
| Markdown.IsTableSeparator | src-tauri/src/utils.rs:230-245 | holds iff the trimmed line starts or ends with '|', contains '-', and has only '|', '-', ':' or whitespace |
| Markdown.AllSeparatorChars | src-tauri/src/utils.rs:238-243 | the character loop accepts exactly the lines made of separator characters |
| Markdown.TrimOnlyWhitespace | src-tauri/src/utils.rs:231 | trimming changes neither the presence of '-' nor the character test |
| Markdown.RowCells | src-tauri/src/utils.rs:256 | a row always has at least one cell |
| Markdown.AppendCells | src-tauri/src/utils.rs:258-272 | the cell loops append each cell in order, wrapped in its th/td tags |
| Markdown.AppendRow | src-tauri/src/utils.rs:254-273 | a row other than the separator appends its header or body row |
| Markdown.RenderMarkdownTable | src-tauri/src/utils.rs:247-277 | the table HTML is the header row, the body rows in order, the separator row skipped, inside the table tags |
| Markdown.SeparatorRowIgnored | src-tauri/src/utils.rs:252 | the contents of the second row never affect the table |
| Markdown.RowsSnoc | src-tauri/src/utils.rs:254-273 | the rows' HTML grows by one row per iteration |
| Markdown.TableEnd | src-tauri/src/utils.rs:204-207 | a table extends over the maximal run of lines containing '|' |
| Markdown.CollectTable | src-tauri/src/utils.rs:201-208 | the collected lines are exactly that maximal run |
| Markdown.ReplaceMarkdownTables | src-tauri/src/utils.rs:188-228 | the loop computes `TablesText`: tables rendered in place, other lines copied, trailing newline as in the input |
| Markdown.TablesFromTable | src-tauri/src/utils.rs:195-212 | a table start renders the whole table, then the scan resumes after it |
| Markdown.TablesFromLine | src-tauri/src/utils.rs:216-219 | a line that starts no table is copied with its newline |
| Markdown.TablesWithoutPipes | src-tauri/src/utils.rs:188-228 | text without '\|' (and without '\r') comes out of the table pass unchanged |
| Markdown.DropAddedNewline | src-tauri/src/utils.rs:223-225 | dropping the final newline added to a text without one gives back the text |
| Markdown.ProcessTextIsOneLine | src-tauri/src/utils.rs:112-120 | the rendered text of a text block contains no newline |
| Turn.GetMessage | src-tauri/src/providers.rs:42-321 | the turn's outcome, final tables and effect trace are exactly those of the specification function `Turn` |
| Turn.StoreMessage | src-tauri/src/providers.rs:46-49 | storing a message appends its row (when the insert succeeds) and its rendered blocks, leaving chats as they are |
| Turn.EnsureChat | src-tauri/src/providers.rs:54-72 | a chat without a display name gets a placeholder chat; one with a name, or a failed lookup, is left as is |
| Turn.BuildMemory | src-tauri/src/providers.rs:91-103 | user/assistant messages convert in order to human/ai; otherwise the first bad role gives "Invalid message type: <role>" |
| Turn.Respond | src-tauri/src/providers.rs:83-189 | history, answer dispatch, answer storage and the answer event as in `Answering` |
| Turn.Conclude | src-tauri/src/providers.rs:183-320 | storing the answer, the title step and the return as in `Concluded` |
| Turn.Finish | src-tauri/src/providers.rs:191-320 | the title/rename/touch step as in `Finished` |
| Turn.WithMessage | src-tauri/src/providers.rs:46-49 | the chats are kept and the messages grow by exactly the new row when the insert succeeds |
| Turn.FirstInvalid | src-tauri/src/providers.rs:94-100 | the first message whose role is neither user nor assistant; every earlier one converts |
| Turn.MemoryOf | src-tauri/src/providers.rs:93-103 | the memory corresponds one-to-one and in order with the history |
| Turn.FirstInvalidIs | src-tauri/src/providers.rs:94-100 | the first failing conversion is the one at the given index |
| Turn.WellRoledHistoryConverts | src-tauri/src/providers.rs:93-103 | a store of user and assistant rows always converts completely |
| Turn.WithMessageKeepsRoles | src-tauri/src/providers.rs:47-185 | storing a user or assistant message keeps the store well-roled |
| Turn.TurnKeepsRoles | src-tauri/src/providers.rs:42-321 | a turn never stores a message of another role, so the next turn cannot hit the panic |
| Turn.UserMessageFirst | src-tauri/src/providers.rs:46-52 | the first effect of every turn is writing the user message, and the final messages start with the old ones plus the user row |
| Turn.AnsweringExtends | src-tauri/src/providers.rs:83-189 | the answer phase only appends to the trace and the messages |
| Turn.KeyFailureStopsTurn | src-tauri/src/providers.rs:74-80 | a failed key lookup returns that error; the user message is stored, no assistant message is stored and nothing is sent |
| Turn.OpeningSendsNothing | src-tauri/src/providers.rs:46-72 | nothing is sent and no key is read before the key lookup |
| Turn.LocalNeedsNoKey | src-tauri/src/providers.rs:74 | for "local" the turn does not depend on the key store and reads no key |
| Turn.AnsweringReadsNoKey | src-tauri/src/providers.rs:83-189 | the answer phase reads no key |
| Turn.ConcludedReadsNoKey | src-tauri/src/providers.rs:183-320 | the closing phase reads no key |
| Turn.PlaceholderForNewChat | src-tauri/src/providers.rs:54-68 | a chat with no name is inserted as `unnamed_new_chat_<id>`; an existing name is untouched |
| Turn.PlaceholderHasPrefix | src-tauri/src/providers.rs:59 | the placeholder starts with the placeholder prefix |
| Turn.ClaudeFailureIff | src-tauri/src/providers.rs:135-146 | the anthropic failure text is the authentication message iff the error mentions "authentication" (any case), else "An error occurred: <e>" |
| Turn.OnlyOpenAIPanics | src-tauri/src/providers.rs:124-177 | the turn panics iff openai fails; anthropic errors are classified; mistral/groq errors become the answer; successes are the reply |
| Turn.UnimplementedProviderAnswer | src-tauri/src/providers.rs:178-184 | an unknown provider's answer is "Provider <name> not implemented", and it is still stored as the assistant message |
| Turn.LocalIsNotImplemented | src-tauri/src/providers.rs:124-180 | "local" reaches the not-implemented branch |
| Turn.TitleIffPlaceholder | src-tauri/src/providers.rs:191-216 | the title request is sent iff the re-fetched name has the placeholder prefix and the provider has a title branch |
| Turn.TouchIffNamed | src-tauri/src/providers.rs:191-310 | last_updated is written iff the re-fetched name lacks the placeholder prefix |
| Turn.TitleSentForPlaceholder | src-tauri/src/providers.rs:191-216 | for a chat with the placeholder prefix, the title request is sent iff the provider has a title branch |
| Turn.RenameNeedsPlaceholder | src-tauri/src/providers.rs:191-296 | a chat without the placeholder prefix is neither sent a title request nor renamed |
| Turn.TitleFailureKeepsPlaceholder | src-tauri/src/providers.rs:224-296 | a failed title call returns the title-error text, keeps the chats unchanged and renames nothing |
| Turn.TitleSuccessRenames | src-tauri/src/providers.rs:287-320 | a successful title call renames the chat to the title and the turn returns the answer |
| Turn.NamedChatIsTouched | src-tauri/src/providers.rs:301-320 | a chat already named returns the answer, and only its last_updated changes |
| Turn.TitlePromptQuotes | src-tauri/src/providers.rs:203-208 | the title prompt quotes the user message and the answer verbatim |
| Turn.AnsweringConcludes | src-tauri/src/providers.rs:83-189 | with a readable history and no panic (any provider but openai, or openai with a successful answer), the answer phase sends exactly the answer request and continues into the closing phase |
| Turn.ConcludedSendsTitle | src-tauri/src/providers.rs:191-216 | a placeholder chat sends the title request |
| Turn.FirstTurnNamesNewChat | src-tauri/src/providers.rs:54-216 | the first turn of a new chat with a key sends a title request, for each of openai (when its answer succeeds), anthropic, mistralai and groqcloud |
| ModelsDb.ModelsTable.InsertModel | src-tauri/src/db/models.rs:10-33 | always Ok; a taken key changes nothing, otherwise the row is appended (when the INSERT succeeds); keys stay unique |
| ModelsDb.ModelsTable.AddModel | src-tauri/src/db/models.rs:70-102 | a check failure or a taken key (duplicate message) leaves the table unchanged; otherwise the row is appended or the insert error returned; keys stay unique |
| ModelsDb.ModelsTable.UpdateModel | src-tauri/src/db/models.rs:107-150 | the duplicate check runs only when the key changes; a matched row gets all six fields; "Model not found" when no row matched; keys stay unique |
| ModelsDb.ModelsTable.DeleteModel | src-tauri/src/db/models.rs:155-171 | the rows with the key are removed, others kept; "Model not found" when none matched; keys stay unique |
| ModelsDb.ModelsTable.GetModels | src-tauri/src/db/models.rs:38-49 | the stored models whose provider has a non-empty key or is 'local', in table order (`Visible`), each as many times as it is stored; the fetch error otherwise |
| ModelsDb.ModelsTable.GetAllModels | src-tauri/src/db/models.rs:54-65 | all models |
| ModelsDb.RowsAffected | src-tauri/src/db/models.rs:139-160 | zero rows are affected iff no row has the key |
| ModelsDb.Updated | src-tauri/src/db/models.rs:125 | the rows with the original key get the new model, others unchanged |
| ModelsDb.Deleted | src-tauri/src/db/models.rs:157 | exactly the rows without the key remain |
| ModelsDb.Visible | src-tauri/src/db/models.rs:40 | the visible models are those of a keyed provider or of 'local' |
| ModelsDb.InsertedProperties | src-tauri/src/db/models.rs:10-33 | insertion keeps keys unique, adds the key when it succeeds, only appends, and is a no-op on a taken key |
| ModelsDb.AppendKeepsUnique | src-tauri/src/db/models.rs:85 | appending a model with a fresh key keeps keys unique |
| ModelsDb.UpdateKeepsUnique | src-tauri/src/db/models.rs:112-125 | an update allowed by the duplicate check keeps keys unique |
| ModelsDb.UpdateOfMissingKey | src-tauri/src/db/models.rs:125-140 | updating a key that is absent changes nothing |
| ModelsDb.DeletedKeepsUnique | src-tauri/src/db/models.rs:157 | deleting keeps keys unique and leaves no row with the key |
| ModelsDb.DeletedStaysUnique | src-tauri/src/db/models.rs:157 | deleting keeps keys unique |
| ModelsDb.PrependKeepsUnique | src-tauri/src/db/models.rs:157 | a row whose key the rest lacks keeps a unique table unique |
| ModelsDb.DeletedOfAbsent | src-tauri/src/db/models.rs:157-160 | deleting an absent key changes nothing |
| ModelsDb.VisibleCounts | src-tauri/src/db/models.rs:40 | each model of a usable provider is listed as many times as it is stored, any other not at all |
| ModelsDb.VisibleSnoc | src-tauri/src/db/models.rs:40-41 | a row added at the end of the table is listed last when its provider is usable, and nothing else changes |
| ModelsDb.VisibleAmongAll | src-tauri/src/db/models.rs:40-56 | every model get_models returns is among get_all_models |
| ModelsDb.LocalAlwaysVisible | src-tauri/src/db/models.rs:40 | a stored 'local' model is always visible |
| Init.SeedDefaults | src-tauri/src/db/init.rs:84-86 | every default model is offered to insert_model in list order, with results ignored |
| Init.Seeded | src-tauri/src/db/init.rs:84-86 | seeding only appends rows |
| Init.DefaultModelsShape | src-tauri/src/db/init.rs:17-52 | four defaults: openai, anthropic, mistralai, groqcloud, with distinct keys |
| Init.SeedKeepsUnique | src-tauri/src/db/init.rs:84-86 | seeding keeps keys unique |
| Init.SeedKeepsKey | src-tauri/src/db/init.rs:84-86 | seeding never removes an existing key |
| Init.SeedAddsKeys | src-tauri/src/db/init.rs:84-86 | when the INSERTs succeed, every default key is present |
| Init.SeedPresentKeys | src-tauri/src/db/init.rs:84-86 | seeding a table that already has every key changes nothing |
| Init.SeedIdempotent | src-tauri/src/db/init.rs:84-86 | seeding twice leaves the same table as seeding once |
| ChatsDb.ChatsTable.GetChats | src-tauri/src/db/chats.rs:11-16 | a permutation (same multiset) of the non-archived chats, newest last_updated first; the fetch error otherwise |
| ChatsDb.ChatsTable.GetChatDisplayName | src-tauri/src/db/chats.rs:19-22 | None iff no chat has the id, else a display name stored under it |
| ChatsDb.ChatsTable.InsertChatDisplayName | src-tauri/src/db/chats.rs:25-42 | appends a chat with archived "false", api key id "NA" and the current time; a failed insert changes nothing and returns Err |
| ChatsDb.ChatsTable.RenameChat | src-tauri/src/db/chats.rs:47-57 | only the display name of the matching chat changes; Ok even when nothing matched |
| ChatsDb.ChatsTable.ArchiveChat | src-tauri/src/db/chats.rs:62-72 | only the archived flag of the matching chat changes |
| ChatsDb.ChatsTable.TouchChat | src-tauri/src/providers.rs:301-310 | only last_updated of the matching chat changes |
| ChatsDb.ChatsTable.DeleteChat | src-tauri/src/db/chats.rs:77-87 | exactly the chats with the id are removed; Ok even when absent |
| ChatsDb.InsertByRecency | src-tauri/src/db/chats.rs:13 | insertion into a newest-first list is a permutation that keeps the order |
| ChatsDb.SortByRecency | src-tauri/src/db/chats.rs:13 | the result is a permutation ordered by last_updated descending |
| ChatsDb.Unarchived | src-tauri/src/db/chats.rs:13 | exactly the chats whose archived flag is 'false' |
| ChatsDb.UnarchivedSnoc | src-tauri/src/db/chats.rs:13 | a row added at the end of the table is listed last when it is not archived, and nothing else changes |
| ChatsDb.DisplayNameOf | src-tauri/src/db/chats.rs:20 | None iff no row has the id; otherwise the name of a row with that id |
| ChatsDb.Renamed | src-tauri/src/db/chats.rs:49 | only the matching rows' display names change |
| ChatsDb.Archived | src-tauri/src/db/chats.rs:64 | only the matching rows' archived flags change |
| ChatsDb.Touched | src-tauri/src/providers.rs:301-310 | only the matching rows' last_updated changes |
| ChatsDb.Without | src-tauri/src/db/chats.rs:79 | exactly the rows with another id remain |
| ChatsDb.NotAfterTotal | src-tauri/src/db/chats.rs:13 | the timestamp order is total |
| ChatsDb.ArchiveHidesButKeeps | src-tauri/src/db/chats.rs:13-64 | an archived chat vanishes from the list but its display name is still found |
| ChatsDb.ArchivedNames | src-tauri/src/db/chats.rs:20-64 | archiving does not change what the name lookup finds |
| ChatsDb.RenameIsSeen | src-tauri/src/db/chats.rs:20-49 | after a rename the lookup finds the new name; other chats' names are unchanged |
| ChatsDb.DeleteRemovesOnlyIt | src-tauri/src/db/chats.rs:20-79 | after deleting, the chat is not found and the others are unchanged |
| ChatsDb.NewChatFoundAndListed | src-tauri/src/db/chats.rs:13-32 | a newly inserted chat is found by id and listed |
| MessagesDb.MessagesTable.InsertMessage | src-tauri/src/db/messages.rs:66-76 | appends the row when the insert succeeds; a failure is silently ignored |
| MessagesDb.MessagesTable.InsertMessageBlocks | src-tauri/src/db/messages.rs:79-95 | one row per block in order with copied 0; failed blocks are skipped and later blocks still inserted |
| MessagesDb.MessagesTable.GetMessages | src-tauri/src/db/messages.rs:52-63 | the chat's messages in stored order (`ChatMessages`: its members are the chat's rows, and a message appended to the chat comes last), each without blocks; a failed fetch is "Database error: <e>" |
| MessagesDb.MessagesTable.LoadChat | src-tauri/src/db/messages.rs:26-49 | each message gets its blocks, or keeps None when its block fetch fails; Err only when the message fetch fails |
| MessagesDb.ChatMessages | src-tauri/src/db/messages.rs:11-53 | the fetched messages carry no blocks |
| MessagesDb.Kept | src-tauri/src/db/messages.rs:91-93 | failed blocks are dropped, never added |
| MessagesDb.ChatMessagesMembers | src-tauri/src/db/messages.rs:53 | the fetched messages are exactly those stored for the chat |
| MessagesDb.AppendedMessageComesLast | src-tauri/src/db/messages.rs:53-67 | a newly inserted message of the chat is fetched last |
| MessagesDb.BlocksOfAppend | src-tauri/src/db/messages.rs:33 | block lookup distributes over appended rows |
| MessagesDb.InsertedBlocksShape | src-tauri/src/db/messages.rs:81-90 | the inserted rows are the kept blocks in order, under the message id, with fresh ids and copied false |
| MessagesDb.NothingFailedKeepsAll | src-tauri/src/db/messages.rs:81-94 | with no failure every block is kept |
| MessagesDb.AllRowsOfMessage | src-tauri/src/db/messages.rs:33-90 | the blocks stored for a message are read back in order |
| MessagesDb.RowsOfOneMessage | src-tauri/src/db/messages.rs:33 | rows all of one message are all returned for it |
| MessagesDb.BlocksRoundTrip | src-tauri/src/db/messages.rs:33-95 | the blocks inserted for a fresh message are what is loaded for it |
| ProvidersDb.ProvidersTable.LoadProviders | src-tauri/src/db/providers_db.rs:20-31 | all provider rows, or "Error getting providers: <e>" |
| ProvidersDb.ProvidersTable.GetApiKey | src-tauri/src/db/providers_db.rs:83-93 | Ok iff the fetch succeeds and the provider has a row, and then the key of its first row; "Error fetching API key for provider <name>: …" on a failed fetch or a missing row |
| ProvidersDb.ProvidersTable.SetApiKey | src-tauri/src/db/providers_db.rs:36-53 | a failed validation returns its error before any update; otherwise the key is stored as valid for that provider only, or the update error is returned |
| ProvidersDb.ProvidersTable.ReadApiKeysFromEnv | src-tauri/src/db/providers_db.rs:98-127 | nothing changes outside development mode; otherwise exactly the five provider keys are overwritten (missing variables become ""), stopping with Err at the first failed update |
| ProvidersDb.ValidateApiKey | src-tauri/src/db/providers_db.rs:56-80 | never Ok(false); no default model and construction failure give their messages; Ok(true) iff a default model exists, the provider builds and the test send succeeds |
| ProvidersDb.FindModel | src-tauri/src/db/providers_db.rs:57-60 | the first default model of the provider (no earlier model has that provider), None iff there is none |
| ProvidersDb.KeySet | src-tauri/src/db/providers_db.rs:42 | only the provider's rows get the new key and valid flag |
| ProvidersDb.Rekeyed | src-tauri/src/db/providers_db.rs:115-117 | only the named providers' keys change, each to its environment value |
| ProvidersDb.FirstFailed | src-tauri/src/db/providers_db.rs:116-122 | the first provider whose update fails; all before it succeed |
| ProvidersDb.FirstRow | src-tauri/src/db/providers_db.rs:84-87 | the first row of the provider (no earlier row has that provider), None iff there is none |
| ProvidersDb.FirstFailedIs | src-tauri/src/db/providers_db.rs:116-122 | the first failing update is the one at the given index |
| ProvidersDb.RekeyedStep | src-tauri/src/db/providers_db.rs:116-118 | each loop iteration rekeys one more provider |
| ProvidersDb.RekeyedAll | src-tauri/src/db/providers_db.rs:108-124 | whatever the iteration order, the full loop rekeys exactly the five providers |
| ProvidersDb.GoogleNeverValidates | src-tauri/src/db/providers_db.rs:57-60 | a provider without a default model (google) always fails with "No default model found for provider: <name>" |
| ProvidersDb.MistralAndGroqNeverValidate | src-tauri/src/db/providers_db.rs:63 | mistralai and groqcloud keys always fail with "Failed to create provider: Unsupported provider: <name>" |
| ProvidersDb.HasDefaultModel | src-tauri/src/db/init.rs:17-52 | openai, anthropic, mistralai and groqcloud have a default model |
| ProvidersDb.StoredKeyIsRead | src-tauri/src/db/providers_db.rs:42-90 | after a key is stored, the lookup reads that key, marked valid |
| ProvidersDb.GetAfterSet | src-tauri/src/db/providers_db.rs:42-93 | after `set_api_key` stores a key, a `get_api_key` whose fetch succeeds returns that key |
| LlmProviders.NewProvider | src-tauri/src/llm_providers/enums.rs:19-25 | openai builds the Default variant with the key and the OpenAI URL; anthropic builds the Anthropic variant with the key; every other name fails |
| LlmProviders.SendMessage | src-tauri/src/llm_providers/enums.rs:36-41 | the call is forwarded unchanged to the wrapped provider |
| LlmProviders.Body | src-tauri/src/llm_providers/anthropic.rs:67-72 | the body carries every message in order, the model and the configured max_tokens |
| LlmProviders.HistoryLines | src-tauri/src/llm_providers/anthropic.rs:98-101 | one "role: content" line per message, in order |
| LlmProviders.ClaudeCallFor | src-tauri/src/llm_providers/anthropic.rs:74-102 | the call carries the provider's key, max_tokens from the body and the flattened history |
| LlmProviders.AnthropicSend | src-tauri/src/llm_providers/anthropic.rs:66-116 | success returns the response unchanged; failure returns the classified error |
| LlmProviders.OtherNamesUnsupported | src-tauri/src/llm_providers/enums.rs:23 | mistralai, groqcloud, local and google are unsupported |
| LlmProviders.SerializedHistory | src-tauri/src/llm_providers/anthropic.rs:98-102 | the history lines are the messages' "role: content" lines in order |
| LlmProviders.HistoryRoundTrip | src-tauri/src/llm_providers/anthropic.rs:98-102 | splitting a non-empty history at "\n" gives back its lines, when no line holds "\n" |
| LlmProviders.ModelNotSent | src-tauri/src/llm_providers/anthropic.rs:96 | the Claude call does not depend on the model name |
| LlmProviders.AuthenticationInAnyCase | src-tauri/src/llm_providers/anthropic.rs:107 | "authentication" in any letter case is detected |
| LlmProviders.ClassifyAuthIff | src-tauri/src/llm_providers/anthropic.rs:107-113 | the authentication message is chosen iff the lower-cased error contains "authentication" |
| LlmProviders.OtherErrorKept | src-tauri/src/llm_providers/anthropic.rs:111-112 | any other error becomes "An error occurred: <e>" with e intact |
| Errors.WrappedDisplays | src-tauri/src/errors.rs:19-47 | the wrappers display with "Database error: ", "Provider error: " or "Configuration error: " before the inner error |
| Errors.StringRoundTrip | src-tauri/src/errors.rs:49-66 | `String::from(AppError::from(s)) == s` |
| Errors.SqlxErrorDisplay | src-tauri/src/errors.rs:103-110 | a sqlx error converts to a query failure that displays as "Database query failed: <e>" |
| Errors.NotFoundIsNotDuplicate | src-tauri/src/errors.rs:91-96 | a not-found message never reads as a duplicate message |
| Errors.ProviderDisplayIdentifiesVariant | src-tauri/src/errors.rs:128-146 | equal provider-error texts come from the same variant |
| Errors.ConfigDisplayIdentifiesVariant | src-tauri/src/errors.rs:163-175 | equal config-error texts come from the same variant |
| Errors.GenericImpersonates | src-tauri/src/errors.rs:24-25 | a Generic error holding another error's text displays exactly like it |
| Types.BlockDisplayShape | src-tauri/src/types.rs:56-66 | the display starts with the type and ends with the rendered content, with the language field iff one is set |
| Types.DisplayWithLanguage | src-tauri/src/types.rs:58-63 | a block with a language displays as type, language, content |
| Types.DisplayWithoutLanguage | src-tauri/src/types.rs:64 | a block without a language displays as type, content |
| Types.DisplayIgnoresStoredFields | src-tauri/src/types.rs:56-66 | the display ignores id, raw content and copied |
| Types.DisplayIsNotInjective | src-tauri/src/types.rs:61-64 | the text is spliced without escaping, so two different blocks can display alike |

Specification functions without a contract of their own are stated by the rows of the members that use them:

- `Markdown.EscapeHtmlTags` (`src-tauri/src/utils.rs:182-186`): `EscapeTag`, `EscapePlainPrefix`, `EscapeTagExample`, `EscapeRoundTrip`, `EscapeTagRestored`, `EscapeWithoutTags`.
- `Markdown.ReplaceBackticks` (`src-tauri/src/utils.rs:122-132`): `BackticksSpan`, `BackticksPlainPrefix`, `BackticksRoundTrip`, `CodeSpanRestored`.
- `Markdown.LoneStars` (`src-tauri/src/utils.rs:136`): `BoldSpan`.
- `Markdown.ProcessText` (`src-tauri/src/utils.rs:112-120`): `ProcessTextIsOneLine`, `Render.TextBlockWellFormed`.
- `Markdown.HeaderLines` (`src-tauri/src/utils.rs:148-180`): `ReplaceMarkdownHeaders`, `HeaderLineOf`, `HashesThenContent`, `HeaderLinesSnoc`.
- `Markdown.TablesText` (`src-tauri/src/utils.rs:188-228`): `ReplaceMarkdownTables`, `TablesFromTable`, `TablesFromLine`, `TablesWithoutPipes`, `DropAddedNewline`.
- `Markdown.TableHtml` (`src-tauri/src/utils.rs:247-277`): `RenderMarkdownTable`, `SeparatorRowIgnored`.
- `Render.LanguageAndCode` (`src-tauri/src/utils.rs:34-40`): `FenceLanguageAndCode`, `TaggedLanguageAndCode`.
- `Render.TextBlock` and `Render.CodeBlock` (`src-tauri/src/utils.rs:20-56`): `TextBlockWellFormed`, `RenderedBlocksWellFormed`, `NoFenceOneBlock`, `SingleFence`.
- `Render.Pieces` and `Render.RenderedBlocks` (`src-tauri/src/utils.rs:10-76`): `RenderMessage`, `ToBlocks`, `PiecesAtFence`, `PiecesCover`, `MessageIsItsPieces`, `TextPiecesNonEmpty`.
- `Errors.DatabaseErrorText`, `ProviderErrorText`, `ConfigErrorText`, `AppErrorText` (`src-tauri/src/errors.rs:18-176`) and the conversions `FromDatabaseError`, `FromProviderError`, `FromConfigError`, `FromString`, `FromSqlxError`, `AppErrorToString` (`src-tauri/src/errors.rs:31-110`): the `Errors` rows.
- `Types.BlockDisplay` (`src-tauri/src/types.rs:56-66`): the `Types` rows.
- `LlmProviders.ProviderName` (`src-tauri/src/llm_providers/enums.rs:29-34`): `NewProvider`.
- `LlmProviders.Serialize` and `LlmProviders.History` (`src-tauri/src/llm_providers/anthropic.rs:67-102`): `HistoryLines`, `SerializedHistory`, `HistoryRoundTrip`, `ClaudeCallFor`.
- `LlmProviders.ClassifyError` (`src-tauri/src/llm_providers/anthropic.rs:106-114`): `AuthenticationInAnyCase`, `ClassifyAuthIff`, `OtherErrorKept`.
- `Turn.Turn`, `Opening`, `Answering`, `Concluded`, `Finished` (`src-tauri/src/providers.rs:42-321`): `GetMessage`, which is proved equal to `Turn`, and the `Turn` lemmas.
- `Turn.EnsuredChat` (`src-tauri/src/providers.rs:53-71`): `EnsureChat`, `PlaceholderForNewChat`.
- `Turn.AnswerFor`, `AnswerRequest`, `ClaudeFailure` (`src-tauri/src/providers.rs:83-180`): `OnlyOpenAIPanics`, `UnimplementedProviderAnswer`, `AnsweringConcludes`, `ClaudeFailureIff`.
- `Turn.TitleFor` and `Turn.TitlePrompt` (`src-tauri/src/providers.rs:191-216`): `TitleFailureKeepsPlaceholder`, `TitleSuccessRenames`, `TitlePromptQuotes`.
- `MessagesDb.FromRow` and `MessagesDb.Loaded` (`src-tauri/src/db/messages.rs:11-49`): `ChatMessages`, `LoadChat`, `BlocksRoundTrip`.
- `ChatsDb.AsChat` (`src-tauri/src/db/chats.rs:11-16`): `GetChats`, `UnarchivedSnoc`.

## Left out

- EscapeRoundTrip: the round trip alone does not fix what the pass writes (the identity satisfies it too).
  What the pass writes is stated by `Markdown.EscapeTag` for a tag at the head of the text and by
  `Markdown.EscapePlainPrefix` for tag-free text before it. Together they cover a tag anywhere.
- BackticksRoundTrip: the round trip alone does not fix what the pass writes. What it writes is stated by
  `Markdown.BackticksSpan` for a span at the head and by `Markdown.BackticksPlainPrefix` for backtick-free
  text before it.
- BoldRoundTrip: the round trip alone does not fix what the pass writes. What it writes is stated by
  `Markdown.BoldSpan` for a span at the head and by `Markdown.BoldPlainPrefix` for star-free text before it.
  Neither covers text before a span that holds a lone `*`.
- ReplaceBold: its own contract says only that no line break is added. What it writes is stated by
  `Markdown.BoldSpan`, `Markdown.BoldPlainPrefix`, `Markdown.BoldRoundTrip` and the newline lemmas.
- Syntax highlighting (`highlight_code`, `src-tauri/src/utils.rs:78-102`) uses a library outside this model. It is a
  `Highlighter` parameter that may fail.
- Network calls (OpenAI, Claude, Mistral, Groq, the reqwest client) are inputs. They are a `Network` value in
  `LlmProviders` and the `answerCall`/`titleCall` functions of `Turn.TurnEnv`. The same request always gets the
  same reply.
- `llm_providers/default.rs` is not part of this model. `DefaultProvider` is a record of name, key and URL, and its
  `send_message` is a network input.
- The wire encodings `messages.render("openai"/"anthropic")` and `.messages` are defined in no file of the
  repository. A `Turn.Request` carries the typed history plus the name of the encoding.
- langchain's conversion of a `Memory` prompt to text is not modelled. The request keeps the converted messages.
- Turn.GetMessage: the panic of `unwrap` on a failed OpenAI call becomes `Panicked(reason)`, where the reason is the
  error text. Rust's Debug rendering of the error is not modelled. The `Invalid message type` panic is a `Panicked`
  outcome in the same way.
- Temperature and top_p are floating point and are left out. Only `max_tokens` is kept: 4096 for answers, 32 for
  titles.
- Message ids, chat timestamps (`CURRENT_TIMESTAMP`) and block ids are inputs of the model. The block id counter
  stands for SQLite's autoincrement.
- The SQL engine, migrations, database creation (`db/init.rs:56-81`) and the `Mutex` around the pool are left out.
  Each statement is one atomic step with an optional error.
- Queries without `ORDER BY` return rows in insertion order. `ChatsDb.SortByRecency` puts chats with equal
  timestamps in one fixed order, while SQLite leaves the order of ties unspecified.
- NULL columns are not modelled. Every text column holds a string.
- The error text of a failed query is an input. For `set_api_key` this input stands for the Debug form of the error.
- The iteration order of the `HashMap` in `read_api_keys_from_env` is unspecified in Rust. It is the `order`
  parameter, a permutation of the five provider names.
- `dotenv` loading is left out. The environment is the map after loading.
- Tauri events (`window.emit`) become `Turn.Effect` entries in the trace. Logging is left out.
- Case mapping is ASCII only. It is applied to the word "authentication", to ASCII fence tags and to the first
  letter in `capitalize_first_letter`. For non-ASCII first letters `CapitalizeFirstLetter` leaves the character
  as it is.
- The regex engine is replaced by explicit scanners for the patterns the source uses. `Lines` follows Rust's
  `str::lines`, which drops one `'\r'` before each `'\n'`.
- The duplicates `src-tauri/src/db.rs`, `src-tauri/src/LLMprovider/*`, `providers/mistralai.rs` (all commented out),
  `providers/traits.rs` and `llm_providers/traits.rs` are not compiled into the application. They are not modelled.
- The front-end (TypeScript/Svelte), the Python icon scripts, `lib.rs` (window, menu and command registration)
  and `AppPaths` are left out.
- ModelsDb.ModelsTable.InsertModel: the existence check uses `fetch_one`, so any error of that check (not only
  "no row") leads to the INSERT. The model decides from the rows alone and has no input for a failed check.
