# Vera memory-augmented chat agent: a Dafny model

This project models the core of Vera, a terminal and HTTP chat agent.
Vera remembers earlier conversations with its user. Every answered prompt is stored as a
(prompt, response) row in a Postgres table. At start-up the rows are embedded into a Chroma
collection. For each new prompt the agent:

- asks the model for search queries;
- retrieves the stored conversations nearest to each query;
- keeps those that a yes/no classifier calls relevant;
- adds style examples from a Twitch chat corpus.

All of this goes into the prompt as system context. The answer is then streamed and stored.
`/forget` removes the newest exchange from both the window and the table.

The external services are parameters of the model: Ollama (chat, streaming chat, embeddings),
`ast.literal_eval`, Chroma's and FAISS's nearest-neighbour search, and Python's `str()` of a set.
They are the fields of `Oracles.Backend`, one total function each, and a `None` answer stands
for a call that raised. The objects whose fields the source updates in place are classes:

- the table is `Db.ConversationStore`;
- the Chroma client is `VectorStore.ChromaClient`;
- the Twitch corpus is `ExternalRag.TwitchChatRAG`;
- the engine is `VeraCore.VeraEngine`;
- the module globals of the two terminal programs are `VeraCli.Cli` and `AssistantLoop.Assistant`.

Each method of those classes is proved against a specification function. The properties are
lemmas about those functions.

Modules, one per source file, plus shared pieces:

- `Wrappers` holds `Option` and `Result`.
- `Text` holds `strip`, `lower`, `startswith`, `in`, `split` and `str(int)`.
- `Messages` holds chat messages, the conversation window and stream concatenation.
- `Oracles` holds the backend.
- `Db` models db.py.
- `QueryBuilder` models query_builder.py.
- `VectorStore` models vector_store.py.
- `ExternalRag` models external_rag_module.py.
- `Authorization` models authorization.py.
- `Turns` holds the prompt logic that vera_core.py and vera_cli.py share, and the exit command
  and session outcomes that vera_cli.py and assistant.py share.
- `VeraCore` models vera_core.py.
- `VeraCli` models vera_cli.py.
- `AssistantLoop` models assistant.py.

Behaviours of the code worth noting:

- `create_queries` returns whatever the reply parses to, including an empty list. The `[prompt]` fallback only applies when parsing raises. A failing chat call
  raises.
- A failing relevance-classifier call raises out of `retrieve_embedding`. It is not treated as
  "not relevant".
- A failing embedding call during `create_vector_store` leaves the records added before it.
  The index is partial, not empty. `get_collection` raises only when the collection was never
  created.
- Failures while building queries or retrieving memories are fatal to the prompt. They do not
  degrade to "no memories".
- In vera_core.py, where the engine outlives the exception, a prompt whose stream fails leaves
  the window and the table alone. The context messages that recall appended stay in
  `temp_context`, and they are sent again with the next prompt
  (`Turns.StaleContextReachesNextTurn`). In vera_cli.py and assistant.py the same error escapes
  `main`'s loop and ends the program (`VeraCli.CliSession`, `AssistantLoop.AssistantSession`).
  In assistant.py the window then keeps the memory message that `recall` had appended, a user
  message with no answer (`AssistantLoop.AnswerWindow`).

## Model

| member | source | states |
|---|---|---|
| Text.StripIsTrim | vector_store.py:62 | `strip()` returns the slice of the reply between its leading and trailing whitespace, with no whitespace left at either end |
| Text.StripTrimmed | external_rag_module.py:33 | a string with no whitespace at its ends is its own `strip()` |
| Text.LeadingSpaceIsMaximal | vector_store.py:62 | `strip()` removes every leading whitespace character and stops at the first other one |
| Text.TrailingSpaceIsMaximal | vector_store.py:62 | `strip()` removes every trailing whitespace character and stops at the last other one |
| Text.StripBounds | external_rag_module.py:33 | `strip()` is the slice between the removed ends: all whitespace outside it, none at its own ends |
| Text.LowerFacts | external_rag_module.py:33 | lower-casing is idempotent and leaves whitespace as whitespace |
| Text.NatToStringInjective | vector_store.py:34 | different natural numbers print to different decimal strings |
| Text.IntToStringSign | vector_store.py:34 | `str(n)` starts with `-` exactly when `n` is negative |
| Text.IntToStringInjective | vector_store.py:34 | `str()` is injective on ids, so distinct row ids give distinct record ids |
| Text.NatDigitsOnly | vector_store.py:34 | `str(n)` of a natural number contains only decimal digits |
| Oracles.SetRepr | vera_core.py:41 | `{embeddings}` in an f-string: `set()` for the empty set, Python's `str()` of the set otherwise; stated by `AssistantLoop.EmptyMemoriesStillSent` |
| Messages.Seed | vera_core.py:22 | a new window holds only the system message and satisfies the window invariant |
| Messages.Forget | vera_core.py:56-58 | the window edit of `/forget`: two `pop()`s when it holds at least two messages; its properties are stated by `ForgetKeepsWindow` |
| Messages.Compose | vera_core.py:64 | `convo + temp_context + [user prompt]`, the generation input; stated by `Turns.ContextFollowsWindow` |
| Messages.Concat | vera_core.py:67-68 | the response text of a stream, its chunks joined in order; stated by `ConcatAppend` and `ConcatInOrder` |
| Messages.ForgetKeepsWindow | vera_core.py:54-59 | the guarded double `pop()` keeps the window invariant; it removes exactly the last user/assistant exchange, and never the system message |
| Messages.ExchangeKeepsWindow | vera_core.py:75-76 | appending a user message then an assistant message keeps the window invariant |
| Messages.ConcatAppend | vera_core.py:67-68 | joining the chunks of two consecutive stretches of a stream gives the two joined texts in order |
| Messages.ConcatInOrder | vera_core.py:67-68 | every chunk appears in the response at the offset given by the chunks before it |
| Messages.CollectStream | vera_core.py:63-68 | the accumulated response is the concatenation of all chunks in order, of their total length |
| Db.MaxId | db.py:66 | `MAX(id)` is the id of some row and no row has a larger id |
| Db.DropId | db.py:66 | `DELETE ... WHERE id = x` keeps exactly the rows whose id differs from `x` |
| Db.WithoutMaxId | db.py:66 | `DELETE ... WHERE id = (SELECT MAX(id) ...)`, deleting nothing on an empty table; stated by `DeleteMaxIsLast` |
| Db.DropLast | db.py:66 | with increasing ids, deleting the last row's id removes that row only |
| Db.DeleteMaxIsLast | db.py:62-69 | on an ordered table the DELETE removes exactly the newest row |
| Db.Apply | db.py:51-69 | the effect of one turn's write on the table: nothing, an INSERT with the next SERIAL id, or the max-id DELETE; stated by `ApplyKeepsOrdered` |
| Db.ApplyKeepsOrdered | db.py:51-69 | INSERT and DELETE keep ids increasing and below the next SERIAL value; DELETE drops the last row, or nothing on an empty table |
| Db.ConversationStore.FetchConversations | db.py:39-48 | returns every row, ids increasing |
| Db.ConversationStore.StoreConversation | db.py:51-59 | the table gains one row (next id, prompt, response) at the end and stays ordered |
| Db.ConversationStore.RemoveLastConversation | db.py:62-69 | the table loses its newest row, or is unchanged when empty, and stays ordered |
| QueryBuilder.QueryConvoShape | query_builder.py:16-23 | six messages: the instruction, two worked examples with alternating roles, then the prompt as the last user message |
| QueryBuilder.QueryConvo | query_builder.py:16-23 | `query_convo`: the few-shot messages followed by the prompt; stated by `QueryConvoShape` |
| QueryBuilder.CreateQueries | query_builder.py:25-30 | fails exactly when the chat call fails; otherwise returns the parsed literal, or `[prompt]` when parsing raises |
| QueryBuilder.QueriesFromOneReply | query_builder.py:25-28 | the queries depend only on the single chat reply and how it parses (one call, no retry) |
| QueryBuilder.EmptyQueriesOnlyFromEmptyLiteral | query_builder.py:27-30 | an empty query list arises only from a reply that parses to the empty list |
| VectorStore.AddKeepsIds | vector_store.py:33-37 | `add` keeps ids distinct and makes the id present; a new id is appended, an existing id keeps its first record |
| VectorStore.Add | vector_store.py:33-37 | Chroma's `collection.add` of one record: a new id is appended, an id already stored keeps its first record; stated by `AddKeepsIds` |
| VectorStore.Serialize | vector_store.py:30 | the stored document `prompt: P response: R` of a row; stated within `FillExact` |
| VectorStore.Fill | vector_store.py:29-37 | the add loop of `create_vector_store`, stopping at the first embedding call that raises; stated by `FillExact`, `FillStopsAtFirstFailure` and `FillDistinct` |
| VectorStore.FillExact | vector_store.py:29-37 | with distinct ids and every embedding available, the collection has one record per row, in order, with id `str(id)`, document `"prompt: P response: R"` and that document's embedding |
| VectorStore.FillStopsAtFirstFailure | vector_store.py:29-37 | when an embedding call raises, the collection holds exactly what the rows before the first failing one produced |
| VectorStore.FillDistinct | vector_store.py:33-37 | the collection never holds two records with one id |
| VectorStore.ClassifyConvoShape | vector_store.py:53-60 | six messages: the instruction, a "yes" and a "no" example, then `SEARCH QUERY: q \n\nEMBEDDED CONTEXT: c` as the last user message |
| VectorStore.ClassifyConvo | vector_store.py:53-60 | `classify_convo`: the few-shot messages followed by the query and candidate message; stated by `ClassifyConvoShape` |
| VectorStore.Normalize | vector_store.py:62 | `.strip().lower()` of the classifier's reply; stated by `NormalizeIdempotent` |
| VectorStore.ClassifyEmbedding | vector_store.py:61-62 | fails exactly when the chat call fails |
| VectorStore.NormalizeIdempotent | vector_store.py:62 | `.strip().lower()` leaves no whitespace at the ends and no ASCII capitals, and applying it again changes nothing |
| VectorStore.ClassifierReplyNormalized | vector_store.py:62 | the classifier's result is already normalised |
| VectorStore.TopDocuments | vector_store.py:78-82 | a query returns at most `n_results` documents, all stored in the collection |
| VectorStore.Candidates | vector_store.py:73-82 | the documents one query retrieves: the top `n_results` of the nearest-neighbour ranking of its embedding; bounded by `TopDocuments` |
| VectorStore.ScanCandidates | vector_store.py:84-87 | the inner loop of `retrieve_embedding`: skip a document already found, otherwise classify it and add it on "yes", raising when the classifier does; stated by `ScanGrows`, `ScanSound`, `ScanComplete` and `FoundNeverReclassified` |
| VectorStore.ScanGrows | vector_store.py:84-87 | scanning one query's results keeps the found set and adds at most one document per result |
| VectorStore.ScanSound | vector_store.py:84-87 | the scan adds only results the classifier accepted (reply contains "yes") |
| VectorStore.ScanComplete | vector_store.py:84-87 | the scan adds every result the classifier accepts |
| VectorStore.FoundNeverReclassified | vector_store.py:84-86 | an already found document is not classified again: the classifier's answers for found documents cannot affect the scan |
| VectorStore.Retrieval | vector_store.py:65-89 | no queries give the set found so far; a missing collection makes any non-empty query list fail |
| VectorStore.RetrievalStep | vector_store.py:73-87 | one query's scan keeps the found set, adds at most `results_per_query` documents, and the loop continues from there |
| VectorStore.RetrievalKeeps | vector_store.py:65-89 | a successful retrieval returns a superset of what was already found |
| VectorStore.RetrievalGrows | vector_store.py:65-89 | a successful retrieval adds at most `results_per_query` documents per query |
| VectorStore.RetrievalBound | vector_store.py:65-89 | the result contains what was found before and at most `results_per_query` new documents per query |
| VectorStore.RetrievalSound | vector_store.py:65-89 | every returned document was among some query's results and was accepted for that query |
| VectorStore.RetrievalComplete | vector_store.py:65-89 | every document some query finds and the classifier accepts for it is returned |
| VectorStore.ChromaClient.constructor | vector_store.py:13 | a new client has no collection |
| VectorStore.ChromaClient.CreateVectorStore | vector_store.py:16-37 | replaces the collection with the result of the add loop over the rows; succeeds exactly when every embedding call did |
| VectorStore.ChromaClient.RetrieveEmbedding | vector_store.py:65-89 | returns exactly the specified retrieval result, including its failures |
| ExternalRag.KeptPositionsIncrease | external_rag_module.py:32-35 | the kept messages are listed in source order |
| ExternalRag.Keep | external_rag_module.py:35 | the comprehension's filter on the raw message: present, non-empty, not starting with `!`, `%` or `[`; stated by `KeptPositionsMembership` |
| ExternalRag.Clean | external_rag_module.py:33 | `m.lower().strip()`; stated by `CleanSample` and `PrefixCheckedBeforeStrip` |
| ExternalRag.Filtered | external_rag_module.py:32-35 | the comprehension before the slice, in source order; stated by `FilteredIsKeptSubsequence` |
| ExternalRag.CleanMessages | external_rag_module.py:32-36 | the cleaned corpus, the first `max_messages` of the filtered list; stated by `CleanMessagesFromSource` |
| ExternalRag.KeptPositionsMembership | external_rag_module.py:35 | a message is kept exactly when it is present, non-empty and does not start with `!`, `%` or `[` |
| ExternalRag.KeptPositionsPointwise | external_rag_module.py:32-35 | the i-th cleaned message is `m.lower().strip()` of the i-th kept message |
| ExternalRag.FilteredIsKeptSubsequence | external_rag_module.py:32-35 | the filtered list is exactly the kept messages, cleaned, in order |
| ExternalRag.SliceTo | external_rag_module.py:36 | Python's `xs[:n]`: a prefix of length `min(n, len)`, or `len + n` (at least 0) for negative `n` |
| ExternalRag.CleanMessagesFromSource | external_rag_module.py:32-36 | the corpus is a prefix of at most `max_messages` of the filtered list, and each entry comes from a kept raw message |
| ExternalRag.CleanSample | external_rag_module.py:33 | `"  !x".lower().strip()` is `"!x"` |
| ExternalRag.PrefixCheckedBeforeStrip | external_rag_module.py:32-36 | the prefix filter looks at the raw message, so `"  !x"` is kept as `"!x"` |
| ExternalRag.PyPos | external_rag_module.py:74 | a Python index in range reads a position inside the list |
| ExternalRag.Lookup | external_rag_module.py:74 | `[messages[i] for i in ids]` succeeds exactly when every index is in Python's range, has one message per index in order, and raises IndexError otherwise |
| ExternalRag.PaddingReadsLastMessage | external_rag_module.py:73-74 | FAISS's `-1` padding reads the last message instead of failing |
| ExternalRag.TwitchChatRAG.constructor | external_rag_module.py:14-16 | stores `k`, the messages and the index vectors |
| ExternalRag.TwitchChatRAG.Create | external_rag_module.py:32-56 | an empty cleaned corpus raises before any embedding; construction succeeds exactly when every message embeds; the index holds one embedding per message, in order |
| ExternalRag.TwitchChatRAG.Retrieve | external_rag_module.py:65-75 | fails when the prompt does not embed; otherwise returns one message per searched index, in order, and fails exactly when an index is out of range |
| Authorization.VerifyApiKey | authorization.py:8-17 | no key or an empty key gives RuntimeError; a header without `Bearer ` gives 401; a wrong token gives 403 |
| Authorization.TokenAfterScheme | authorization.py:12-15 | after the prefix check, `split(" ", 1)[1]` is the text after `Bearer ` |
| Authorization.AuthorizedExactly | authorization.py:8-17 | a request passes exactly when a key is set and the header is `Bearer ` followed by that key |
| Turns.RecallAddsContext | vera_core.py:33-50 | recall adds only system messages: the memory message (holding the retrieved set) exactly when the set is non-empty and first, then the Twitch message exactly when the Twitch list is non-empty; nothing is added when building queries or retrieving fails; a failing Twitch search keeps the memory message and raises |
| Turns.Recall | vera_core.py:33-50 | `recall(prompt)`: queries, memory search, then Twitch search, with the messages appended and whether it raised; stated by `RecallAddsContext` |
| Turns.MemoryContext | vera_core.py:38-42 | the system message carrying the recalled set after the memory preamble, as vera_cli.py:62-66 builds it too; stated by `RecallAddsContext` |
| Turns.TwitchContext | vera_core.py:46-50 | the system message carrying the Twitch examples joined by newlines after the Twitch preamble, as vera_cli.py:70-74 builds it too; stated by `RecallAddsContext` |
| Turns.Gather | vera_core.py:33-50 | the recall loop appends exactly the specified context messages and fails exactly when the specified recall does |
| Turns.IsForget | vera_core.py:54 | `prompt.lower().startswith("/forget")`; stated by `ForgetIgnoresCase` |
| Turns.IsExit | vera_cli.py:89 | `low.startswith('/exit') or low.startswith('/quit')`, shared with assistant.py:81; stated by `VeraCli.ExitChangesNothing` |
| Turns.ForgetTurn | vera_core.py:54-59 | the `/forget` branch: delete the newest row, drop the last exchange, answer `""`; stated by `ForgetKeepsMirror` |
| Turns.NormalTurn | vera_core.py:61-78 | recall, stream `convo + temp_context + [prompt]`, and only on a complete stream clear the context, store and append; stated by `NormalTurnSucceeds` and `FailedTurnKeepsContext` |
| Turns.EngineTurn | vera_core.py:53-78 | `generate_response`: `/forget` first, otherwise a normal turn; stated by `TurnKeepsWindow` and `TurnKeepsMirror` |
| Turns.NormalTurnSucceeds | vera_core.py:61-78 | a prompt is answered exactly when recall and the stream both succeed; the answer is the joined stream of `convo + temp_context + [prompt]`; the exchange is appended, the raw pair stored and `temp_context` emptied |
| Turns.FailedTurnKeepsContext | vera_core.py:61-71 | a failed prompt changes neither window nor table, and `temp_context` keeps the old messages followed by everything recall appended |
| Turns.ContextFollowsWindow | vera_core.py:64 | the context messages sit right after the window in the generation input |
| Turns.StaleContextReachesNextTurn | vera_core.py:61-71 | the context left by a failed prompt is sent with the next prompt, right after the window |
| Turns.TurnKeepsWindow | vera_core.py:53-78 | every prompt keeps the window invariant and keeps `temp_context` made of system messages |
| Turns.ForgetIgnoresCase | vera_core.py:54-59 | `/forget` matches case-insensitively on the first seven characters and neither recalls nor calls the model |
| Turns.PairsDropLast | db.py:62-69 | dropping the last row drops the last (prompt, response) pair |
| Turns.DropNewestKeepsSuffix | vera_core.py:54-59 | removing the newest exchange and the newest row keeps the window's exchanges a suffix of the stored pairs |
| Turns.ForgetKeepsMirror | vera_core.py:54-59 | `/forget` drops the newest exchange and the newest row together, so the window's exchanges remain the newest rows |
| Turns.ExchangeKeepsMirror | vera_core.py:73-76 | an answered prompt adds the same pair to the window and the table |
| Turns.TurnKeepsMirror | vera_core.py:53-78 | on an ordered table every prompt keeps the window's exchanges equal to the newest rows |
| VeraCore.VeraEngine.constructor | vera_core.py:20-30 | seeds the window, empties the context, and rebuilds the collection from every row; a failure is swallowed |
| VeraCore.VeraEngine.Recall | vera_core.py:33-50 | `temp_context` grows by exactly the specified recalled messages; the window is unchanged |
| VeraCore.VeraEngine.GenerateResponse | vera_core.py:53-78 | window, context, table and reply are those of the specified turn; the engine invariant (window, system-only context, ordered table, mirror) is kept |
| VeraCli.HandleStepKeepsInvariant | vera_cli.py:78-93 | handling one prompt keeps the engine invariant |
| VeraCli.HandleStep | vera_cli.py:78-93 | `handle_prompt`: `/forget`, then `/exit`/`/quit` raising SystemExit, then recall and stream; stated by `HandleStepKeepsInvariant` and `ExitChangesNothing` |
| VeraCli.LineStep | vera_cli.py:119-124 | one iteration of `main`'s loop on a typed line: strip, skip a blank line, handle the prompt; stated by `HandleStepKeepsInvariant` |
| VeraCli.CliSession | vera_cli.py:112-131 | `main`'s loop over typed lines, ending at an exit command, an error or the end of input; stated by `SessionKeepsInvariant` and `StoppedSessionIgnoresLaterLines` |
| VeraCli.SessionKeepsInvariant | vera_cli.py:112-131 | however the loop ends, the engine invariant holds |
| VeraCli.StoppedSessionIgnoresLaterLines | vera_cli.py:112-131 | once an exit command or an error ends the loop, lines typed after it have no effect |
| VeraCli.ExitChangesNothing | vera_cli.py:89-90 | `/exit` or `/quit` (not a `/forget`) ends the loop with the state unchanged |
| VeraCli.Cli.constructor | vera_cli.py:20-29 | the seeded window and an empty context |
| VeraCli.Cli.StreamResponse | vera_cli.py:31-54 | on a complete stream: the joined answer, context cleared, pair stored, exchange appended, and spoken exactly when voice is on and the answer is not blank; on a failure nothing changes |
| VeraCli.Cli.Recall | vera_cli.py:57-76 | `temp_context` grows by exactly the specified recalled messages |
| VeraCli.Cli.HandlePrompt | vera_cli.py:78-93 | `/forget` first, then `/exit`/`/quit`, then a normal turn; the state is that of the specified step |
| VeraCli.Cli.HandleLine | vera_cli.py:112-124 | a stripped blank line is skipped; any other line is handled as a prompt |
| VeraCli.Cli.Run | vera_cli.py:96-131 | rebuilds the collection, then leaves exactly the state and ending of the specified session over the typed lines |
| AssistantLoop.AnswerWindow | assistant.py:26-53 | the memory message ends with the raw prompt; an answered prompt appends one exchange, keeps the window and stores the raw prompt; a failed stream leaves a dangling user message |
| AssistantLoop.Memories | assistant.py:51-52 | the memories `recall` retrieves: queries from the model, then the vector store search; stated within `AssistantTurnWindow` |
| AssistantLoop.MemoryPrompt | assistant.py:53 | `f'MEMORIES: {embeddings} \n USER PROMPT: {prompt}'`; stated by `AnswerWindow` (it ends with the raw prompt) and `EmptyMemoriesStillSent` |
| AssistantLoop.Answer | assistant.py:26-53 | the memory message appended, then the model streaming the whole window, the answer appended and the pair stored; stated by `AnswerWindow` and `EmptyMemoriesStillSent` |
| AssistantLoop.AssistantTurn | assistant.py:84-85 | `recall` then `stream_response`; stated by `AssistantTurnWindow` |
| AssistantLoop.AssistantLine | assistant.py:67-85 | one iteration of the loop: strip, skip a blank line, `/forget`, `/exit`/`/quit`, or a prompt; stated by `AssistantLineKeepsWindow` |
| AssistantLoop.AssistantSession | assistant.py:66-85 | the loop over typed lines, ending at an exit command, an error or the end of input; stated by `AssistantSessionKeepsWindow` |
| AssistantLoop.AssistantTurnWindow | assistant.py:46-54 | a failure to recall changes nothing; an answered prompt keeps the window and stores the raw prompt |
| AssistantLoop.EmptyMemoriesStillSent | assistant.py:53 | the memory message is sent even with nothing recalled, as `MEMORIES: set() \n USER PROMPT: p` |
| AssistantLoop.AssistantLineKeepsWindow | assistant.py:66-85 | a line the loop continues after keeps the window; the table stays ordered |
| AssistantLoop.AssistantSessionKeepsWindow | assistant.py:57-85 | a session ending without an error leaves a well-formed window; every session leaves the table ordered |
| AssistantLoop.Assistant.constructor | assistant.py:23 | the window holds only the system prompt |
| AssistantLoop.Assistant.Recall | assistant.py:46-54 | on success the memory message is appended to the permanent window; on failure nothing changes |
| AssistantLoop.Assistant.StreamResponse | assistant.py:26-43 | the model continues the whole window; on success the pair is stored and the answer appended; on failure nothing changes |
| AssistantLoop.Assistant.HandleLine | assistant.py:67-85 | one iteration of the loop: skip a blank line, `/forget`, `/exit`/`/quit`, or a prompt, as specified |
| AssistantLoop.Assistant.Run | assistant.py:57-85 | rebuilds the collection, then leaves exactly the state and ending of the specified session |

## Left out

- Network, processes and databases: Ollama, Chroma, FAISS, Postgres and `ast.literal_eval` are
  oracles. They are assumed to answer the same for the same input, and their internals are not
  modelled. Postgres connection failures, `print` and colours are not modelled.
- db.py's connection set-up and schema are not modelled; the table is a sequence of rows.
- Db.ConversationStore.FetchConversations: rows are assumed to come back in id order. The query
  at db.py:42 has no ORDER BY, so Postgres does not guarantee that order.
- Voice is not modelled: speech input (`listen`, `clear_audio_queue`) and speech output
  (`speak`, XTTS). The terminal programs are modelled on typed input, the path vera_cli.py takes
  when the microphone is unavailable. `Cli.StreamResponse` reports whether the answer would be
  spoken.
- The FAISS index and message cache on disk (external_rag_module.py lines 19-24 and 59-62) are
  not modelled. The Hugging Face dataset is given as the raw "Message" column.
- Model names, `tqdm` progress bars and float32 conversion are not modelled. The numpy shape
  errors that unequal embedding lengths would cause are not modelled either.
- Text.LowerChar: `str.lower()` is modelled on ASCII letters only. Other characters are left
  unchanged.
- Stream mid-failure: a stream that raises after some chunks is modelled as a failed stream.
  The partial text is discarded in both cases.
- `ast.literal_eval` replies that are not lists of strings: the parsed value is modelled as a
  list of strings, so a reply that parses to a number, a dict or a list holding non-strings is
  not modelled.
- Chroma's `add` with an id already present keeps the first record. Row ids are distinct, so
  this case never arises from the table.
- `KeyboardInterrupt` and `StopIteration` from voice input are not modelled. End of input ends
  the modelled session; in Python, `input()` raises EOFError there.
- api.py, main.py and the speech modules are not part of this model.
- Concurrency is not modelled. Each engine is used by one caller at a time, and other writers to
  the table are not modelled.
