# A Penny for My Thought: the journaling backend in Dafny

This project models the bookkeeping core of the journaling backend (the Python package
`backend/app`). A user chats with an assistant. Each turn may draw on context retrieved
from past conversations. A finished conversation is saved as a markdown journal file,
which is the source of truth, and its chunks are indexed in a vector collection for
semantic search. The model follows the backend's modules, one Dafny module per source
file:

| Dafny module | source | form |
|---|---|---|
| `Wrappers`, `Strings`, `Sorting` | Python built-ins the code relies on | `Option`/`Result`/`Outcome` in place of `None` and exceptions; `find`, `split`, `join`, `strip`, `lower`, `int()`; `ORDER BY` as insertion sort |
| `Models` | `models/chat.py`, `models/journal.py`, `models/errors.py` | datatypes, pydantic's field constraints as predicates, error kinds with their status codes |
| `TokenCounter` | `utils/token_counter.py` | functions over a token-count parameter `ct: string -> nat` |
| `Prompts` | `chains/prompts.py` | the context rendering loop as a method, proved equal to a function |
| `LlmService` | `services/llm_service.py` (title post-processing) | functions; the model call is an oracle |
| `VectorStorage` | `storage/vector_storage.py` | class `VectorCollection` with a `docs` map; the query response is an input |
| `RagService` | `services/rag_service.py` | the threshold filter as a function; chunking and batch assembly as loops, proved against functions |
| `ChatService` | `services/chat_service.py` | history budgeting as a function; prompt building, summarising and streaming as methods over oracles |
| `MarkdownFormatter` | `utils/markdown_formatter.py` | the `+=` formatter and the frontmatter parser as methods, proved equal to functions |
| `FileStorage` | `storage/file_storage.py` | `Sanitize` as a chain of functions; class `FileStore` with a `files` map and a newest-first `byAge` list |
| `JournalMessages` | `services/journal_service.py` (`_parse_messages_from_markdown`) | the line-by-line state machine as a method, proved equal to a fold of `Step` |
| `JournalService` | `services/journal_service.py` | class `JournalService` over a `FileStore` and a `VectorCollection` |
| `Database` | `storage/database.py` | class `JournalTable` with a journal map, an insertion-order id list and a sequence of message rows |

Everything the backend takes from outside becomes a parameter:

- The LLM: the completion, the streaming provider and the title model are functions from
  the prompt to a success or a failure. A stream is a sequence of tokens and an optional
  failure after some of them.
- The embedding model: a function from texts to vectors or a failure.
- Chroma's nearest-neighbour query: its response is an input.
- The tokenizer: the parameter `ct`.
- The clock: a parameter `now`, in whole seconds.
- The date formats (`strftime`, `isoformat`, `fromisoformat`): the `Calendar` record of
  functions.
- uuid generation: a function from an index to a hex string.

Similarity scores and thresholds are `real`.

The main results are these:

- **Markdown round trip.** Formatting a journal and parsing it back gives the title,
  session id, date, message count and duration, and the roles and contents of the
  messages, in order. This holds under the stated conditions on the fields
  (`JournalMessages.MessagesRoundTrip`, `MarkdownFormatter.FrontmatterRoundTrip`,
  `JournalService.SavedJournalReadsBack`).
- **Filename sanitiser.** Its output is non-empty and at most 50 characters. It has no
  unsafe character, no `--`, no leading or trailing hyphen and no upper-case letter, and
  sanitising is idempotent.
- **History budget.** The managed history is always a suffix of the history, optionally
  behind one summary message, and each fitting rule has its own lemma.
- **Stream grammar.** The stream is an optional `context` event, then tokens, then
  exactly one `done` or `error`. The saved reply is the concatenation of the tokens.
- **Stores.** Upsert, get, delete and list hold on the file store, the vector collection
  and the database table, with "nothing else changes" frame conditions.

Where the documented behaviour and the code disagree, the model follows the code, except
for two defects that stop the code from loading at all (listed under "## Left out"),
where it follows the evident intent:

- Retrieved contexts are returned in the order the search gave them. They are not sorted
  by score.
- `get_journal` of the markdown store counts the parsed messages. So its
  `message_count` leaves out system messages that the frontmatter count includes.
- `ChatResponse` and `ChatRequest` lack the `auto_saved` and `conversation_history`
  fields that the service and router use. Both are modelled as fields.
- `JournalMetadata` and `Journal` declare no `mode` field, so pydantic drops the `mode=`
  keyword the database store passes, and the returned records carry no mode. The model
  keeps `mode` as a field of `JournalMetadata`: the database store fills it from the
  row and the markdown store leaves it empty.

## Model

| member | source | states |
|---|---|---|
| Strings.Find | backend/app/utils/markdown_formatter.py:95-96 | the position of the first occurrence of the pattern, so no earlier position matches it; None exactly when the pattern occurs nowhere (Python `str.find`, `in`) |
| Strings.FindAt | backend/app/utils/markdown_formatter.py:95-96 | an occurrence with no earlier one is the position `find` reports |
| Strings.Split | backend/app/utils/markdown_formatter.py:94 | Python `str.split(sep)` yields at least one part |
| Strings.SplitJoin | backend/app/utils/markdown_formatter.py:94 | splitting on a character undoes joining on it, provided no part contains that character |
| Strings.ConcatAppend | backend/app/services/chat_service.py:230-236 | concatenating two token lists' texts is the text of the concatenated list |
| Strings.TrimSpec | backend/app/utils/markdown_formatter.py:97 | `strip` returns a string that neither starts nor ends with a stripped character, and it is empty exactly when every character is stripped |
| Strings.TrimLeftSpec | backend/app/utils/markdown_formatter.py:97 | the left strip is a suffix of the input; everything it removed is strippable, and what it kept starts with a character that is not |
| Strings.TrimRightSpec | backend/app/utils/markdown_formatter.py:97 | the right strip is a prefix of the input; everything it removed is strippable, and what it kept ends with a character that is not |
| Strings.TrimIdentity | backend/app/utils/markdown_formatter.py:97 | stripping a string whose ends are not strippable leaves it unchanged |
| Strings.Slice | backend/app/services/journal_service.py:283 | Python `s[lo:hi]` is no longer than the input or than `hi - lo`, and is empty when `hi <= lo` |
| Strings.LastN | backend/app/services/chat_service.py:391 | Python `s[-n:]` is the suffix of length `min(n, len(s))` |
| Strings.DropLastN | backend/app/services/chat_service.py:404 | Python `s[:-n]` followed by `s[-n:]` is `s` again |
| Strings.DigitRoundTrip | backend/app/services/journal_service.py:197 | reading back a written decimal digit gives the digit |
| Strings.DigitsOfNat | backend/app/services/journal_service.py:197 | the decimal digits written for a natural number read back as that number |
| Strings.ParseIntOfIntToString | backend/app/services/journal_service.py:197-198 | Python `int(str(i)) == i` for every integer, negative ones included |
| Strings.ParseNatural | backend/app/services/journal_service.py:197 | `int(str(i)) == i` for a non-negative integer |
| Strings.ParseNegative | backend/app/services/journal_service.py:198 | `int("-" + digits of n) == -n` |
| Strings.NatToString | backend/app/utils/markdown_formatter.py:43 | the decimal text of a number is a non-empty run of digits |
| Strings.IntToString | backend/app/utils/markdown_formatter.py:46 | the text of an integer is non-empty and has no surrounding whitespace, so `strip` keeps it |
| Strings.Lower | backend/app/storage/file_storage.py:167 | `lower()` keeps the length and lowers each character (ASCII) |
| Strings.Without | backend/app/storage/file_storage.py:131 | removing a name keeps exactly the other names, and a list of distinct names stays distinct |
| Models.StatusCodesDistinguishKinds | backend/app/models/errors.py:3-41 | LLM, storage, not-found and validation errors carry 503, 500, 404 and 422, so two errors share a code exactly when they are of the same kind |
| Models.ParseRole | backend/app/models/chat.py:12 | a role string is accepted exactly when it is "user", "assistant" or "system", and the accepted role prints back as that string |
| Models.RoleNameRoundTrip | backend/app/models/chat.py:12 | every role survives printing and reading back |
| Models.MakeChatRequest | backend/app/models/chat.py:25-32 | a request is built exactly when the message has 1 to 10000 characters, otherwise a validation error; `use_rag` defaults to true, `stream` to false and the history to empty, and the given fields are kept |
| Models.DefaultChatResponse | backend/app/models/chat.py:34-40 | a response built from a message alone has no retrieved context and empty metadata |
| Models.EventType | backend/app/models/chat.py:46 | every stream event has type "token", "context", "done" or "error" |
| TokenCounter.MakeDict | backend/app/utils/token_counter.py:63-75 | the dictionary built from a role and a content reads back that role and that content |
| TokenCounter.ToDict | backend/app/services/chat_service.py:385 | a message's dictionary form carries its role name and its content |
| TokenCounter.ToDicts | backend/app/services/chat_service.py:385 | the dictionary form of a history has one entry per message, in order |
| TokenCounter.ToDictsSuffix | backend/app/services/chat_service.py:391-393 | converting a suffix of the history gives the same suffix of the converted history |
| TokenCounter.MessagesTokens | backend/app/utils/token_counter.py:51-61 | a list of messages costs at least the overhead of 4 per message |
| TokenCounter.DictMessagesTokens | backend/app/utils/token_counter.py:77-87 | a list of dictionaries costs at least the overhead of 4 per dictionary |
| TokenCounter.MessageCostsMoreThanContent | backend/app/utils/token_counter.py:45-49 | a message's count is strictly greater than its content's count |
| TokenCounter.EmptyDictCostsOverhead | backend/app/utils/token_counter.py:73-75 | a dictionary without `role` and `content` counts both as `''` and costs exactly the overhead 4, given that the empty string costs nothing |
| TokenCounter.NoMessagesNoTokens | backend/app/utils/token_counter.py:61 | the empty list costs 0 in both forms |
| TokenCounter.DictMessagesTokensAppend | backend/app/utils/token_counter.py:87 | the dictionary count is additive over list concatenation |
| TokenCounter.MessagesTokensAppend | backend/app/utils/token_counter.py:61 | the message count is additive over list concatenation |
| TokenCounter.DictFormCountsTheSame | backend/app/utils/token_counter.py:45-49 | counting a history in dictionary form gives the same total as counting the messages |
| TokenCounter.SuffixCostsNoMore | backend/app/utils/token_counter.py:87 | a suffix of a dictionary list never costs more than the whole list |
| Prompts.Render | backend/app/chains/prompts.py:71-73 | `str.format` on a template succeeds exactly when every placeholder has a value |
| Prompts.TemplateSubstitutesOnce | backend/app/chains/prompts.py:6-12 | the system template has exactly one placeholder, `{context_instruction}`; the rendered prompt is the fixed head, then the context, then the fixed tail, and the context can be cut back out of it |
| Prompts.SessionTag | backend/app/chains/prompts.py:36-40 | the session tag is printed exactly when the metadata has a non-empty `session_id` |
| Prompts.FormatRetrievedContext | backend/app/chains/prompts.py:28-52 | the loop that grows the context string builds exactly the formatted context |
| Prompts.EntriesPrefix | backend/app/chains/prompts.py:33-41 | the entries for the first n contexts are a prefix of all the entries, so entries come in input order |
| Prompts.EntryInPlace | backend/app/chains/prompts.py:33-41 | the k-th context's entry, numbered k+1, sits right after the entries of the contexts before it |
| Prompts.EntryHoldsContent | backend/app/chains/prompts.py:41 | each entry ends with its context's content followed by a blank line |
| Prompts.EntryDateAndSession | backend/app/chains/prompts.py:35-40 | a missing date prints as "Unknown date"; a missing or empty `session_id` prints no tag; otherwise the tag shows the first 8 characters followed by "..." |
| Prompts.FormattedContextShape | backend/app/chains/prompts.py:28-50 | the formatted context is empty exactly for the empty list; otherwise it opens with the "CONTEXT FROM PAST CONVERSATIONS:" header and the intro line, and ends with the continuity instructions |
| Prompts.CreateChatPrompt | backend/app/chains/prompts.py:54-80 | exactly two messages: the system prompt rendered with the formatted context (empty when absent), then the user message itself |
| Sorting.SortBy | backend/app/storage/database.py:213-218 | the rows are a permutation of the input, sorted by the key |
| Sorting.InsertSorted | backend/app/storage/database.py:281-288 | inserting into a sorted sequence keeps it sorted |
| Sorting.SliceSorted | backend/app/storage/database.py:288 | a page cut out of a sorted sequence is sorted |
| Strings.FindExtend | backend/app/services/journal_service.py:314-315 | the first occurrence of a pattern stays the first whatever text follows, which is why `split(pat, 1)` ignores everything after it |
| LlmService.LastIndexOf | backend/app/services/llm_service.py:177 | the position `rsplit(' ', 1)` cuts at: a space with no space after it, or None when there is no space at all |
| LlmService.PostProcessTitleSpec | backend/app/services/llm_service.py:170-177 | the title is always a prefix of the quote-stripped reply; a reply within `max_length` is returned unchanged; a longer one is cut to at most `max_length` characters, at the last space inside the first `max_length` characters, or kept whole up to `max_length` when that prefix has no space |
| LlmService.QuotesStripped | backend/app/services/llm_service.py:173 | after `strip('"\'')` the title neither starts nor ends with a quote character |
| LlmService.EmptyReplyIsUntitled | backend/app/services/llm_service.py:170 | a null or empty model reply yields "Untitled" |
| LlmService.GenerateTitleFallback | backend/app/services/llm_service.py:151-186 | a failing model call yields "Untitled Conversation" instead of an error; otherwise the title is the post-processed reply, a prefix of the unquoted reply |
| VectorStorage.SimilarityScale | backend/app/storage/vector_storage.py:137 | `1 - d/2` maps distances 0, 1, 2 and 0.4 to 1, 0.5, 0 and 0.8, is strictly decreasing, and maps [0, 2] into [0, 1] |
| VectorStorage.MetadataColumn | backend/app/storage/vector_storage.py:130 | absent metadatas become one `{}` per document |
| VectorStorage.DistanceColumn | backend/app/storage/vector_storage.py:131 | absent distances become one 0.0 per document |
| VectorStorage.Min3 | backend/app/storage/vector_storage.py:133 | `zip` of three columns stops at the shortest one |
| VectorStorage.SearchResults | backend/app/storage/vector_storage.py:114-154 | a failed search yields `[]`; otherwise one result per zipped row, in order, each carrying that row's document, metadata (a missing one as `{}`) and score |
| VectorStorage.SimilaritySearch | backend/app/storage/vector_storage.py:126-148 | the zip loop builds exactly the search results |
| VectorStorage.SearchAlignsWithDocuments | backend/app/storage/vector_storage.py:128-145 | without metadatas and distances, result i is document i with metadata `{}` and score 1.0, and there are as many results as documents |
| VectorStorage.NoDocumentsNoResults | backend/app/storage/vector_storage.py:128 | an empty document list yields no results |
| VectorStorage.Batch | backend/app/storage/vector_storage.py:78-83 | the added entries are keyed by exactly the given ids, and id i holds document i, embedding i and metadata i |
| VectorStorage.VectorCollection.AddDocuments | backend/app/storage/vector_storage.py:56-89 | the batch is stored when embedding succeeds and the columns line up with distinct ids; every failure is a StorageError and leaves the collection unchanged |
| VectorStorage.VectorCollection.DeleteByMetadata | backend/app/storage/vector_storage.py:156-178 | exactly the entries whose metadata matches the filter are removed and all others are kept; a delete is issued exactly when something matched |
| VectorStorage.AddedDocumentsStored | backend/app/storage/vector_storage.py:78-83 | after an add, each new id holds its own document and metadata |
| VectorStorage.VectorCollection.constructor | backend/app/storage/vector_storage.py:19-54 | a fresh collection holds no documents |
| RagService.AboveThreshold | backend/app/services/rag_service.py:54-57 | the filter keeps every hit scoring at least the threshold, as often as it occurs, drops every other hit, and keeps the search order (a subsequence of the hits) |
| RagService.RetrieveContext | backend/app/services/rag_service.py:46-69 | a failing search yields `[]` and never an error; otherwise exactly the hits at or above the threshold |
| RagService.RetrievedIffAboveThreshold | backend/app/services/rag_service.py:54-57 | a context is retrieved exactly when it is a hit with score at least the threshold |
| RagService.SubsequenceOfRanked | backend/app/services/rag_service.py:54-57 | a subsequence of a score-ranked list is ranked and holds only elements of the list |
| RagService.RetrievalKeepsRanking | backend/app/services/rag_service.py:54-57 | the filter does not re-sort: hits that arrive ranked by score stay ranked |
| RagService.PairStarts | backend/app/services/rag_service.py:147-167 | the scan finds only user-then-assistant positions, each at least two after the previous one, and never more pairs than fit in the messages |
| RagService.ChunksAt | backend/app/services/rag_service.py:159-162 | one chunk per pair position |
| RagService.ConversationChunks | backend/app/services/rag_service.py:131-169 | at most one chunk per two messages, so an empty or one-message conversation has none |
| RagService.ChunkConversation | backend/app/services/rag_service.py:144-169 | the `while i < len - 1` loop, stepping by 2 after a pair and by 1 otherwise, builds exactly the conversation chunks |
| RagService.ChunkIsAnsweredQuestion | backend/app/services/rag_service.py:153-162 | every chunk comes from a user message directly followed by an assistant message, reads "User: u\n\nAssistant: a" and carries `[u.id, a.id]`, so no system message and no unanswered user message is in a chunk |
| RagService.ChunksInOrderDisjoint | backend/app/services/rag_service.py:164 | chunks follow conversation order and no message belongs to two chunks |
| RagService.AlternatingFullyChunked | backend/app/services/rag_service.py:147-167 | a strictly alternating user/assistant conversation yields one chunk per two messages |
| RagService.Punctuate | backend/app/services/rag_service.py:271-272 | every sentence ends in `.`, `!` or `?` after the period is put back, and a stripped sentence stays stripped and non-empty |
| RagService.PackChunk | backend/app/services/rag_service.py:263-283 | every sentence chunk is non-empty, stripped, ends a sentence, and either fits the bound or is a single sentence of the paragraph |
| RagService.ParagraphChunk | backend/app/services/rag_service.py:252-283 | every chunk of a paragraph is non-empty and stripped, and it fits the bound or is a single sentence of the paragraph |
| RagService.ChunkLongParagraph | backend/app/services/rag_service.py:262-283 | the sentence loop with its `current_chunk` accumulator produces exactly the greedy sentence packing |
| RagService.ChunkParagraph | backend/app/services/rag_service.py:253-283 | one turn of the paragraph loop adds nothing for a blank paragraph, the paragraph itself when it fits, and its sentence chunks otherwise |
| RagService.ChunkWriteContent | backend/app/services/rag_service.py:231-285 | the paragraph loop produces exactly the write-mode chunks |
| RagService.BlankContentNoChunks | backend/app/services/rag_service.py:244-245 | whitespace-only content yields no chunk |
| RagService.ShortParagraphOneChunk | backend/app/services/rag_service.py:258-259 | a stripped paragraph within the bound becomes exactly one chunk, itself |
| RagService.AllChunksAppend | backend/app/services/rag_service.py:252-283 | the chunks of two runs of paragraphs are the chunks of the first followed by those of the second, so chunks follow paragraph order |
| RagService.WriteChunksWellFormed | backend/app/services/rag_service.py:252-283 | every write-mode chunk is non-empty and stripped, and it fits the bound or is a single sentence of one paragraph |
| RagService.ConversationBatch | backend/app/services/rag_service.py:97-115 | one document, metadata and id per chunk: the chunk's content; the caller's metadata with `session_id`, `chunk_index = i` and `message_ids`; and id "{session_id}_chunk_{i}_{hex}" |
| RagService.WriteBatch | backend/app/services/rag_service.py:198-216 | the documents are the chunks; metadata i adds `session_id`, `chunk_index = i` and `content_type = write_mode`; id i is "{session_id}_write_chunk_{i}_{hex}" |
| RagService.ChunkMetadataOverridesCaller | backend/app/services/rag_service.py:105-110 | a chunk's `session_id` and `chunk_index` override the caller's values, and every other caller key is kept |
| RagService.IndexConversation | backend/app/services/rag_service.py:71-129 | with no chunks the store is not called; a failure leaves the store unchanged and raises nothing; on success the store holds exactly the chunk batch in addition to what it held |
| RagService.IndexWriteContent | backend/app/services/rag_service.py:171-229 | with blank content or no chunks the store is not called; a failure leaves it unchanged and raises nothing; on success it holds exactly the write-chunk batch in addition to what it held |
| ChatService.BuildTranscript | backend/app/services/chat_service.py:437-440 | the `+=` loop builds exactly the transcript of the messages |
| ChatService.TranscriptAppend | backend/app/services/chat_service.py:438-440 | the transcript of two runs of messages is the first transcript followed by the second |
| ChatService.TranscriptOfOne | backend/app/services/chat_service.py:439-440 | a user message reads "User: c\n\n"; every other role, system included, reads "Assistant: c\n\n" |
| ChatService.SummaryPrompt | backend/app/services/chat_service.py:443-452 | the summary request is a system instruction followed by a user message holding "Summarize this conversation:\n\n" and the transcript |
| ChatService.SummarizeMessages | backend/app/services/chat_service.py:426-461 | the summary is the model's answer to that request, its failure included |
| ChatService.SummaryMessage | backend/app/services/chat_service.py:411-413 | the summary is passed on as a system message prefixed by "Summary of earlier conversation:\n" |
| ChatService.LastNOfLastN | backend/app/services/chat_service.py:391-401 | the last 5 of the last 10 messages are the last 5 messages |
| ChatService.ManageHistoryCases | backend/app/services/chat_service.py:370-424 | an empty history gives `[]`; a history within budget is returned whole as role/content pairs; if even the last 10 cost at least the budget, the last 5; otherwise older messages exist and the result is the summary followed by the last 10, or the last 10 alone when summarising fails |
| ChatService.LastResortCase | backend/app/services/chat_service.py:398-401 | when the last 10 messages alone reach the budget, the result is the last 5 |
| ChatService.ToDictsLastN | backend/app/services/chat_service.py:391-395 | converting the last n messages equals taking the last n dictionaries |
| ChatService.SummaryCase | backend/app/services/chat_service.py:403-424 | when the last 10 fit but the whole history does not, there are older messages, and the result is the summary plus the last 10, or the last 10 alone on failure |
| ChatService.SummarisingNeedsOlderMessages | backend/app/services/chat_service.py:404-406 | when the whole history is over budget but its last 10 fit, the older part is non-empty, so the fall-through at line 424 is never reached |
| ChatService.ManagedHistoryIsSuffix | backend/app/services/chat_service.py:370-424 | the managed history is always a suffix of the history, optionally preceded by exactly one summary message |
| ChatService.LastResortSuffix | backend/app/services/chat_service.py:401 | the last-5 result is the suffix that drops everything before the last 5 |
| ChatService.SummarySuffix | backend/app/services/chat_service.py:411-422 | the summarised result is the suffix of the last 10, behind at most one summary message |
| ChatService.LatestMessageKept | backend/app/services/chat_service.py:370-424 | whatever the budget, the most recent message is kept and comes last |
| ChatService.KeptHistoryFitsBudget | backend/app/services/chat_service.py:383-424 | when the last 10 fit the budget, so does what is kept, not counting a leading summary message |
| ChatService.SystemMessage | backend/app/services/chat_service.py:315-323 | the system message carries the template rendered with the formatted context |
| ChatService.HistoryBudget | backend/app/services/chat_service.py:326-329 | the history budget is 8000 minus the system message's cost (role, content and 4 overhead), minus the current message's cost, minus the 100-token buffer |
| ChatService.BuildLlmMessages | backend/app/services/chat_service.py:289-348 | appending step by step builds exactly the prompt |
| ChatService.LlmMessagesShape | backend/app/services/chat_service.py:312-348 | the prompt is the system message, then the managed history, then `{"role": "user", "content": current}`: it always starts with the system prompt and ends with the current message |
| ChatService.FittingHistorySentWhole | backend/app/services/chat_service.py:332-337 | when the history fits the budget it is sent whole between the system prompt and the current message |
| ChatService.SendMessage | backend/app/services/chat_service.py:52-165 | retrieval is asked for exactly when `use_rag` is set, and a failing retrieval gives empty context; a failing completion fails the turn and nothing is saved; otherwise the history plus the user and assistant messages is saved, and the response carries the reply, the context, `auto_saved` as the save's outcome, and metadata with `conversation_length = len(history) + 2` |
| ChatService.TokenEvents | backend/app/services/chat_service.py:239-242 | one token event per token, in order |
| ChatService.TokenContentsAppend | backend/app/services/chat_service.py:232-242 | the token contents of two runs of events are those of the first followed by those of the second |
| ChatService.TokenContentsOfTokens | backend/app/services/chat_service.py:239-242 | the contents of the token events are the tokens |
| ChatService.ForwardTokens | backend/app/services/chat_service.py:230-242 | the token loop emits one event per token and accumulates their concatenation as the reply |
| ChatService.StreamShape | backend/app/services/chat_service.py:192-287 | an optional context event, then the token events, then one done or error event form a well-formed stream whose token contents are the tokens |
| ChatService.StreamEnds | backend/app/services/chat_service.py:204-287 | a context event can only come first, every middle event is a token, and the stream ends with its one terminal event |
| ChatService.StreamTokens | backend/app/services/chat_service.py:232-242 | only the token events contribute content |
| ChatService.StreamMessage | backend/app/services/chat_service.py:167-287 | a context event comes first exactly when retrieval was asked for and succeeded, with the retrieved contexts; every token is forwarded; a stream that fails ends with an error event and nothing is saved; otherwise the joined tokens are saved as the assistant's reply and the done event reports whether the save succeeded; the saved reply equals the concatenated token contents |
| MarkdownFormatter.FormatJournalMarkdown | backend/app/utils/markdown_formatter.py:6-75 | the formatter returns exactly frontmatter, then header, then conversation body, then footer |
| MarkdownFormatter.FormatFrontmatter | backend/app/utils/markdown_formatter.py:39-48 | the `+=` steps build exactly the frontmatter block, with the `duration` line only when a duration is given |
| MarkdownFormatter.FormatHeader | backend/app/utils/markdown_formatter.py:51-58 | the header steps build exactly the title heading, the session date, the duration line when there is a duration, and the opening of the conversation section |
| MarkdownFormatter.FormatConversation | backend/app/utils/markdown_formatter.py:61-70 | the message loop builds exactly the body |
| MarkdownFormatter.DurationExamples | backend/app/utils/markdown_formatter.py:33-36 | illustration of `DurationParts` on sample points: 125 seconds print as "2m 5s", 45 as "45s", 60 as "1m 0s" and 0 as "0s" |
| MarkdownFormatter.DurationParts | backend/app/utils/markdown_formatter.py:33-36 | with floor division by 60, a duration of at least a minute prints as "{d//60}m {d%60}s", a shorter one as "{d}s", and a negative one as "{d%60}s" alone |
| MarkdownFormatter.BodyAppend | backend/app/utils/markdown_formatter.py:62-70 | the body of two runs of messages is the first body followed by the second, so messages appear in order |
| MarkdownFormatter.BodyOfOne | backend/app/utils/markdown_formatter.py:63-70 | a system message contributes nothing; any other message contributes its labelled, timestamped block |
| MarkdownFormatter.EndsWithFooter | backend/app/utils/markdown_formatter.py:73-75 | every journal ends with "---\n\n*Journal entry automatically generated*\n" |
| MarkdownFormatter.ParseJournalMarkdown | backend/app/utils/markdown_formatter.py:77-99 | the line loop builds exactly the parsed frontmatter |
| MarkdownFormatter.ParseLinesStep | backend/app/utils/markdown_formatter.py:94-97 | one more line either adds nothing or sets its key to its value |
| MarkdownFormatter.NoFrontmatterNoMetadata | backend/app/utils/markdown_formatter.py:89-92 | content that does not start with "---", or has no second "---", parses to `{}` |
| MarkdownFormatter.LastLineWins | backend/app/utils/markdown_formatter.py:94-97 | a key maps to the value of the last line that sets it |
| MarkdownFormatter.KeyValueEntry | backend/app/utils/markdown_formatter.py:95-97 | a line "k: v" with no colon in k maps the stripped k to the stripped v, cutting at the first ": " |
| MarkdownFormatter.SectionOfJournal | backend/app/utils/markdown_formatter.py:90-93 | `split("---", 2)[1]` of a formatted journal is exactly its frontmatter text |
| MarkdownFormatter.FrontmatterLinesFacts | backend/app/utils/markdown_formatter.py:39-48 | with plain title, date and session, the frontmatter has at least four lines, none of which holds a newline or "---" |
| MarkdownFormatter.LinesParse | backend/app/utils/markdown_formatter.py:94-97 | parsing the frontmatter lines gives back title, date, session, count and duration |
| MarkdownFormatter.FrontmatterRoundTrip | backend/app/utils/markdown_formatter.py:39-97 | parsing a formatted journal gives back its title, date, session id and `message_count = len(messages)`, and a `duration` key exactly when a duration was given, provided title, session id and date hold no newline or "---" and no surrounding whitespace |
| FileStorage.RemoveUnsafe | backend/app/storage/file_storage.py:149 | removing `<>:"/\|?*` leaves no such character, never lengthens the title, and leaves a title without them unchanged |
| FileStorage.SpacesToHyphens | backend/app/storage/file_storage.py:152 | every space becomes a hyphen and every other character stays |
| FileStorage.CollapseHyphens | backend/app/storage/file_storage.py:155 | collapsing runs of hyphens leaves no "--", keeps the first character, never lengthens, and brings in no unsafe character or space |
| FileStorage.CollapseKeepsOthers | backend/app/storage/file_storage.py:155 | collapsing removes hyphens only: the other characters stay, in order |
| FileStorage.CollapseIdentity | backend/app/storage/file_storage.py:155 | a string without "--" is left unchanged |
| FileStorage.CutFacts | backend/app/storage/file_storage.py:158-161 | cutting to 50 characters and stripping hyphens gives at most 50 characters, still clean, neither starting nor ending with a hyphen |
| FileStorage.SanitizeSafe | backend/app/storage/file_storage.py:138-167 | every sanitised name is non-empty, at most 50 characters, free of `<>:"/\|?*` and spaces, free of "--", neither starts nor ends with a hyphen, and has no upper-case ASCII letter |
| FileStorage.SanitizeFixesSafeNames | backend/app/storage/file_storage.py:138-167 | a name that already has those properties sanitises to itself |
| FileStorage.SanitizeIdempotent | backend/app/storage/file_storage.py:138-167 | sanitising twice gives the same name as sanitising once |
| FileStorage.PlainTitle | backend/app/storage/file_storage.py:157-167 | a title of letters and digits sanitises to its first 50 characters, lower-cased |
| FileStorage.SanitizeLongTitle | backend/app/storage/file_storage.py:158 | illustration of `PlainTitle` on one input: 100 `A`s become 50 `a`s |
| FileStorage.TwoWords | backend/app/storage/file_storage.py:152-167 | two words separated by a space become the lower-cased words joined by a hyphen, as "Hello World" becomes "hello-world" |
| FileStorage.FramedByHyphens | backend/app/storage/file_storage.py:155-167 | a clean name framed by runs of hyphens sanitises to the lower-cased name, as "---Leading-Hyphens---" becomes "leading-hyphens" |
| FileStorage.SanitizeEmpty | backend/app/storage/file_storage.py:164-165 | the empty title becomes "untitled" |
| FileStorage.NewFileName | backend/app/storage/file_storage.py:52-54 | a new file is named by the timestamp, "_", the sanitised title and ".md" |
| FileStorage.MarkdownNames | backend/app/storage/file_storage.py:104 | the listing holds exactly the names ending in ".md" |
| FileStorage.FileStore.TargetName | backend/app/storage/file_storage.py:47-55 | a non-empty supplied filename is used as given; otherwise a new name is built |
| FileStorage.FileStore.GetJournal | backend/app/storage/file_storage.py:65-90 | an existing file's content is returned exactly; a missing file is a not-found error |
| FileStorage.FileStore.ListJournals | backend/app/storage/file_storage.py:92-112 | the listing holds each ".md" file exactly once |
| FileStorage.FileStore.SaveJournal | backend/app/storage/file_storage.py:24-63 | the target file is written with the content, and a later get returns exactly that content; every other file is unchanged; the file becomes the newest |
| FileStorage.FileStore.DeleteJournal | backend/app/storage/file_storage.py:114-136 | a missing file is a not-found error and changes nothing; otherwise the file is gone, from both get and the listing, and every other file is unchanged |
| FileStorage.MarkdownNamesKeepDistinct | backend/app/storage/file_storage.py:104-109 | a listing of distinct names has no name twice |
| FileStorage.NewFileListed | backend/app/storage/file_storage.py:104-109 | a freshly written journal is listed first |
| FileStorage.FileStore.constructor | backend/app/storage/file_storage.py:14-22 | a store over an empty directory holds no journal files |
| Database.ConnectionError | backend/app/storage/database.py:90-93 | whatever is raised inside a connection comes out as a StorageError (status 500) whose detail starts with "Database operation failed: " |
| Database.Guarded | backend/app/storage/database.py:82-96 | the connection wrapper passes results through unchanged and turns every failure into that StorageError |
| Database.Tagged | backend/app/storage/database.py:157-167 | one message row per message, in order, each tagged with the journal id |
| Database.OtherRows | backend/app/storage/database.py:146 | `DELETE FROM messages WHERE journal_id = ?` keeps exactly the rows of other journals, and unique row ids stay unique |
| Database.MessagesOf | backend/app/storage/database.py:213-218 | a journal's messages are exactly those of its rows |
| Database.MessagesOfAppend | backend/app/storage/database.py:213-218 | the messages selected from two runs of rows are those of the first followed by those of the second |
| Database.MessagesOfTagged | backend/app/storage/database.py:157-167 | the rows inserted for a journal select back exactly its messages, in order |
| Database.ReplacedRows | backend/app/storage/database.py:145-167 | after the old rows are deleted and the new ones inserted, the journal's messages are exactly the new list |
| Database.AddedRows | backend/app/storage/database.py:147-167 | inserting without deleting adds the new messages after whatever rows the journal already had |
| Database.RowMetadata | backend/app/storage/database.py:239-246 | a row reads back with `id = filename = row id` and its creation date as the date; the `mode` it carries (a null mode read as "chat") is the value passed as `mode=`, which the pydantic record drops |
| Database.JournalView | backend/app/storage/database.py:187-251 | an unknown id is a JournalNotFound error (404); a known one returns the row's metadata with its messages in ascending timestamp order, a permutation of the journal's rows, and empty raw content |
| Database.SortColumn | backend/app/storage/database.py:273-275 | only "created_at" and "updated_at" are accepted; anything else falls back to "created_at" |
| Database.RowsInOrder | backend/app/storage/database.py:282-290 | the table's rows in insertion order |
| Database.Metadatas | backend/app/storage/database.py:293-303 | one metadata record per row, in order |
| Database.PageFacts | backend/app/storage/database.py:282-305 | a page has at most `limit` rows, sorted descending by the sort column, all from the table; with no offset and at most `limit` rows the page is a permutation of the whole table; an offset past the end gives an empty page |
| Database.JournalTable.FindBySession | backend/app/storage/database.py:404-405 | the lookup finds a journal exactly when one has that session, and the one it finds has it |
| Database.JournalTable.SaveJournal | backend/app/storage/database.py:98-185 | an unseen session creates a journal whose id is the session id; a seen one keeps its id, updates title, update time, count, duration and mode, and replaces its whole message list; the journal count grows only for a new session; the stored and returned `message_count` is `len(messages)`, and duration is None for fewer than 2 messages; a message id already taken fails the save as a StorageError and changes nothing |
| Database.JournalTable.GetJournal | backend/app/storage/database.py:187-251 | the journal view, passed through the connection wrapper |
| Database.JournalTable.ListJournals | backend/app/storage/database.py:253-305 | `total` counts all journals and the page is the sorted, cut page of their metadata |
| Database.JournalTable.DeleteJournal | backend/app/storage/database.py:369-388 | an unknown id fails and changes nothing; a known one removes the journal and leaves the message rows as they are; afterwards the id reads as missing |
| Database.JournalTable.DeleteJournalCascade | backend/app/storage/database.py:369-388 | the delete the comment at line 384 describes: not-found for an unknown id; otherwise the journal and all its message rows go, and none of its messages is left |
| Database.JournalTable.GetJournalBySessionId | backend/app/storage/database.py:390-411 | None when no journal has the session; otherwise the journal view of the one that has it |
| Database.TakenIdConflicts | backend/app/storage/database.py:163-167 | a message whose id is already in use makes the save violate the primary key |
| Database.CascadeUnlinks | backend/app/storage/database.py:384-385 | after a cascading delete, no row points at the deleted journal, and every remaining row points at an existing journal |
| Database.SaveKeepsLinked | backend/app/storage/database.py:136-167 | a save keeps every message row pointing at an existing journal |
| Database.StaleRowsReturn | backend/app/storage/database.py:147-167 | when rows for the id survive from before, a new save under that id reads back more messages than it saved |
| Database.SavedMessagesReadBack | backend/app/storage/database.py:136-218 | when every row points at an existing journal, the journal saved for a session reads back exactly the saved messages |
| Database.UnknownJournalIsStorageError | backend/app/storage/database.py:82-96 | as written, `get_journal` of an unknown id comes out as StorageError (500): the JournalNotFoundError raised at line 210 is caught by the connection wrapper |
| Database.StaleMessagesExample | backend/app/storage/database.py:369-388 | as written: save session "s" with one message, delete it, save "s" again with another message; the journal reports one message but returns two |
| Database.CascadeExample | backend/app/storage/database.py:369-388 | the same steps with the cascading delete return the one new message |
| Database.JournalTable.constructor | backend/app/storage/database.py:21-30 | a store over an empty database has no journals and no message rows |
| Database.SavedThenDeleted | backend/app/storage/database.py:369-388 | as written: after saving session "s" with one message and deleting it, no journal is left but its message row still is |
| Database.MessagesOfAbsent | backend/app/storage/database.py:213-218 | a journal id that no row carries reads back no messages |
| JournalMessages.ParseMessagesFromMarkdown | backend/app/services/journal_service.py:310-365 | the line loop returns exactly the messages of the parse specification: none without a "## Conversation" section, otherwise what the per-line steps collect from the lines between the section marker and the first "---" after it, with the last open message flushed |
| JournalMessages.FlushedProper | backend/app/services/journal_service.py:329-334 | closing a message adds only user or assistant messages with non-empty content, stamped with the current time |
| JournalMessages.StepProper | backend/app/services/journal_service.py:323-355 | one line step keeps the parser's state well formed: no system role, open content lines non-blank and stripped, every collected message non-empty |
| JournalMessages.RunProper | backend/app/services/journal_service.py:323-355 | the whole loop over lines keeps that state well formed |
| JournalMessages.ParsedMessagesProper | backend/app/services/journal_service.py:310-365 | content without "## Conversation" parses to no messages; every parsed message is a user or assistant message with non-empty content and the current time as timestamp |
| JournalMessages.TurnsAppend | backend/app/services/journal_service.py:330-334 | the role and content of a concatenation of message lists is the concatenation of theirs |
| JournalMessages.MarkerRoles | backend/app/services/journal_service.py:327-341 | a line starting with a speaker's bold marker is a header line, and it is read as the user exactly when the marker is the user's |
| JournalMessages.HeaderLineStripped | backend/app/services/journal_service.py:324-341 | the header line the formatter writes for a message is, once stripped, a header line that the parser reads back as that message's role |
| JournalMessages.BlankStep | backend/app/services/journal_service.py:353 | a blank line leaves the parser's state unchanged |
| JournalMessages.BlockSteps | backend/app/services/journal_service.py:323-355 | reading the three lines the formatter writes for a single-line message (header, content, blank) closes the open message and opens that one with its content |
| JournalMessages.RunTranscript | backend/app/services/journal_service.py:323-355 | reading the lines of a whole transcript is the same as advancing once per message, and leaves the parser with one open message and nothing half read |
| JournalMessages.TurnsAfterAll | backend/app/services/journal_service.py:329-363 | after advancing over a list of stripped messages and flushing, the parser holds the earlier messages followed by exactly those messages' roles and contents |
| JournalMessages.BodyRoundTrip | backend/app/services/journal_service.py:318-363 | parsing the lines of the conversation body the formatter writes gives back the messages' roles and contents, in order |
| JournalMessages.FrontmatterAvoidsHash | backend/app/utils/markdown_formatter.py:39-48 | a frontmatter block built from '#'-free title, date and session id holds no '#', so it cannot hold the "## Conversation" marker |
| JournalMessages.FirstAfter | backend/app/services/journal_service.py:314-315 | `split(pat, 1)` on a text made of a pat-free prefix, pat and a rest gives the prefix before and exactly the rest after |
| JournalMessages.HeadingOfJournal | backend/app/services/journal_service.py:313-314 | a formatted journal holds "## Conversation", and what follows its first occurrence is exactly the conversation body and the footer |
| JournalMessages.FooterOfBody | backend/app/services/journal_service.py:315 | cutting at the first "---" removes exactly the footer from a body of transcribable messages |
| JournalMessages.ConversationOfJournal | backend/app/services/journal_service.py:313-318 | the lines the parser loops over in a formatted journal are exactly the lines of its conversation body |
| JournalMessages.MessagesRoundTrip | backend/app/services/journal_service.py:298-365 | parsing a formatted journal gives back the roles and contents of the messages it was formatted from, in order, whenever the title, session id and dates hold no '#' and every message is a single non-header, stripped line without "---" |
| JournalMessages.FooterIgnored | backend/app/services/journal_service.py:313-315 | once the conversation section holds a "---", nothing appended after it changes the parsed messages |
| JournalService.StripUtc | backend/app/services/journal_service.py:28-30 | a date text ending in " UTC" loses exactly that suffix; any other text is kept as it is |
| JournalService.StripUtcSuffix | backend/app/services/journal_service.py:16-33 | the stamp the formatter writes, a date followed by " UTC", comes back as the bare date that `fromisoformat` then reads |
| JournalService.DurationOf | backend/app/services/journal_service.py:99-103 | a conversation of two messages or more has a duration, which is the time from its first message to its last; a shorter one has none |
| JournalService.PreviewOfAppend | backend/app/services/journal_service.py:282-285 | the preview of two message lists one after the other is the preview of the first followed by that of the second |
| JournalService.GenerateJournalTitle | backend/app/services/journal_service.py:271-296 | the loop builds the preview of the first four messages line by line ("User: ..." or "Assistant: ...") and the title is what the model makes of that preview, at most 50 characters, with the fallback when the model fails |
| JournalService.PreviewIgnoresLater | backend/app/services/journal_service.py:283 | only the first four messages reach the model: messages after them do not change the preview |
| JournalService.PreviewOfShort | backend/app/services/journal_service.py:283-285 | a conversation of at most four messages is previewed whole, starting with its first message's speaker and content |
| JournalService.FailedModelTitle | backend/app/services/journal_service.py:293-296 | when the model fails the title is "Untitled Conversation" |
| JournalService.ChosenTitle | backend/app/services/journal_service.py:85-95 | choosing the title fails exactly when an update names no title and the journal file does not exist, and then with journal-not-found for that id |
| JournalService.Get | backend/app/services/journal_service.py:195 | `dict.get(key, default)`: the stored value when the key is present, the default otherwise |
| JournalService.CountField | backend/app/services/journal_service.py:197 | a missing `message_count` reads as 0 |
| JournalService.DurationField | backend/app/services/journal_service.py:198 | a missing or empty `duration` reads as no duration; a value that does not parse is the invalid-metadata error |
| JournalService.EntryFrom | backend/app/services/journal_service.py:184-204 | a file gives a listing entry exactly when its date, message count and duration all parse; the entry carries the file name as id and filename and the stored title or "Untitled" |
| JournalService.EntryAt | backend/app/services/journal_service.py:184-204 | an entry is only ever produced for a file that exists, with its name as id and filename |
| JournalService.Entries | backend/app/services/journal_service.py:183-206 | the entries of a list of names are at most as many as the names, each naming an existing file among them |
| JournalService.EntriesSnoc | backend/app/services/journal_service.py:184-204 | handling one more name appends that name's entry, if it has one, at the end |
| JournalService.EntriesAppend | backend/app/services/journal_service.py:183-204 | the entries of two lists of names one after the other are the entries of the first followed by those of the second |
| JournalService.Unindexed | backend/app/services/journal_service.py:263-265 | `delete_by_metadata({'session_id': s})` keeps exactly the documents whose metadata do not name session s, unchanged |
| JournalService.SessionOf | backend/app/services/journal_service.py:253-256 | the session a file names is only ever a non-empty one, as `if session_id:` demands |
| JournalService.JournalOf | backend/app/services/journal_service.py:223-244 | a journal read from a file carries the file's content as raw content, the file name as id and filename, and as many messages as its message count; a date or duration that does not parse is the invalid-metadata error |
| JournalService.JournalService.constructor | backend/app/services/journal_service.py:43-62 | the service works over the given file store and vector collection |
| JournalService.JournalService.SaveJournal | backend/app/services/journal_service.py:64-156 | fails exactly when choosing the title fails, and then changes nothing; otherwise the file of the chosen name holds exactly the formatted journal, becomes the newest, everything else stays, and the result describes that file; no document already in the collection is lost |
| JournalService.JournalService.WriteJournal | backend/app/services/journal_service.py:105-120 | the formatted journal is written under the file store's target name for the title, date and given file name, and becomes the newest file |
| JournalService.JournalService.IndexJournal | backend/app/services/journal_service.py:122-137 | indexing the conversation, whether or not it fails, never loses a document already in the collection |
| JournalService.JournalService.ChooseTitle | backend/app/services/journal_service.py:85-95 | the title step returns exactly the chosen title: the given one, a generated one for a new journal, the existing file's title for an update |
| JournalService.JournalService.ListJournals | backend/app/services/journal_service.py:158-206 | the total is the number of journal files; the page is the entries of the window `[offset:offset + limit]` of the newest-first names, so it has at most `limit` entries, each an existing markdown file |
| JournalService.JournalService.ReadEntry | backend/app/services/journal_service.py:185-204 | one loop step gives the file's entry, or nothing for a missing or malformed file, which the listing skips |
| JournalService.JournalService.GetJournal | backend/app/services/journal_service.py:208-244 | a missing file is journal-not-found; otherwise the result is the journal read from that file |
| JournalService.JournalService.DeleteJournal | backend/app/services/journal_service.py:246-269 | fails with journal-not-found exactly when the file is missing, and then changes nothing; otherwise the file is gone, and the documents of the session it names are removed from the collection unless it names none or the collection fails |
| JournalService.EntriesOfSlice | backend/app/services/journal_service.py:180-206 | every entry of a window of names comes from a name of the whole list that is a stored file |
| JournalService.FieldsOfSaved | backend/app/services/journal_service.py:190-199 | the frontmatter of a formatted journal reads back the title, date, message count, duration and session id it was written with |
| JournalService.ListedAsSaved | backend/app/services/journal_service.py:184-204 | a journal that was saved is listed with the title, date, message count and duration it was saved with |
| JournalService.TurnsOfSpoken | backend/app/services/journal_service.py:238 | a list of user and assistant messages keeps every one of its messages when reduced to roles and contents |
| JournalService.SavedJournalReadsBack | backend/app/services/journal_service.py:208-244 | reading a saved journal gives back its title, date and duration and the roles and contents of its messages in order, with a message count equal to the number of those messages |
| JournalService.UpdateKeepsTitle | backend/app/services/journal_service.py:91-95 | an update without a title keeps the title already in the file |
| JournalService.NewJournalTitled | backend/app/services/journal_service.py:89-90 | a new journal without a title always gets one, "Untitled Conversation" when the model fails |
| JournalService.DeleteRemovesIndexedChunks | backend/app/services/journal_service.py:263-265 | deleting by session removes every conversation chunk indexed for that session |
| JournalService.SavedSessionNamed | backend/app/services/journal_service.py:253-256 | a saved journal names the session it was saved for, so deleting it reaches that session's documents |
| JournalService.NewestFirst | backend/app/services/journal_service.py:175-180 | the most recently written file, when it parses, is the first entry of the first page |

## Left out

- The LLM and embedding clients (`complete`, `stream_complete`, the embedding manager and the LangChain chains) are network clients. They are oracle parameters.
- The tenacity retry and backoff decorators and the shared async client are library behaviour and timing.
- tiktoken's encoding is the uninterpreted parameter `ct`. `ct("") == 0` is required where a lemma needs it.
- Chroma's HNSW index, cosine metric and persistence are not modelled. The query response and the collection contents are inputs.
- VectorStorage.VectorCollection.constructor: starts from an empty collection. `get_or_create_collection` may reopen a persisted one, whose contents the model does not know.
- A Chroma failure during the delete in `delete_journal` is the boolean parameter `vectorFails`.
- SQLite specifics are not modelled:
  - the schema DDL and the migration (`database.py:32-80`);
  - the connection, commit and rollback handling;
  - JSON serialisation of metadata.
- The unreachable block after the `return` in `list_journals` (`database.py:307-367`) is not modelled. It uses undefined names.
- A `mode` string outside `chat` and `write` cannot be stored, because `Mode` has two values. A null `mode` reads as `chat`.
- Filesystem concerns are not modelled:
  - `mkdir`;
  - I/O errors;
  - `_validate_file_path`, which depends on the operating system's `resolve()`;
  - the encoding of the em-dash separator, which is a constant.
- Prompts.SessionTag: a non-zero integer `session_id` in a retrieved context's metadata would make `session_id[:8]` raise TypeError in the source and fail the chat turn; the model prints no tag for it. The backend only ever stores string session ids.
- Models.Message: `models/chat.py:14` writes `Field(default_factory=datetime.now(datetime.timezone.utc))`. `datetime` there is the class, which has no `timezone` attribute, so defining `Message` raises AttributeError and `app.models` does not import. Even with `timezone` imported, the argument is a datetime value rather than a callable, so every `Message(...)` without a timestamp would raise. The model follows the intent, `default_factory=lambda: datetime.now(timezone.utc)`: new messages get the current time, passed in as `ChatService.Stamps`.
- Prompts.CreateChatPrompt: `chains/prompts.py:54` annotates the result as `List[Dict[str, str]]`, but line 1 imports only `List` and there is no `from __future__ import annotations`, so importing the module raises NameError, and `chat_service.py`, which imports it, fails too. The model follows the intent, `from typing import Dict, List`.
- FileStorage.FileStore.constructor: starts from an empty directory. `mkdir(parents=True, exist_ok=True)` (file_storage.py:22) reopens a directory that may already hold journals, whose contents the model does not know. The methods' contracts hold on any valid store.
- Database.JournalTable.constructor: starts from an empty database. `CREATE TABLE IF NOT EXISTS` (database.py:32-80) reopens an existing database, whose journals and message rows the model does not know. Such a database may hold message rows of deleted journals (see the delete finding below), so the linked-rows invariant `Referential` that the constructor promises need not hold on reopen. The method contracts that rely on it take it as a hypothesis (`old(Referential()) ==> ...`).
- FileStorage.FileStore.ListJournals: orders by write order (`byAge`), not by file modification time. The two agree as long as files change only through the store.
- Dates and times are integer seconds. All formatting and parsing goes through the `Calendar` record, so sub-second timestamps, time zones and the exact `strftime` patterns are not modelled.
- `time.time()` latency metrics are not modelled.
- uuids for message and chunk ids come from a parameter. Only the `"{session_id}_chunk_{i}_"` and `"{session_id}_write_chunk_{i}_"` prefixes are stated.
- The message parser stamps every parsed message with `now` and draws message ids from a parameter, as the source does with `datetime.now()` and uuids.
- JournalMessages.MessagesRoundTrip: only covers messages whose content is one stripped line. That line must not start with a speaker marker or hold "---". The title, session id and dates must also be free of '#'. Multi-line contents are re-joined by the parser and are not claimed to survive.
- JournalService.SavedJournalReadsBack: same conditions as `MessagesRoundTrip`, plus frontmatter values without outer spaces or newlines, and a calendar that reads its own timestamp back.
- `Strings.Lower` lowers ASCII letters only. Unicode case mapping is not modelled.
- `Strings.ParseInt` accepts what `int()` accepts on ASCII digits, with surrounding whitespace and a sign. Underscores between digits and non-ASCII digits are not modelled.
- A `ValueError` from `fromisoformat` or `int()` in `get_journal` is the error `StorageError("Invalid journal metadata")`. The service turns such errors into status 500.
- The `except` around retrieval in `send_message` and `stream_message` is modelled as written. `retrieve_context` itself never raises, so that branch is reachable only through the retrieval oracle.
- FileStorage.Sanitize: the two concrete examples "Hello World" and "---Leading-Hyphens---" are covered only by the general lemmas `TwoWords` and `FramedByHyphens`. The lemmas applied to these literals are too costly for the verifier.
- JournalService.JournalService.IndexJournal: states only that no existing document is lost. What `index_conversation` adds is stated by `RagService.IndexConversation`.
- The FastAPI routers, SSE framing, middleware, dependency wiring and configuration are HTTP plumbing and not modelled. This includes the router methods that call service methods which do not exist.
- async/await is not modelled. Every operation runs to completion in sequence.
- Logging is not modelled.

## Findings

| source | as written | input that shows it | evidently intended | confidence | as-written member | corrected member |
|---|---|---|---|---|---|---|
| backend/app/storage/database.py:82-96 | `get_journal` raises `JournalNotFoundError` (line 210) inside the `with self._get_connection()` block. The wrapper's `except Exception` turns it into `StorageError("Database operation failed: ...")`, which is status 500. `delete_journal` has the same problem (lines 379-380). | `get_journal("missing")` on an empty table | a not-found error with status 404, as `JournalNotFoundError` is raised for | not executed | Database.UnknownJournalIsStorageError | Database.JournalView |
| backend/app/storage/database.py:384, 87-88 | `delete_journal` deletes only the journal row and relies on `ON DELETE CASCADE`. The connection never runs `PRAGMA foreign_keys = ON`, so the message rows stay. When a journal with the same session is saved later, it is a new journal with `id = session_id`, and it reads the old rows back as its own. | save session "s" with one message, delete "s", then save "s" with another message: `get_journal("s")` reports `message_count` 1 but returns two messages | deleting a journal also deletes its messages, as the comment at line 384 says | not executed | Database.StaleMessagesExample | Database.JournalTable.DeleteJournalCascade |
