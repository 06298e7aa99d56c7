# Second-brain retrieval and chat core, modelled in Dafny

This project models the retrieval-augmented chat pipeline of a personal
"memory" knowledge base, together with the web client's memory-list store.

- **Memory service** (`Memories`, from `src/services/memoryService.ts`). The
  memory table is the class `MemoryService`. It holds a map from id to record
  and the rows' storage order. Its methods are `CreateMemory`, `UpdateMemory`
  and `DeleteMemory`. Its read-only functions are `GetMemories`, the filtered,
  newest-first, paginated listing, and `SemanticSearch`. `SemanticSearch`
  embeds the query and asks the vector index for neighbours. It joins the
  matches to stored records, attaches each match's score and sorts by score
  with a stable sort. It renders the five best as the context. If the
  embedding or the index query fails, it falls back to the keyword listing
  with a flat score of 0.5.
- **Answer engine** (`AiService`, from `src/services/aiService.ts`). This is
  `ChatWithMemories`: retrieval with limit 8, the system prompt carrying the
  context, then the history and the user turn. Then come the generator call,
  response extraction, and citations: score above 0.7, at most five.
  `SummarizeMemories` does the same for summaries. Every generator failure
  becomes a fixed text.
- **Client store** (`ClientStore`, from `src/store/memoryStore.ts`). The class
  `MemoryStore` has the store's seven fields and one method per action. Each
  method's contract gives the whole new state as the old state with some
  fields overwritten.

External services are values, not code. The embedding service and the vector
index are the function-valued fields of `Memories.Gateways`. The text
generator is the function-valued parameter `llm`. Each answers with a success
value or a failure tag. The write methods also return the list of gateway
calls they issued, in order. That makes "which calls happen" part of their
contracts, for example "a tags-only update issues no index call". The
database's fresh id and clock are parameters of `CreateMemory`. Scores are
`real` values that are only compared and carried. Timestamps are integers.

`Sorting` holds the stable insertion sort used for both orderings, by score
and by `createdAt`. `Common` holds the record type, the `Partial<Memory>`
merge, filter, join and substring search.

Behaviours of the code that are easy to misread:

- Ties in the score sort keep the order in which the record store returned
  the rows, not the vector index's order. The sort runs over the store's
  rows.
- Re-embedding on update happens when the patch carries a non-empty title or
  content, whether or not the value changed. A patch that sets the title to
  the empty string does not re-embed.
- For chat, a generator answer made of an empty list of parts gives an empty
  response, not the apology. The summary's `||` turns the same answer into
  "Unable to generate summary.".
- The record returned by `createMemory` is the one first written, without an
  `embeddingId`, even when the stored row then receives one.

## Model

| member | source | states |
|---|---|---|
| `Memories.MemoryService.CreateMemory` | src/services/memoryService.ts:7-51 | The stored record has `tags` set to `[]` when none are given, and no `embeddingId` in the returned copy. The calls are an embedding of `title + " " + content`, then an upsert only if the embedding succeeded. The stored row gets `embeddingId = id` only when both calls succeed. A failure still returns the created record and appends the row. |
| `Memories.IndexCalls` | src/services/memoryService.ts:22-38 | (Re)indexing is an `Embed(title content)` call, then an `Upsert(id, metadata)` call exactly when the embedding succeeded. The metadata has content truncated to 1000 characters. |
| `Memories.Truncate` | src/services/memoryService.ts:34 | The metadata content is a prefix of the content, of length `min(len, 1000)`. |
| `Memories.MemoryService.UpdateMemory` | src/services/memoryService.ts:134-164 | A missing or foreign record gives `RecordNotFound`, with no change and no call. Otherwise the record becomes `Patch(old, data)` and is returned. The index calls are issued only when the patch has a non-empty title or content, and come from the updated record. A tags-only patch issues none. Embedding or upsert failures do not change the result. |
| `Memories.MemoryService.DeleteMemory` | src/services/memoryService.ts:166-188 | Unless the caller owns the record: `MemoryNotFound` and nothing changes. Otherwise the record and its row are removed, and a vector delete is issued only when `embeddingId` is non-empty. The result is `Ok` whatever that delete answers. |
| `Memories.BuildWhere` | src/services/memoryService.ts:59-70 | The conditionally built filter accepts a record exactly when it is owned by the caller, shares a tag with a non-empty tag option, and contains a non-empty search text case-insensitively in title or content. |
| `Memories.Paginate` | src/services/memoryService.ts:76-77 | The page has at most `take` elements, read from `skip` onward in order. It has exactly `min(take, len - skip)` elements when `skip < len`. With skip 0 and `len <= take` it is everything. |
| `Memories.NewestFirstPage` | src/services/memoryService.ts:72-80 | A page of the newest-first order holds only matching records, still newest first. It holds `min(take, matches - skip)` records, or none when `skip` passes every match. Its `i`-th record is the `(skip + i)`-th of the newest-first order. A first page is empty only when nothing matches. It holds the newest matches: no match left off is newer than one on it. It holds every match when they all fit. |
| `Memories.MatchingListed` | src/services/memoryService.ts:59-73 | The rows a listing counts are exactly the stored rows that meet the options. |
| `Memories.FirstPageNewest` | src/services/memoryService.ts:75-77 | Taking the front of a newest-first sequence leaves off nothing newer than what it keeps. |
| `Memories.MemoryService.GetMemories` | src/services/memoryService.ts:53-83 | Every result is a stored record that meets the options' filters. Results are ordered newest first. There are exactly `min(limit \|\| 20, total - offset)` of them, or none when the offset passes every match. The `i`-th is the `(offset + i)`-th match in newest-first order, which `Sorting.SortDesc` and `Sorting.SortDescStable` pin down. With offset 0 they are the newest matches: no match left off is newer than one on the page. `total` counts every matching record, not just the page. Every matching record is counted. With offset 0 the page is empty iff `total` is 0. A first page that holds all matches is a permutation of them. |
| `Memories.MatchScore` | src/services/memoryService.ts:109-112 | The score is that of the first index match with the id. It is 0 when that score is absent or when no match has the id. |
| `Memories.Attach` | src/services/memoryService.ts:108-113 | Each record, in its input order, carries its `MatchScore`. |
| `Memories.Block` | src/services/memoryService.ts:119 | A context block starts with the line `Title: <title>`, contains the line `Content: <content>`, and ends with the line `Tags: <tags joined by ", ">`. |
| `Memories.Blocks` | src/services/memoryService.ts:117-120 | Every memory's block occurs in the context text. The text is empty exactly when there are no memories. |
| `Memories.FallbackContext` | src/services/memoryService.ts:129 | Every memory's `title: content` line occurs in the text. The text is empty exactly when there are no memories. |
| `Memories.Ranked` | src/services/memoryService.ts:108-122 | The primary result is sorted by score, non-increasing. It has one entry per found record, each with its match score, and no other entries. Ties keep the found order. The context renders the first five only, while the full list is returned. |
| `Memories.Fallback` | src/services/memoryService.ts:126-130 | The fallback returns exactly the listed records, every score is 0.5, and the context is the `title: content` lines. |
| `Memories.MemoryService.SemanticSearch` | src/services/memoryService.ts:85-132 | If embedding and index query succeed, the result is exactly the stored records whose id the index returned, each with its match score, sorted by score. Ids with no record are dropped. Ties are in storage order. The context is built from the first five. If either call fails, the result is `GetMemories(user, {search: query, limit})` with scores 0.5 and the `title: content` context. In both cases the context is empty iff no memory is returned. |
| `Sorting.SortDesc` | src/services/memoryService.ts:114 | The output is a permutation of the input, sorted non-increasing by the key. |
| `Sorting.SortDescStable` | src/services/memoryService.ts:108-114 | For every key value, the elements with that key appear in the output in their input order (stability). |
| `AiService.SystemPrompt` | src/services/aiService.ts:22-32 | The system prompt contains the retrieval context verbatim, right after the fixed preamble. |
| `AiService.ConversationMessages` | src/services/aiService.ts:35-39 | The messages are the system turn first, every history turn in order, and the user message last. The length is the history length + 2. Only the first message is a system turn. |
| `AiService.ResponseText` | src/services/aiService.ts:49-51 | A list of parts is joined with single spaces. Non-empty text is returned as is. Absent or empty text becomes "I apologize, but I was unable to generate a response.", so a non-list answer never yields "". |
| `AiService.Relevant` | src/services/aiService.ts:54-55 | It keeps exactly the memories scoring above 0.7, every copy of each, as a subsequence of the ranking. |
| `AiService.References` | src/services/aiService.ts:54-61 | There are `min(5, #relevant)` citations. Each is `{id, title, score}` of a retrieved memory scoring above 0.7, taken in ranking order. |
| `AiService.ReferencesFollowRanking` | src/services/aiService.ts:54-61 | The citations are the projections of a subsequence of the retrieved memories. |
| `AiService.ChatWithMemories` | src/services/aiService.ts:9-71 | Retrieval uses limit 8. The generator receives the assembled messages with temperature 0.7 and 1000 tokens. On generator failure the reply is the fixed error apology with no citations. Otherwise the reply is the extracted text with `References` of the retrieved memories. There are never more than 5 citations, all scoring above 0.7. |
| `AiService.AllMemoriesContext` | src/services/aiService.ts:107-112 | The text is the blocks of the newest 50 of the caller's memories. It is empty exactly when the caller has no memories. |
| `AiService.SummaryContext` | src/services/aiService.ts:75-77 | A non-empty query takes the context from `SemanticSearch` with limit 10. Otherwise it comes from the newest-50 listing. |
| `AiService.SummaryPrompt` | src/services/aiService.ts:79-87 | The summary prompt contains the context. |
| `AiService.SummarizeMemories` | src/services/aiService.ts:73-105 | The summary is never empty. Generator failure gives "Error generating summary. Please try again." and empty output gives "Unable to generate summary.". Otherwise it is the generated text. |
| `AiService.ParisScenario` | src/services/aiService.ts:19-61 | One stored "Paris trip" memory matched at 0.85 is retrieved alone with score 0.85. The context contains "Paris trip" and "Louvre", and the citation is `{id, "Paris trip", 0.85}`. |
| `Common.Patch` | src/store/memoryStore.ts:59 | Merging a patch keeps every field the patch leaves absent and takes the patch's value for every field it carries. The empty patch changes nothing. |
| `Common.FilterMultiset` | src/services/aiService.ts:55 | Filtering keeps every copy of each element that passes and no copy of any other. |
| `Common.JoinContainsPart` | src/services/memoryService.ts:120 | Every part occurs in the joined text. |
| `ClientStore.UpdateById` | src/store/memoryStore.ts:55-64 | Length and order are kept. Entries with the id get the updates merged over them, and all others are unchanged. |
| `ClientStore.RemoveById` | src/store/memoryStore.ts:66-74 | Exactly the entries without the id remain, every copy of each, in their order. |
| `ClientStore.AddThenRemove` | src/store/memoryStore.ts:45-74 | Removing the id of a memory just put in front of a list without that id gives the list back. |
| `ClientStore.MemoryStore.constructor` | src/store/memoryStore.ts:27-35 | The initial state is an empty list, total 0, page 1, empty query and tags, not loading, no error. |
| `ClientStore.MemoryStore.SetMemories` | src/store/memoryStore.ts:42-43 | Only the list is replaced. |
| `ClientStore.MemoryStore.AddMemory` | src/store/memoryStore.ts:45-53 | The new memory is at index 0, the old list follows shifted by one, and the total grows by 1. Nothing else changes. |
| `ClientStore.MemoryStore.UpdateMemory` | src/store/memoryStore.ts:55-64 | Only the list changes, to `UpdateById`. The total is untouched. |
| `ClientStore.MemoryStore.RemoveMemory` | src/store/memoryStore.ts:66-74 | The list becomes `RemoveById`, and the total drops by exactly 1 even when nothing matched. |
| `ClientStore.MemoryStore.SetSearchQuery` | src/store/memoryStore.ts:76-77 | It sets the query and resets the page to 1. Nothing else changes. |
| `ClientStore.MemoryStore.SetSelectedTags` | src/store/memoryStore.ts:79-80 | It sets the tags and resets the page to 1. Nothing else changes. |
| `ClientStore.MemoryStore.SetCurrentPage` | src/store/memoryStore.ts:82-83 | Only the page changes. |
| `ClientStore.MemoryStore.SetLoading` | src/store/memoryStore.ts:85-86 | Only the loading flag changes. |
| `ClientStore.MemoryStore.SetError` | src/store/memoryStore.ts:88-89 | Only the error changes. |
| `ClientStore.MemoryStore.Reset` | src/store/memoryStore.ts:91-92 | It restores exactly the initial state from any state. |
| `ClientStore.ResetIdempotent` | src/store/memoryStore.ts:91-92 | A second reset leaves the state the first produced. |
| `ClientStore.AddThenRemoveRestores` | src/store/memoryStore.ts:45-74 | Adding a memory with a fresh id and then removing that id restores the whole store state, total included. |

## Left out

- The database never fails in the model. Connection and constraint errors are not modelled, so semantic search's fallback listing cannot itself fail. The only store errors are the not-found refusals.
- The two queries of a listing run concurrently through `Promise.all`; the model evaluates them one after the other.
- `Memories.MemoryService.UpdateMemory`: a patch that rewrites the primary key `id` is excluded by a requires, because the table is keyed by id.
- The `updatedAt` refresh and the `createdAt` default belong to the database schema, which is not part of this model. `CreateMemory` takes the clock as `now`, and updates leave `updatedAt` as the patch sets it.
- A lookup without `orderBy` has no order the database promises. The model fixes it as insertion order, and updates leave it unchanged. The tie order of `Memories.MemoryService.SemanticSearch` ("ties in storage order") and the order of records with equal `createdAt` in listings therefore rest on this modelling choice.
- Memories.Truncate: counts 1000 Unicode code points. JavaScript's `substring` counts UTF-16 code units, so for text with characters outside the Basic Multilingual Plane (emoji, say) the source keeps fewer characters and can split a surrogate pair.
- Case-insensitive search uses ASCII lower-casing. The database's Unicode case folding is not modelled.
- Listing limits and offsets are natural numbers. The database's handling of negative `take`/`skip` is not modelled.
- `semanticSearch`'s default `limit = 10` has no counterpart, because every caller in the core passes a limit (8 or 10).
- Embedding vectors are carried, not computed. Metadata timestamps are integers, not ISO strings. A match score can be absent but not NaN.
- The generator's multi-part content is modelled as a list of strings. The SDK's content-chunk objects are not modelled.
- A `Partial<Memory>` field present with the value `undefined` is not modelled: a patch field is either absent or carries a value.
- The SDK wrappers `src/services/pineconeService.ts` and `src/services/embeddingService.ts`, authentication, HTTP routes, request validation, the HTTP client and the store's devtools middleware are outside the model. Error logging is not modelled either.
