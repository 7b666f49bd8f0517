# Chat-with-PDF core: optimistic chat cache, upload status, page navigation

This project models three pieces of a web application that lets a user upload a PDF, has the PDF indexed for semantic search, and then chats with an assistant about it.

- **Chat reconciliation** (modules `ChatCache` and `ChatContext`). Sending a question does four things:
  - It backs up the input and clears it.
  - It prepends an optimistic user message to page 0 of the cached, paged conversation.
  - It reads the answer stream chunk by chunk. After every read it writes the running answer into one placeholder message whose id is `"ai-response"`.
  - If anything throws, it restores the input and writes the captured messages back under a file-id key.
  The cache is a map from exact query keys to values. The two cache updaters are pure functions. The provider's state and its mutation callbacks form the class `ChatProvider`. The read loop is a `while` loop in `OnSuccess`, proved against the function `AfterReads`.
- **Upload status** (module `UploadCore`). The middleware admits only a session user with a non-empty id. The upload-complete handler does the following:
  - It creates the file row in `PROCESSING`.
  - It awaits fetch, load, client set-up, embed-and-store and the `SUCCESS` update.
  - When any of those throws, it writes `FAILED` instead.
  The database and the vector store are fields of the class `UploadBackend`. Each external step is a success/failure parameter (`Steps`).
- **PDF page navigation** (module `PdfRenderer`). The class `PdfViewer` holds the current page, the page count, the page-field text and the rotation. Its methods are the previous and next buttons (clamped, and doing nothing when disabled), the page form with its validator, the rotate button and the load callback.

Inputs that the program gets from its environment are parameters:
- the random UUID and the timestamps (`uuid`, `now`, `clock`);
- the fetch outcome and the decoded stream chunks (`FetchResult`, `Body`);
- the session user;
- the id the database assigns;
- the outcome of each external ingestion step.

Where the system's design intent and the code differ, the model follows the code:
- On a failed send, the rollback writes the captured messages under the plain `{fileId}` key. The optimistic message still sits in the paged `{fileId, limit}` entry (see `AddMessage`).
- The captured "previous messages" are read with an input-less `getInfiniteData()`. Under exact key lookup that entry is different from the paged one, so the capture is usually empty.
- `isLoading` returns to false at the start of `onSuccess`, before any chunk arrives, not at the first chunk.
- The final, done read also runs the updater with an empty chunk. So a stream with no chunks still inserts an empty placeholder.
- The stream updater inserts a placeholder only when no page holds one yet. A completed exchange leaves its placeholder, with the `"ai-response"` id, in page 0, and the model's invalidation does not refetch. So on the next send the answer overwrites the old assistant message below the new question (`StaleSentinelOnFirstPage`). A stale placeholder on a later page takes the answer out of page 0 altogether (`StaleSentinelOnLaterPage`).
- A stream that breaks after some chunks goes through `onError`. The rollback then runs after the partial answer has been written.
- The pages go to the vector store with no per-file namespace, because that line is commented out.
- The handler awaits the whole pipeline before it resolves. The row stays in `PROCESSING` only when the `FAILED` update itself throws, and in that case the handler rejects.

## Model

| member | source | states |
|---|---|---|
| `ChatCache.AddOptimistic` | src/components/chat/ChatContext.tsx:64-91 | no cached value gives `{pages: [], pageParams: []}`; a value with no page throws; otherwise page 0's messages become the user message followed by the old ones, and page 0's cursor, every other page and `pageParams` are unchanged |
| `ChatCache.AddOptimisticAddsOneMessage` | src/components/chat/ChatContext.tsx:72-90 | the flattened conversation after the optimistic update is exactly the user message followed by the old flattened conversation |
| `ChatCache.StreamUpdate` | src/components/chat/ChatContext.tsx:134-177 | no cached value gives the empty value; otherwise only page 0's messages change: the placeholder is prepended when no page holds one, and otherwise the sentinel messages get the running text; `pageParams`, the other pages and page 0's cursor stay |
| `ChatCache.SetAiTextNoSentinel` | src/components/chat/ChatContext.tsx:156-164 | rewriting a message list with no `"ai-response"` id leaves it unchanged |
| `ChatCache.HasAiResponseIffCount` | src/components/chat/ChatContext.tsx:137-139 | the nested `some` check holds exactly when the flattened messages contain at least one sentinel id |
| `ChatCache.StreamUpdateKeepsAtMostOne` | src/components/chat/ChatContext.tsx:137-165 | one stream write keeps the number of sentinel messages at most one, and makes it exactly one when there is a page 0 |
| `ChatCache.SetAiTextTwice` | src/components/chat/ChatContext.tsx:156-164 | rewriting the sentinel texts with one answer and then another is the same as rewriting them with the second only |
| `ChatContext.CaptureReadsOnlyUnkeyed` | src/components/chat/ChatContext.tsx:57 | `PreviousMessages`, the context returned at :97, depends only on the input-less entry: a write under any other key (the paged one included) does not change it, and with no input-less entry it is empty |
| `ChatContext.Replay` | src/components/chat/ChatContext.tsx:121-178 | the value after n reads of the loop: with no reads it is the cached value; an empty cache becomes the empty value; otherwise only page 0's messages ever change, and `pageParams`, page 0's cursor and every other page stay |
| `ChatContext.AfterReads` | src/components/chat/ChatContext.tsx:121-178 | the cache after n reads of the loop: every key other than the paged one keeps exactly its entry (or its absence); after at least one read the paged key holds a paged value that differs from the old one at most in page 0's messages |
| `ChatContext.ReplayOverStaleSentinel` | src/components/chat/ChatContext.tsx:137-165 | when some page already holds a sentinel, no read inserts a placeholder: after n >= 1 reads page 0's sentinel messages hold the n-th running answer, nothing else on page 0 changes, and a sentinel is still present |
| `ChatContext.StaleSentinelOnLaterPage` | src/components/chat/ChatContext.tsx:137-165 | with a stale sentinel on a later page and none on page 0, after the optimistic insert and any reads page 0 is the question followed by the old messages, with no answer, and the stale page is unchanged |
| `ChatContext.StaleSentinelOnFirstPage` | src/components/chat/ChatContext.tsx:137-165 | with a stale sentinel heading page 0 (as a completed exchange leaves it), after the optimistic insert and n >= 1 reads page 0 is the question, then the old assistant message now holding the n-th running answer, then the rest |
| `ChatContext.SendRequest` | src/components/chat/ChatContext.tsx:36-50 | the request succeeds exactly when the response arrived with an ok status; it then returns the (possibly null) body; a non-ok status throws "Failed to send message" |
| `ChatContext.AccumulatedIsConcatenation` | src/components/chat/ChatContext.tsx:120-127 | after the k-th read the running answer is the concatenation of the first k chunks; after the final done read it is the concatenation of all chunks |
| `ChatContext.ReplayKeepsPlaceholderAtHead` | src/components/chat/ChatContext.tsx:137-173 | from a value with a page 0 and no placeholder, after n >= 1 reads page 0 is one placeholder (created at the first write, holding the n-th running answer) followed by the old messages, and nothing else has changed |
| `ChatContext.ReplayAtMostOnePlaceholder` | src/components/chat/ChatContext.tsx:121-178 | however many chunks arrive, the placeholder never appears more than once |
| `ChatContext.AnswerPrecedesQuestion` | src/components/chat/ChatContext.tsx:75-154 | from a cached value with a page 0 and no sentinel on any page (a question whose id is not the sentinel), after the optimistic insert and at least one read, page 0 begins with the assistant placeholder and then the user message; the other pages and `pageParams` are unchanged |
| `ChatContext.CompletedAnswerIsConcatenation` | src/components/chat/ChatContext.tsx:120-178 | from a cached value with a page 0 and no sentinel on any page, when the stream completes, the placeholder heading page 0 holds the concatenation of all chunks |
| `ChatContext.ChatProvider.constructor` | src/components/chat/ChatContext.tsx:27-33 | the input is empty, the provider is not loading and the backup is empty |
| `ChatContext.ChatProvider.HandleInputChange` | src/components/chat/ChatContext.tsx:192-194 | the input becomes the typed text and nothing else changes |
| `ChatContext.ChatProvider.OnMutate` | src/components/chat/ChatContext.tsx:51-99 | the backup becomes the question and the input becomes `""`; if the updater succeeds, only the paged key is rewritten with its result, loading starts, and the context carries the messages read under the input-less key; if the updater throws, the cache and the loading flag are unchanged and there is no context |
| `ChatContext.ChatProvider.OnError` | src/components/chat/ChatContext.tsx:100-103 | the input is restored from the backup, the `{fileId}` key gets the captured messages (or none), and the paged entry is untouched |
| `ChatContext.ChatProvider.OnSuccess` | src/components/chat/ChatContext.tsx:105-180 | loading stops first: the ghost log of the loading flag gains one entry per stream write, and every one is false; a null body shows a notification and leaves the cache alone; otherwise the cache after the loop is `AfterReads` of every read that ran, and the method reports a throw exactly when the stream broke |
| `ChatContext.ChatProvider.OnSettled` | src/components/chat/ChatContext.tsx:182-185 | loading stops and the file's conversation queries are invalidated |
| `ChatContext.ChatProvider.AddMessage` | src/components/chat/ChatContext.tsx:35-190 | the whole send, one case per outcome (updater throws, request fails, null body, stream completes, stream breaks): the final input, the notifications, the loading flag (always false) and the exact new cache; a failed request keeps the optimistic entry; every stream write finds loading already stopped, and there is one per read that ran |
| `UploadCore.Middleware` | src/app/api/uploadthing/core.ts:13-22 | throws "Unauthorized" exactly when the user, or the user's id, is missing or empty; otherwise returns that id as `userId` |
| `UploadCore.FileUrl` | src/app/api/uploadthing/core.ts:29-35 | the URL is the fixed storage prefix followed by the file key |
| `UploadCore.FinalStatus` | src/app/api/uploadthing/core.ts:34-73 | SUCCESS exactly when every step in the `try` succeeds; FAILED exactly when some step throws and the FAILED update succeeds; PROCESSING only when the FAILED update throws too |
| `UploadCore.StatusHistory` | src/app/api/uploadthing/core.ts:30-72 | the statuses written to a created row start with PROCESSING, and at most one more follows; it is never PROCESSING and is the `FinalStatus` |
| `UploadCore.UploadBackend.CreateFile` | src/app/api/uploadthing/core.ts:24-32 | a database failure throws and changes nothing; otherwise a new id gets exactly the given row, no other row changes, and its status is logged; an id already in use is refused too |
| `UploadCore.UploadBackend.UpdateStatus` | src/app/api/uploadthing/core.ts:55-72 | only the named row's status changes and the new status is logged; a database failure or a missing row throws and changes nothing |
| `UploadCore.UploadBackend.FromDocuments` | src/app/api/uploadthing/core.ts:50-53 | on success, all documents are stored in one call to the `quill` index; on failure nothing is stored |
| `UploadCore.UploadBackend.OnUploadComplete` | src/app/api/uploadthing/core.ts:23-73 | the new row carries the key, the name, the user id and the prefixed URL; its status is `FinalStatus`; every other row is unchanged; the pages are stored once, with no namespace and exactly when every step up to the store succeeded; the handler rejects only when the create or the FAILED update throws; the statuses logged along the way are exactly `StatusHistory`, so a poller first sees PROCESSING and then at most one change |
| `PdfRenderer.NatToDecimalInjective` | src/components/PdfRenderer.tsx:72 | different page numbers give different texts for `String(n)` (as the buttons write into the field here and at :98), so the field text determines the page |
| `PdfRenderer.ValidPageStaysValid` | src/components/PdfRenderer.tsx:37-39 | the validator `IsValidPage` accepts no page before the document has loaded, and from an accepted page neither `PrevPage` nor `NextPage` leads to a rejected one |
| `PdfRenderer.PrevPage` | src/components/PdfRenderer.tsx:71 | the new page is one less, but never below 1 |
| `PdfRenderer.NextPage` | src/components/PdfRenderer.tsx:97 | the new page is one more, but never past the page count |
| `PdfRenderer.PdfViewer.ButtonsStepByOneInRange` | src/components/PdfRenderer.tsx:69-97 | `PrevDisabled` (the test at :69) and `NextDisabled` (the test at :95): within the loaded document, "previous" is disabled exactly on page 1 and "next" exactly on the last page, and an enabled button moves by exactly one page |
| `PdfRenderer.PdfViewer.constructor` | src/components/PdfRenderer.tsx:29-51 | there is no page count yet, page 1, rotation 0 and page field `"1"` |
| `PdfRenderer.PdfViewer.OnLoadSuccess` | src/components/PdfRenderer.tsx:148-150 | the page count becomes the document's |
| `PdfRenderer.PdfViewer.ClickPrev` | src/components/PdfRenderer.tsx:66-73 | disabled at page <= 1 (nothing changes); otherwise the page becomes `PrevPage` of the old one (so at least 1), the field shows the old page minus one, which is the new page, and being in range is preserved |
| `PdfRenderer.PdfViewer.ClickNext` | src/components/PdfRenderer.tsx:92-99 | disabled with no page count or on the last page (nothing changes); otherwise the page becomes `NextPage` (so at most the count) and the field shows the old page plus one, which is the new page when the old one was in range; being in range is preserved |
| `PdfRenderer.PdfViewer.SubmitPage` | src/components/PdfRenderer.tsx:37-60 | the page is accepted exactly when `0 < p <= numPages`; an accepted page sets both the page and the field, leaving the page in range; a rejected one changes nothing |
| `PdfRenderer.PdfViewer.Rotate` | src/components/PdfRenderer.tsx:121-125 | the rotation grows by exactly 90 |

## Left out

- I/O and foreign services are parameters or opaque outcomes, not models: `fetch`, the response body reader, `TextDecoder` (chunks are already-decoded strings), `PDFLoader`, `OpenAIEmbeddings`, `getPineconeClient`, `PineconeStore`, the Prisma client, and the session lookup.
- `crypto.randomUUID()` and `new Date()` are parameters. `AddMessage` and `OnSuccess` take a sequence of timestamps, one for each updater call of the read loop.
- The query library's internals are left out:
  - `cancel()` at src/components/chat/ChatContext.tsx:55;
  - the refetch that `invalidate` starts (the model only records which file was invalidated);
  - async timing, and concurrent sends or callbacks;
  - object identity and aliasing inside the cache. In particular, the in-place assignment to `latestPage.messages` is not modelled, and `page === old.pages[0]` is modelled as "the page at index 0".
- ChatContext.ChatProvider.OnMutate: the captured messages are read from the old cache. If the input-less key and the paged key ever denoted the same entry, the in-place assignment would let the optimistic message leak into the capture. The model does not show that leak.
- Rendering, toasts (only counted), `SimpleBar`, resize detection, the `Document`/`Page` components and the load-error toast are left out.
- The zoom scale, the rendered scale and the loading flag derived from them are left out, because they are floating point.
- PdfRenderer.PdfViewer.SubmitPage: takes the typed page as the integer that `Number()` would yield. `Number()` parsing of arbitrary text is left out, and so are non-numeric and fractional input. After a submit, the field shows the decimal form of that integer, not the exact text that was typed (for example, `"07"` stays `"07"` in the code).
- Typing into the page field is not modelled. The form library keeps that text itself.
- UploadCore.UploadBackend.FromDocuments: the store is all-or-nothing. A partial upsert by the real vector store is not modelled. Embedding vectors are not modelled either: a document is its page text.
- UploadCore.UploadBackend.OnUploadComplete: the fetch is only a success or failure outcome (`Steps.fetchOk`). Which URL is fetched is not modelled; in the code it is the same prefix-plus-key URL that the row stores. The `console.log` of the error and the unused `pageAmt` are left out.
- The file-size limit of the route (`maxFileSize: "4MB"`) is enforced by the upload service and is not modelled.
- src/components/Provider.tsx, src/app/dashboard/page.tsx, src/config/stripe.ts and src/components/types/message.ts are not part of this model. The last one only gives the shape of `Message`.
- The value of `INFINITE_QUERY_LIMIT` is defined in src/config/infinite-query, which is not part of this model. It is the constructor parameter `limit`.
