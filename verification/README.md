# FinWiseRAG request and interface logic, modelled in Dafny

FinWiseRAG is a document question-answering product. Users stage PDF files in a
browser panel and send them to a server that indexes them. They then ask
questions in a chat panel. The server answers from the indexed documents, or
from a web search when the documents have nothing, and returns a source text
that the client shows as a citation.

This project models the sequential logic of both ends:

- `App` (`app.dfy`): the root component's state (staged files, transcript,
  pending query, loading flag, upload status) as the class `AppState`. The two
  asynchronous handlers are split at their `await`: `StartUpload`/`ResolveUpload`
  and `StartChat`/`ResolveChat`. The start step returns what the handler
  captured (the transcript snapshot and the question). The resolve step shows
  the last-write-wins behaviour: the transcript becomes that snapshot plus one
  reply, whatever it held in between.
- `FileUpload` (`file_upload.dfy`): appending a picked batch, removing one entry
  by index with the source's index filter, and the button and status-card rules.
- `ChatInterface` (`chat_interface.dfy`): edit-truncation, suggestions, the send
  button and Enter key, the citation rule, and the `SourceBox` class with its
  expand/collapse flag.
- `Backend` (`backend.dfy`): the upload endpoint as a method with the source's
  two loops, the chat endpoint's branch and fallback logic, the final-source
  rule, and the web-search guard and formatting.
- `ChatExchange` (`exchange.dfy`): the `/chat` reply as the client receives it.
- `Text` (`text.dfy`) and `Wrappers` (`wrappers.dfy`): trimming, ASCII
  lower-casing, substring search, joining, and an `Option` type.

Every outside call is a parameter of the operation that makes it:

- whether the index exists (a `bool`);
- what retrieval returns (a string);
- what the web search did (hits, or raised);
- the language model (a function from the prompt's inputs to a completion, which may have raised or may carry no content);
- batch indexing (a function from the saved paths to a success flag and message);
- the upload directory's contents (a set of paths).

## Model

| member | source | states |
|---|---|---|
| `Text.IsSpace` | frontend/src/components/ChatInterface.jsx:144 | whitespace as `trim()` sees it (ECMAScript white space and line terminators) and as `strip()` sees it (`str.isspace`); the two differ on U+FEFF, U+001C to U+001F and U+0085 |
| `Text.Trim` | frontend/src/components/ChatInterface.jsx:144 | the result has no whitespace at either end, and it is empty exactly when every character of the input is whitespace |
| `Text.TrimIsCut` | backend/main.py:156 | the trimmed string is a slice `s[a..b]` of the input, with only whitespace before `a` and after `b` |
| `Text.TrimIdempotent` | backend/main.py:156 | trimming twice gives the same result as trimming once |
| `Text.Lower` | backend/main.py:74 | same length; each character is lower-cased on its own; no upper-case letter remains |
| `Text.Contains` | frontend/src/components/FileUpload.jsx:79 | true exactly when the pattern occurs at some position of the string |
| `Text.Join` | backend/main.py:163 | the first part is a prefix and the last part a suffix; the length is the sum of the parts plus one separator between each pair of neighbours |
| `Text.JoinSnoc` | backend/main.py:163 | joining one more part appends exactly one separator and that part, so every part appears in order with one separator between neighbours |
| `FileUpload.Picked` | frontend/src/components/FileUpload.jsx:6-11 | a non-empty batch is appended after the old files, which stay unchanged at the front; an absent selection changes nothing |
| `FileUpload.PickedAllConcatenates` | frontend/src/components/FileUpload.jsx:9 | after any series of picks the list is the old list followed by every batch in order, with no deduplication |
| `FileUpload.KeepOthers` | frontend/src/components/FileUpload.jsx:15 | the index filter drops exactly the element at the target position, and returns the list unchanged when the target is outside it |
| `FileUpload.Removed` | frontend/src/components/FileUpload.jsx:14-16 | for an index in range: one element shorter, the elements before the index unchanged, the elements after it shifted down by one; otherwise the list is unchanged |
| `FileUpload.RemoveUndoesPick` | frontend/src/components/FileUpload.jsx:9-15 | removing the entry just picked restores the previous list |
| `FileUpload.ProcessDisabled` | frontend/src/components/FileUpload.jsx:76 | the process button is disabled exactly when there is no list or it is empty |
| `FileUpload.ProcessEnablement` | frontend/src/components/FileUpload.jsx:76-77 | a non-empty pick enables the process button; removing the only file disables it |
| `FileUpload.ButtonLabel` | frontend/src/components/FileUpload.jsx:79 | the spinner shows exactly when the status contains "Indexing"; otherwise the count is the number of staged files, or 0 when there is no list |
| `FileUpload.StatusCard` | frontend/src/components/FileUpload.jsx:84-89 | no card for an empty status; a success card exactly when the status contains "Success" |
| `FileUpload.StatusCardCorrected` | frontend/src/components/FileUpload.jsx:89 | the same rule keyed to "Ready", the word the success status carries |
| `App.Reply` | frontend/src/App.jsx:60-66 | the message a resolved request adds is an ai message: the answer with its source, or the connection-error text with no source |
| `App.AppState.constructor` | frontend/src/App.jsx:8-14 | the transcript is exactly the welcome system message; no staged files, empty query, not loading, empty status |
| `App.AppState.StartUpload` | frontend/src/App.jsx:17-31 | no staged files: nothing is sent and nothing changes; otherwise the status becomes the indexing string and all staged files go out in one request; files and transcript are unchanged |
| `App.AppState.ResolveUpload` | frontend/src/App.jsx:29-37 | the status becomes the ready string on success and the failure string on failure; files, transcript, query and loading are unchanged |
| `App.AppState.StartChat` | frontend/src/App.jsx:47-53 | an empty query is a no-op; any other query, whitespace-only included, is appended as exactly one user message, the query is cleared and loading is set; the returned snapshot is the new transcript |
| `App.AppState.ResolveChat` | frontend/src/App.jsx:55-68 | the transcript becomes the send-time snapshot plus one ai message (the answer and its source, or the connection-error text with no source), discarding any change made in between; loading is false on both paths |
| `App.AppState.PickFiles` | frontend/src/components/FileUpload.jsx:9 | the staged files become `Picked` of the old files; nothing else changes |
| `App.AppState.RemoveFile` | frontend/src/components/FileUpload.jsx:15 | the staged files become `Removed` of the old files; nothing else changes |
| `App.AppState.SetQuery` | frontend/src/components/ChatInterface.jsx:141 | only the query changes |
| `App.AppState.SetMessages` | frontend/src/components/ChatInterface.jsx:58 | only the transcript changes |
| `App.SendCycle` | frontend/src/App.jsx:50-68 | a completed send started from a transcript of length n ends at length n+2: the question, then the reply; loading is false |
| `App.OverlappingSends` | frontend/src/App.jsx:50-66 | two sends in flight, resolved in order: the transcript gains both questions and only the second reply; when the replies differ, the first one appears nowhere in the added entries |
| `App.SuccessCardNeverShown` | frontend/src/components/FileUpload.jsx:89 | for every status the handlers set, the status card is not a success card |
| `App.CorrectedCardMarksReady` | frontend/src/App.jsx:33 | with the corrected rule, the success card shows exactly for the ready status |
| `App.IndexingOnlyWhileIndexing` | frontend/src/App.jsx:22-36 | among the four statuses, only the indexing status contains "Indexing" |
| `App.SpinnerWhileIndexing` | frontend/src/components/FileUpload.jsx:79 | the process button shows the spinner exactly while the status is the indexing string |
| `ChatInterface.CitationViewOf` | frontend/src/components/ChatInterface.jsx:11-39 | the shown text is always the source itself; the toggle exists exactly when the source has at least 150 characters |
| `ChatInterface.SourceBox.constructor` | frontend/src/components/ChatInterface.jsx:8 | a citation box starts collapsed |
| `ChatInterface.SourceBox.View` | frontend/src/components/ChatInterface.jsx:11-28 | the rendered text is the source |
| `ChatInterface.SourceBox.Toggle` | frontend/src/components/ChatInterface.jsx:11-32 | on a source of at least 150 characters (the only ones with a toggle button) the flag flips; the text and the presence of the toggle stay the same |
| `ChatInterface.ToggleTwice` | frontend/src/components/ChatInterface.jsx:11-32 | on a source long enough to have the toggle, clicking the toggle of a citation box twice restores its flag and its view |
| `ChatInterface.ToggleMattersOnlyWhenLong` | frontend/src/components/ChatInterface.jsx:11-39 | the flag changes the view exactly when the source has at least 150 characters |
| `ChatInterface.HandleEdit` | frontend/src/components/ChatInterface.jsx:54-59 | for any entry after the welcome message, whatever its role: the query becomes its text and the transcript becomes the entries before it (new length = index); files, loading and status are unchanged |
| `ChatInterface.ChooseSuggestion` | frontend/src/components/ChatInterface.jsx:71-77 | the query becomes the chosen suggestion; the transcript and loading are unchanged, so nothing is sent |
| `ChatInterface.ClickSend` | frontend/src/components/ChatInterface.jsx:144 | a click on the disabled button changes nothing; otherwise exactly one user message is appended, the query is cleared, loading is set and the request goes out with the new transcript as its snapshot; files and status never change |
| `ChatInterface.PressEnter` | frontend/src/components/ChatInterface.jsx:142 | Enter sends whenever the query is non-empty, whatever the button's rule says, with the same new state as an enabled click; an empty query changes nothing |
| `ChatInterface.SendDisabled` | frontend/src/components/ChatInterface.jsx:144 | the send button is disabled while loading or while the query trims to nothing |
| `ChatInterface.EditOffered` | frontend/src/components/ChatInterface.jsx:111 | the edit control is rendered for user messages only |
| `ChatInterface.CitationShown` | frontend/src/components/ChatInterface.jsx:108 | a citation box is rendered when the message has a non-empty source |
| `ChatInterface.SuggestionsShown` | frontend/src/components/ChatInterface.jsx:71 | the suggestion chips are rendered while the transcript has exactly one entry |
| `ChatInterface.EnabledSendPassesGuard` | frontend/src/components/ChatInterface.jsx:144 | an enabled send button implies a non-empty query and no request in flight |
| `ChatInterface.BlankQueryOnlyBlockedByButton` | frontend/src/components/ChatInterface.jsx:142-144 | a non-empty, whitespace-only query disables the button; it still passes the `!query` guard through Enter |
| `ChatInterface.CitationOnlyForSourcedAnswers` | frontend/src/components/ChatInterface.jsx:108-111 | a reply shows a citation exactly when it is an answer with a non-empty source; replies never offer the edit control |
| `ChatInterface.EditNeverOnWelcome` | frontend/src/components/ChatInterface.jsx:111 | the edit control is never on the first message, so the welcome message survives every edit |
| `ChatInterface.EditAndResend` | frontend/src/components/ChatInterface.jsx:54-59 | editing a question and sending it straight back leaves the transcript exactly as it was up to and including that question, drops every later entry, and sends the same question |
| `ChatInterface.SuggestionsOnlyOnFreshTranscript` | frontend/src/components/ChatInterface.jsx:71 | on any transcript that opens with the welcome message, suggestions show exactly when it holds nothing else |
| `ChatInterface.SendHidesSuggestions` | frontend/src/App.jsx:50-51 | from any state, sending a question hides the suggestions |
| `ChatInterface.ResolvedChatHidesSuggestions` | frontend/src/App.jsx:60-66 | the transcript a resolved request leaves never shows the suggestions |
| `Backend.PathJoin` | backend/main.py:46 | the file name is always a suffix of the joined path; a relative name keeps the directory as a prefix |
| `Backend.SavedPaths` | backend/main.py:44-49 | the save loop's list: one joined path per part with a non-empty name, in order |
| `Backend.Basename` | backend/main.py:65 | the result contains no separator, is a suffix of the path, and is preceded by a separator when shorter than the path |
| `Backend.BasenameOfJoined` | backend/main.py:46 | the base name of a path whose last component is a plain name is that name |
| `Backend.NothingSavedIffNoNames` | backend/main.py:44-51 | nothing is saved exactly when no part has a non-empty name; one path is saved per named part |
| `Backend.ReportedNamesAreGivenNames` | backend/main.py:65 | for plain names, the reported `filenames` are the names sent, in upload order |
| `Backend.UploadDocuments` | backend/main.py:40-65 | no named part: 400 with the fixed detail, indexing not called, disk unchanged; otherwise indexing is called on the saved paths, every saved path is removed again, and the result is a 500 with the indexing message or the message with the base names |
| `Backend.FormatHit` | backend/main.py:163 | a hit's block is "Source: ", the title, "\nSnippet: ", the snippet, "\nLink: " and the link, each at its position, and nothing else |
| `Backend.FormatResults` | backend/main.py:163 | the hit blocks joined with a blank line |
| `Backend.FormatResultsShape` | backend/main.py:162-163 | the formatted results are empty exactly when there are no hits; they begin with the first hit's block and end with the last hit's block |
| `Backend.FormatResultsAppend` | backend/main.py:163 | one more hit adds a blank line and its block at the end, so the blocks appear in hit order |
| `Backend.SkipsSearch` | backend/main.py:156 | a query is not searched when its lower-cased, stripped form is a skip word or when it has fewer than three characters after stripping |
| `Backend.SearchWeb` | backend/main.py:153-167 | a skipped query gives ""; a non-empty result implies that the search returned hits |
| `Backend.SkippedQueryIgnoresSearch` | backend/main.py:155-157 | for a skip word or a query under three non-blank characters, the result is "" whatever the search would have done |
| `Backend.SearchedQueryFormatsHits` | backend/main.py:160-163 | a searched query with hits yields their non-empty formatted text |
| `Backend.SelectSource` | backend/main.py:84-95 | document context when retrieval found any; else web results when non-empty; else no source with an empty context |
| `Backend.IsGreeting` | backend/main.py:74 | some greeting word occurs anywhere in the lower-cased, stripped question |
| `Backend.FinalSource` | backend/main.py:145-149 | web: the prefix plus the context; none: empty; document: empty when the lower-cased reply contains "information not found", the context otherwise, and no result (the source raises) when the content is null |
| `Backend.AnswerFrom` | backend/main.py:136-151 | after the source is chosen: a server error exactly when the model call raises or the final source cannot be computed; otherwise the model's content and the final source |
| `Backend.ChatWithPdf` | backend/main.py:68-151 | no index: a body with a reply and an empty source; whenever a body is returned, its source is empty, the document context, or the prefixed web results |
| `Backend.NoIndexReply` | backend/main.py:71-81 | without an index the reply is the greeting exactly when some greeting word occurs in the lower-cased, stripped question, otherwise the refusal; the source is empty |
| `Backend.ModelFailureIsServerError` | backend/main.py:136-149 | with an index, the endpoint fails exactly when the model call raises or returns no content for a document-sourced prompt; any body carries the model's content as its response |
| `Backend.GreetingMatchesInsideWords` | backend/main.py:73-74 | "hi" anywhere in a lower-case question, as in "this", makes it a greeting |
| `Backend.DocumentContextWins` | backend/main.py:84-90 | when retrieval finds context, the web search has no effect on the reply |
| `Backend.WebSourceAlwaysShown` | backend/main.py:146-147 | a web-sourced answer is a body exactly when the model call does not raise, and then carries the prefixed results, even when the reply says the information was not found or is null |
| `Backend.WebContextAnswer` | backend/main.py:84-151 | with no document context and a non-empty web result, the endpoint answers exactly when the model call does not raise, with the web result behind its prefix as the source |
| `Backend.NotFoundDropsDocumentSource` | backend/main.py:148-149 | a document-sourced answer with text carries no source when the text contains "information not found" in any letter case, and the document context otherwise |
| `Backend.SkippedSearchMeansNoSource` | backend/main.py:88-95 | with an index but no document context, a skipped query is answered from a prompt of kind none, with no source, unless the model call raises |
| `ChatExchange.Received` | frontend/src/App.jsx:56-66 | a server error is a rejected request; a body is an answer with the body's source context and response text |
| `ChatExchange.NoIndexNoCitation` | backend/main.py:71-81 | before any document is indexed, no answer shows a citation in the client |
| `ChatExchange.WebAnswerCited` | backend/main.py:146-147 | a web-sourced answer always shows a citation in the client, with a toggle exactly when prefix plus results reach 150 characters; a raising model call shows the connection error instead |

## Left out

- HTTP transport is not modelled. This covers the axios POSTs, multipart packaging, FastAPI routing and CORS. The client sees a request's result as `ChatOutcome` or as a success flag.
- The external services are parameters: the Groq model call, the DuckDuckGo search and batch indexing/retrieval. backend/rag_engine.py is not part of this model.
- The prompt text and the date in it are not modelled. `PromptInputs` keeps only what the prompt carries: the source kind, the context and the question.
- Filesystem effects are abstracted:
  - the index-existence check is a boolean;
  - the upload directory is a set of paths;
  - directory creation is not modelled;
  - a failing file write is not modelled (in the source it would surface as a server error);
  - a failing removal is not modelled (the source catches and logs it).
- `Backend.SearchWeb`: the search's `max_results=3` bound is not imposed on the hits.
- `Backend.SearchWeb`: a result entry missing a key raises in the source. The model covers this only as the `Raised` outcome.
- `alert`, `console.error` and the server's `print` calls are not modelled: they are output only.
- Rendering is not modelled. This covers markdown, icons, animations, auto-scroll, the MB size label (floating point) and the upload box's active class.
- `SourceBox` state being reset when the transcript re-renders by position is not modelled.
- `handleRemoveFile` (frontend/src/App.jsx:40-44) is not modelled as an operation. It calls an undeclared `setFile`, so it would throw before its other updates. It is also never called, because the file panel does not take that prop.
- Concurrency is modelled only through the start/resolve split. Overlapping uploads resolve in any order through `ResolveUpload`, and the last call wins.
- `Text.Lower` maps only the letters A to Z. JavaScript's `toLowerCase()` and Python's `lower()` also lower non-ASCII letters (such as "É"), which the model leaves as they are. So a non-ASCII "INFORMATION NOT FOUND" look-alike or greeting is not matched.
- String length is the number of code points, as in Python, not JavaScript's UTF-16 code units. So a citation with characters outside the BMP crosses the 150 threshold at a different point than in a browser.
- `ChatInterface.HandleEdit` requires an index of at least 1: index 0 is the welcome message, which has no edit control, and editing it would empty the transcript.
- `ChatExchange.Received`: a null `response` is stored by the client as `null` and renders as nothing; the model stores it as the empty string.
- `Backend.ChatWithPdf`: the index check (`is_index_available`, backend/main.py:35-37) and retrieval (`get_answer_context`, backend/rag_engine.py:61-75) are parameters, a `bool` and a `string`. Neither can fail in the source: `os.path.exists` answers False rather than raising, and retrieval turns every exception into "", so the parameters cover every outcome. The FAISS search behind retrieval is not modelled. A failure of the model call, or a null content on the document path, is modelled as `InternalError`.
- `App.ChatOutcome`: a response body without a `response` key renders as `undefined` in the source. The model always has a response.

## Findings

| source | as written | input that shows it | evidently intended | confidence | as-written member | corrected member |
|---|---|---|---|---|---|---|
| frontend/src/components/FileUpload.jsx:89 | the card is styled "success" only when the status contains "Success" | a successful upload sets the status to "✅ System Ready: Knowledge Base Updated" (frontend/src/App.jsx:33), which has no "Success", so the card keeps its "loading" style | the success style for the success status | high; not executed | `App.SuccessCardNeverShown` | `App.CorrectedCardMarksReady` |
