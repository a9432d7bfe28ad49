/** The server's request logic: the upload endpoint (skip nameless parts,
    save, index, clean up, report), the chat endpoint (greeting or refusal
    without an index; otherwise document context, then web results, then
    nothing, and the source shown with the answer) and the web search guard
    and formatting. Every outside call (the index on disk, retrieval, the web
    search, the language model, batch indexing) is a parameter. */
module Backend {
  import opened Wrappers
  import opened Text

  // ---------------------------------------------------------------- upload

  const UploadDir: string := "uploads"
  const NoFilesDetail: string := "No files were uploaded or files were empty."

  /** One multipart part; its file name may be missing. */
  datatype UploadFile = UploadFile(filename: Option<string>)

  /** What batch indexing reports: success flag and message. */
  datatype BatchOutcome = BatchOutcome(success: bool, message: string)

  datatype UploadResponse =
    | Uploaded(message: string, filenames: seq<string>)
    | HttpError(status: nat, detail: string)

  /** `os.path.join(dir, name)` on POSIX: an absolute name replaces the
      directory, otherwise one separator is put between them. */
  function PathJoin(dir: string, name: string): (r: string)
    ensures |name| <= |r| && r[|r| - |name|..] == name
    ensures (name == [] || name[0] != '/') ==> |dir| <= |r| && r[..|dir|] == dir
  {
    if |name| > 0 && name[0] == '/' then name
    else if dir == [] || dir[|dir| - 1] == '/' then dir + name
    else dir + "/" + name
  }

  /** `os.path.basename(path)`: everything after the last separator. */
  function Basename(path: string): (r: string)
    ensures '/' !in r
    ensures |r| <= |path| && r == path[|path| - |r|..]
    ensures |r| < |path| ==> path[|path| - |r| - 1] == '/'
  {
    if path == [] || path[|path| - 1] == '/' then []
    else Basename(path[..|path| - 1]) + [path[|path| - 1]]
  }

  /** The base name of a path whose last component is `name` is `name`. */
  lemma {:induction false} BasenameOfJoined(dir: string, name: string)
    requires '/' !in name
    ensures Basename(dir + "/" + name) == name
    decreases |name|
  {
    var p := dir + "/" + name;
    if name != [] {
      var init := name[..|name| - 1];
      assert p[..|p| - 1] == dir + "/" + init;
      BasenameOfJoined(dir, init);
      assert init + [name[|name| - 1]] == name;
    }
  }

  /** A part is saved when its file name is present and non-empty. */
  predicate HasName(f: UploadFile) {
    f.filename.Some? && f.filename.value != ""
  }

  /** `saved_file_paths` after the save loop has seen `files`. */
  function SavedPaths(files: seq<UploadFile>): seq<string> {
    if files == [] then []
    else
      var last := files[|files| - 1];
      SavedPaths(files[..|files| - 1]) + (if HasName(last) then [PathJoin(UploadDir, last.filename.value)] else [])
  }

  /** The non-empty file names the client sent, in order. */
  function GivenNames(files: seq<UploadFile>): seq<string> {
    if files == [] then []
    else
      var last := files[|files| - 1];
      GivenNames(files[..|files| - 1]) + (if HasName(last) then [last.filename.value] else [])
  }

  function Basenames(paths: seq<string>): seq<string> {
    seq(|paths|, i requires 0 <= i < |paths| => Basename(paths[i]))
  }

  /** Parts without a name are skipped: nothing is saved exactly when no part
      has a name. */
  lemma {:induction false} NothingSavedIffNoNames(files: seq<UploadFile>)
    ensures SavedPaths(files) == [] <==> forall i :: 0 <= i < |files| ==> !HasName(files[i])
    ensures |SavedPaths(files)| == |GivenNames(files)|
  {
    if files != [] {
      var init := files[..|files| - 1];
      var last := files[|files| - 1];
      NothingSavedIffNoNames(init);
      assert forall i :: 0 <= i < |init| ==> init[i] == files[i];
      var lastPaths := if HasName(last) then [PathJoin(UploadDir, last.filename.value)] else [];
      var lastNames := if HasName(last) then [last.filename.value] else [];
      assert SavedPaths(files) == SavedPaths(init) + lastPaths;
      assert GivenNames(files) == GivenNames(init) + lastNames;
      assert |lastPaths| == |lastNames|;
    }
  }

  /** For plain file names (no directory part), the names the endpoint
      reports are exactly the names sent, in upload order. */
  lemma {:induction false} ReportedNamesAreGivenNames(files: seq<UploadFile>)
    requires forall i :: 0 <= i < |files| && HasName(files[i]) ==> '/' !in files[i].filename.value
    ensures Basenames(SavedPaths(files)) == GivenNames(files)
  {
    if files != [] {
      var init := files[..|files| - 1];
      var last := files[|files| - 1];
      assert forall i :: 0 <= i < |init| ==> init[i] == files[i];
      ReportedNamesAreGivenNames(init);
      var lastPaths := if HasName(last) then [PathJoin(UploadDir, last.filename.value)] else [];
      var lastNames := if HasName(last) then [last.filename.value] else [];
      assert SavedPaths(files) == SavedPaths(init) + lastPaths;
      assert GivenNames(files) == GivenNames(init) + lastNames;
      BasenamesAppend(SavedPaths(init), lastPaths);
      if HasName(last) {
        var name := last.filename.value;
        assert PathJoin(UploadDir, name) == UploadDir + "/" + name;
        BasenameOfJoined(UploadDir, name);
        assert Basenames(lastPaths) == lastNames;
      }
    }
  }

  lemma BasenamesAppend(a: seq<string>, b: seq<string>)
    ensures Basenames(a + b) == Basenames(a) + Basenames(b)
  {
  }

  /** `upload_documents`. `process` stands for batch indexing and `disk` for
      the upload directory's contents before the request. Parts without a name
      are skipped; with nothing saved the answer is a 400 and indexing is not
      run; otherwise indexing runs on the saved paths, every saved file is
      removed again whatever the result, and a failed indexing is a 500 with
      its message. `indexed` is the argument indexing was called with. */
  method UploadDocuments(files: seq<UploadFile>, process: seq<string> -> BatchOutcome, disk: set<string>)
    returns (response: UploadResponse, indexed: Option<seq<string>>, diskAfter: set<string>)
    ensures SavedPaths(files) == [] ==>
      response == HttpError(400, NoFilesDetail) && indexed == None && diskAfter == disk
    ensures SavedPaths(files) != [] ==>
      && indexed == Some(SavedPaths(files))
      && diskAfter == disk - set p | p in SavedPaths(files)
      && response == (if process(SavedPaths(files)).success
                      then Uploaded(process(SavedPaths(files)).message, Basenames(SavedPaths(files)))
                      else HttpError(500, process(SavedPaths(files)).message))
  {
    var saved: seq<string> := [];
    var onDisk := disk;
    for i := 0 to |files|
      invariant saved == SavedPaths(files[..i])
      invariant onDisk == disk + set p | p in saved
    {
      assert files[..i + 1][..i] == files[..i];
      var file := files[i];
      if file.filename.Some? && file.filename.value != "" {
        var location := PathJoin(UploadDir, file.filename.value);
        onDisk := onDisk + {location};
        saved := saved + [location];
      }
    }
    assert files[..|files|] == files;
    if saved == [] {
      return HttpError(400, NoFilesDetail), None, disk;
    }
    indexed := Some(saved);
    var outcome := process(saved);
    for j := 0 to |saved|
      invariant onDisk == (disk + set p | p in saved) - set p | p in saved[..j]
    {
      assert saved[..j + 1] == saved[..j] + [saved[j]];
      onDisk := onDisk - {saved[j]};
    }
    assert saved[..|saved|] == saved;
    diskAfter := onDisk;
    if !outcome.success {
      return HttpError(500, outcome.message), indexed, diskAfter;
    }
    response := Uploaded(outcome.message, Basenames(saved));
  }

  // ------------------------------------------------------------ web search

  const SkipWords: seq<string> := ["hello", "hi", "hey", "thanks", "ok", "bye"]

  /** One search result. */
  datatype SearchHit = SearchHit(title: string, body: string, href: string)

  /** What the search call did: returned hits (possibly none) or raised. */
  datatype SearchOutcome = Hits(hits: seq<SearchHit>) | Raised

  /** The guard of `search_web`: a bare skip word or fewer than three
      non-blank characters is not searched. */
  predicate SkipsSearch(query: string) {
    Trim(Python, Lower(query)) in SkipWords || |Trim(Python, query)| < 3
  }

  function FormatHit(h: SearchHit): (r: string)
    ensures |r| == |h.title| + |h.body| + |h.href| + 25 && r[..8] == "Source: "
    ensures r[8..8 + |h.title|] == h.title
    ensures r[8 + |h.title|..18 + |h.title|] == "\nSnippet: "
    ensures r[18 + |h.title|..18 + |h.title| + |h.body|] == h.body
    ensures r[18 + |h.title| + |h.body|..] == "\nLink: " + h.href
  {
    var head := "Source: " + h.title;
    var middle := head + "\nSnippet: " + h.body;
    var r := middle + "\nLink: " + h.href;
    assert r[..|middle|] == middle && r[|middle|..] == "\nLink: " + h.href;
    assert middle[..|head|] == head && middle[|head|..|head| + 10] == "\nSnippet: ";
    assert middle[|head| + 10..] == h.body;
    assert head[..8] == "Source: " && head[8..] == h.title;
    r
  }

  /** One block per hit, in order. */
  function HitBlocks(hits: seq<SearchHit>): seq<string> {
    seq(|hits|, i requires 0 <= i < |hits| => FormatHit(hits[i]))
  }

  /** The hits as Source/Snippet/Link blocks separated by blank lines. */
  function FormatResults(hits: seq<SearchHit>): string {
    Join("\n\n", HitBlocks(hits))
  }

  /** The formatted results are empty exactly when there are no hits, and
      they open with the first hit's block. */
  lemma FormatResultsShape(hits: seq<SearchHit>)
    ensures FormatResults(hits) == "" <==> hits == []
    ensures hits != [] ==> FormatResults(hits)[..|FormatHit(hits[0])|] == FormatHit(hits[0])
    ensures hits != [] ==> FormatResults(hits)[|FormatResults(hits)| - |FormatHit(hits[|hits| - 1])|..] == FormatHit(hits[|hits| - 1])
  {
    var blocks := HitBlocks(hits);
    if hits != [] {
      assert blocks[0] == FormatHit(hits[0]);
      assert blocks[|blocks| - 1] == FormatHit(hits[|hits| - 1]);
      assert |FormatHit(hits[0])| > 0;
    }
  }

  /** `search_web`: "" when skipped, when the search raised and when it found
      nothing; the formatted results otherwise. */
  function SearchWeb(query: string, search: SearchOutcome): (r: string)
    ensures SkipsSearch(query) ==> r == ""
    ensures r != "" ==> search.Hits? && search.hits != []
  {
    if SkipsSearch(query) then ""
    else match search
      case Raised => ""
      case Hits(hits) => if hits == [] then "" else FormatResults(hits)
  }

  /** A skipped query does not depend on the search at all: it is never
      made. */
  lemma SkippedQueryIgnoresSearch(query: string, a: SearchOutcome, b: SearchOutcome)
    requires SkipsSearch(query)
    ensures SearchWeb(query, a) == SearchWeb(query, b) == ""
  {
  }

  /** The blocks appear in hit order: one more hit adds a blank line and its
      block at the end. */
  lemma FormatResultsAppend(hits: seq<SearchHit>, h: SearchHit)
    requires hits != []
    ensures FormatResults(hits + [h]) == FormatResults(hits) + "\n\n" + FormatHit(h)
  {
    assert HitBlocks(hits + [h]) == HitBlocks(hits) + [FormatHit(h)];
    JoinSnoc("\n\n", HitBlocks(hits), FormatHit(h));
  }

  /** A query that is searched and finds something yields the formatted
      hits, which are never empty. */
  lemma SearchedQueryFormatsHits(query: string, hits: seq<SearchHit>)
    requires !SkipsSearch(query) && hits != []
    ensures SearchWeb(query, Hits(hits)) == FormatResults(hits) != ""
  {
    FormatResultsShape(hits);
  }

  // ------------------------------------------------------------------ chat

  const GreetingWords: seq<string> :=
    ["hello", "hi", "hey", "good morning", "thanks", "thank you", "ok", "bye"]
  const GreetingReply: string :=
    "Hello! I am FinRAG, ready to analyze your documents. Please upload a PDF file first to begin."
  const RefusalReply: string :=
    "I cannot answer your question yet. Please upload a PDF file to the sidebar first to build the document knowledge base."
  const WebPrefix: string := "\U{1F310} **Fetched from Web:**\n"
  const NotFoundMarker: string := "information not found"

  datatype SourceKind = DocumentSource | WebSource | NoSource

  /** What the prompt carries to the model, beyond fixed wording and the
      date. */
  datatype PromptInputs = PromptInputs(kind: SourceKind, context: string, question: string)

  /** What the language-model call did: it raised, or it returned a message
      whose content may be null. */
  datatype Completion = CallFailed | Completed(content: Option<string>)

  /** The JSON body of a successful reply; `response` is null when the model
      returned no content. */
  datatype ChatReply = ChatReply(response: Option<string>, sourceContext: string)

  /** What the endpoint produces: a body, or an uncaught exception, which the
      framework answers with status 500. */
  datatype ChatResult = Ok(reply: ChatReply) | InternalError

  /** Some greeting word occurs anywhere in the lower-cased, stripped
      question (as a substring, not as a word). */
  predicate IsGreeting(question: string) {
    exists k :: 0 <= k < |GreetingWords| && Contains(Trim(Python, Lower(question)), GreetingWords[k])
  }

  /** The context the model gets and where it came from. */
  datatype Selection = Selection(kind: SourceKind, context: string)

  /** Document context if retrieval found any; else web results if the web
      search found any; else nothing. The web is searched only in the first
      fallback. */
  function SelectSource(question: string, documentContext: string, search: SearchOutcome): (s: Selection)
    ensures documentContext != "" ==> s == Selection(DocumentSource, documentContext)
    ensures documentContext == "" && SearchWeb(question, search) != "" ==>
      s == Selection(WebSource, SearchWeb(question, search))
    ensures documentContext == "" && SearchWeb(question, search) == "" ==> s == Selection(NoSource, "")
  {
    if documentContext != "" then Selection(DocumentSource, documentContext)
    else
      var web := SearchWeb(question, search);
      if web != "" then Selection(WebSource, web) else Selection(NoSource, "")
  }

  /** The source context sent back with the answer, or None where the
      source raises: only the document branch reads the content, and a null
      content has no `lower()`. */
  function FinalSource(kind: SourceKind, context: string, response: Option<string>): (r: Option<string>)
    ensures kind == WebSource ==> r == Some(WebPrefix + context)
    ensures kind == NoSource ==> r == Some("")
    ensures kind == DocumentSource ==> (r.None? <==> response.None?)
    ensures kind == DocumentSource && response.Some? ==>
      r == Some(if Contains(Lower(response.value), NotFoundMarker) then "" else context)
  {
    if kind == WebSource then Some(WebPrefix + context)
    else if kind == NoSource then Some("")
    else if response.None? then None
    else if Contains(Lower(response.value), NotFoundMarker) then Some("")
    else Some(context)
  }

  /** The indexed path after the source is chosen: one model call, then the
      final source; the endpoint fails if the call raises or if the final
      source cannot be computed. */
  function AnswerFrom(sel: Selection, question: string, generate: PromptInputs -> Completion): (r: ChatResult)
    ensures var c := generate(PromptInputs(sel.kind, sel.context, question));
      && (r == InternalError <==> c.CallFailed? || FinalSource(sel.kind, sel.context, c.content).None?)
      && (r.Ok? ==> r.reply.response == c.content &&
                    Some(r.reply.sourceContext) == FinalSource(sel.kind, sel.context, c.content))
  {
    match generate(PromptInputs(sel.kind, sel.context, question))
    case CallFailed => InternalError
    case Completed(content) =>
      var source := FinalSource(sel.kind, sel.context, content);
      if source.None? then InternalError else Ok(ChatReply(content, source.value))
  }

  /** `chat_with_pdf`. `indexAvailable` is whether the index exists,
      `documentContext` what retrieval returns for the question, `search` what
      the web search does, and `generate` what the model call does with a
      prompt. */
  function ChatWithPdf(question: string, indexAvailable: bool, documentContext: string,
                       search: SearchOutcome, generate: PromptInputs -> Completion): (r: ChatResult)
    ensures !indexAvailable ==> r.Ok? && r.reply.sourceContext == "" && r.reply.response.Some?
    ensures r.Ok? ==>
      || r.reply.sourceContext == ""
      || r.reply.sourceContext == documentContext
      || r.reply.sourceContext == WebPrefix + SearchWeb(question, search)
  {
    if !indexAvailable then
      Ok(ChatReply(Some(if IsGreeting(question) then GreetingReply else RefusalReply), ""))
    else
      var sel := SelectSource(question, documentContext, search);
      assert sel.kind == DocumentSource ==> sel.context == documentContext;
      assert sel.kind == WebSource ==> sel.context == SearchWeb(question, search);
      AnswerFrom(sel, question, generate)
  }

  /** Without an index the model is never asked: a greeting gets the greeting
      and everything else the refusal, both without a source. */
  lemma NoIndexReply(question: string, documentContext: string, search: SearchOutcome, generate: PromptInputs -> Completion)
    ensures var r := ChatWithPdf(question, false, documentContext, search, generate);
      && r.Ok? && r.reply.sourceContext == ""
      && (r.reply.response == Some(GreetingReply) <==> IsGreeting(question))
      && (r.reply.response == Some(RefusalReply) <==> !IsGreeting(question))
  {
    assert |GreetingReply| != |RefusalReply|;
  }

  /** With an index, the endpoint fails exactly when the model call raises,
      or when it returns no content for a document-sourced prompt; a null
      content with web or no source is passed on as a null response. */
  lemma ModelFailureIsServerError(question: string, documentContext: string, search: SearchOutcome,
                                  generate: PromptInputs -> Completion)
    ensures var sel := SelectSource(question, documentContext, search);
      var c := generate(PromptInputs(sel.kind, sel.context, question));
      var r := ChatWithPdf(question, true, documentContext, search, generate);
      && (r == InternalError <==> c.CallFailed? || (sel.kind == DocumentSource && c.content.None?))
      && (r.Ok? ==> r.reply.response == c.content)
  {
  }

  /** Greeting detection matches inside words: with no index, any
      lower-case question in which "hi" occurs, as in "what is this?", gets
      the greeting rather than the refusal. */
  lemma GreetingMatchesInsideWords(before: string, after: string)
    requires var q := before + "hi" + after; forall i :: 0 <= i < |q| ==> !IsUpper(q[i])
    requires var q := before + "hi" + after; !IsSpace(Python, q[0]) && !IsSpace(Python, q[|q| - 1])
    ensures IsGreeting(before + "hi" + after)
  {
    var q := before + "hi" + after;
    LowerOfLowerIsIdentity(q);
    assert TrimStart(Python, q) == q;
    assert TrimEnd(Python, q) == q;
    ContainsMiddle(before, "hi", after);
    assert GreetingWords[1] == "hi";
  }

  /** When retrieval finds context the web search plays no part in the
      reply. */
  lemma DocumentContextWins(question: string, documentContext: string, a: SearchOutcome, b: SearchOutcome,
                            generate: PromptInputs -> Completion)
    requires documentContext != ""
    ensures ChatWithPdf(question, true, documentContext, a, generate) == ChatWithPdf(question, true, documentContext, b, generate)
  {
  }

  /** A web-sourced answer always carries the web context with its prefix,
      even when the model says the information was not found or returns no
      content; only a raising model call loses it. */
  lemma WebSourceAlwaysShown(question: string, hits: seq<SearchHit>, generate: PromptInputs -> Completion)
    requires !SkipsSearch(question) && hits != []
    ensures var c := generate(PromptInputs(WebSource, FormatResults(hits), question));
      var r := ChatWithPdf(question, true, "", Hits(hits), generate);
      && (r.Ok? <==> c.Completed?)
      && (r.Ok? ==> r.reply == ChatReply(c.content, WebPrefix + FormatResults(hits)))
  {
    SearchedQueryFormatsHits(question, hits);
    WebContextAnswer(question, FormatResults(hits), Hits(hits), generate);
  }

  /** The web branch for any non-empty search result `web`. */
  lemma WebContextAnswer(question: string, web: string, search: SearchOutcome, generate: PromptInputs -> Completion)
    requires web != "" && SearchWeb(question, search) == web
    ensures var c := generate(PromptInputs(WebSource, web, question));
      var r := ChatWithPdf(question, true, "", search, generate);
      && (r.Ok? <==> c.Completed?)
      && (r.Ok? ==> r.reply == ChatReply(c.content, WebPrefix + web))
  {
    assert SelectSource(question, "", search) == Selection(WebSource, web);
  }

  /** A document-sourced answer drops its context exactly when the model says
      the information was not found, in any letter case. */
  lemma NotFoundDropsDocumentSource(question: string, documentContext: string, search: SearchOutcome,
                                    generate: PromptInputs -> Completion, answer: string)
    requires documentContext != ""
    requires generate(PromptInputs(DocumentSource, documentContext, question)) == Completed(Some(answer))
    ensures var r := ChatWithPdf(question, true, documentContext, search, generate);
      && r.Ok? && r.reply.response == Some(answer)
      && (Contains(Lower(answer), NotFoundMarker) ==> r.reply.sourceContext == "")
      && (!Contains(Lower(answer), NotFoundMarker) ==> r.reply.sourceContext == documentContext)
  {
  }

  /** With an index but no document context, a query the web search skips
      gets an answer without a source, whatever the search would have done. */
  lemma SkippedSearchMeansNoSource(question: string, search: SearchOutcome, generate: PromptInputs -> Completion)
    requires SkipsSearch(question)
    ensures var c := generate(PromptInputs(NoSource, "", question));
      var r := ChatWithPdf(question, true, "", search, generate);
      && (r.Ok? <==> c.Completed?)
      && (r.Ok? ==> r.reply == ChatReply(c.content, ""))
  {
  }
}
