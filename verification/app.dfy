/** The root container of the client: the state it owns (staged files, chat
    transcript, pending query, loading flag, upload status) and the two
    network actions. Each action is asynchronous in the source, so it is split
    here at its suspend point into a synchronous start step, which returns the
    request that goes out together with whatever the handler captured, and a
    resolve step, which runs when the request succeeds or fails. */
module App {
  import opened Wrappers
  import opened Text
  import FileUpload

  datatype Role = System | User | Ai

  /** One transcript entry; `source` is the citation attached to an answer
      (absent when the answer carried none). */
  datatype Message = Message(role: Role, content: string, source: Option<string>)

  const Welcome: Message :=
    Message(System, "Welcome to FinWiseRAG. Upload a financial document to begin autonomous analysis.", None)

  const IndexingStatus: string := "\U{2699}\U{FE0F} Indexing Vector Database..."
  const ReadyStatus: string := "\U{2705} System Ready: Knowledge Base Updated"
  const FailedStatus: string := "\U{274C} Ingestion Failed. Check API logs."
  const ConnectionError: string := "\U{26A0}\U{FE0F} Connection Error: Ensure Backend is running."

  /** The only values the upload status ever takes. */
  predicate KnownStatus(status: string) {
    status == "" || status == IndexingStatus || status == ReadyStatus || status == FailedStatus
  }

  /** How a chat request ended: the answer and its optional source context,
      or a rejected request (network error or non-2xx status). */
  datatype ChatOutcome = Answered(response: string, sourceContext: Option<string>) | Unreachable

  /** The ai message a resolved chat request adds. */
  function Reply(outcome: ChatOutcome): (m: Message)
    ensures m.role == Ai
    ensures outcome.Answered? ==> m.content == outcome.response && m.source == outcome.sourceContext
    ensures outcome.Unreachable? ==> m.content == ConnectionError && m.source == None
  {
    match outcome
    case Answered(response, source) => Message(Ai, response, source)
    case Unreachable => Message(Ai, ConnectionError, None)
  }

  /** What `handleChat` captured when it sent: the transcript it built
      (`newMessages`) and the question it posted. */
  datatype PendingChat = PendingChat(snapshot: seq<Message>, question: string)

  /** Every user entry is a question as `handleChat` appends it: non-empty
      text and no source. */
  ghost predicate QuestionsAsSent(messages: seq<Message>) {
    forall i :: 0 <= i < |messages| && messages[i].role == User ==>
      messages[i].content != "" && messages[i].source == None
  }

  /** A pending chat as the start step produces it: the snapshot begins with
      the welcome message and ends with the question as a user message. */
  ghost predicate Sent(p: PendingChat) {
    |p.snapshot| >= 2 && p.snapshot[0] == Welcome &&
    p.snapshot[|p.snapshot| - 1] == Message(User, p.question, None) &&
    QuestionsAsSent(p.snapshot)
  }

  class AppState {
    var files: seq<FileUpload.StagedFile>
    var messages: seq<Message>
    var query: string
    var loading: bool
    var uploadStatus: string

    /** The transcript always opens with the welcome message and holds user
        entries only as sent, and the status is one of the four strings the
        handlers set. */
    ghost predicate Valid()
      reads this
    {
      |messages| >= 1 && messages[0] == Welcome && QuestionsAsSent(messages) && KnownStatus(uploadStatus)
    }

    /** The initial state: one system message, nothing staged, empty query. */
    constructor ()
      ensures Valid()
      ensures files == [] && messages == [Welcome] && query == ""
      ensures !loading && uploadStatus == ""
    {
      files := [];
      messages := [Welcome];
      query := "";
      loading := false;
      uploadStatus := "";
    }

    /** `handleUpload` up to its request: with nothing staged it only alerts
        and sends nothing; otherwise it shows the indexing status and posts
        every staged file, in order, in one request. */
    method StartUpload() returns (request: Option<seq<FileUpload.StagedFile>>)
      requires Valid()
      modifies this
      ensures Valid()
      ensures old(files) == [] ==> request == None && uploadStatus == old(uploadStatus)
      ensures old(files) != [] ==> request == Some(old(files)) && uploadStatus == IndexingStatus
      ensures files == old(files) && messages == old(messages)
      ensures query == old(query) && loading == old(loading)
    {
      if |files| == 0 {
        request := None;
        return;
      }
      uploadStatus := IndexingStatus;
      request := Some(files);
    }

    /** `handleUpload` after its request: the status reports the outcome;
        files and transcript stay as they are either way. */
    method ResolveUpload(succeeded: bool)
      requires Valid()
      modifies this
      ensures Valid()
      ensures uploadStatus == (if succeeded then ReadyStatus else FailedStatus)
      ensures files == old(files) && messages == old(messages)
      ensures query == old(query) && loading == old(loading)
    {
      uploadStatus := if succeeded then ReadyStatus else FailedStatus;
    }

    /** `handleChat` up to its request. An empty query sends nothing; any
        other query, whitespace-only included, is appended as a user message,
        cleared from the input, and posted while loading is set. */
    method StartChat() returns (pending: Option<PendingChat>)
      requires Valid()
      modifies this
      ensures Valid()
      ensures old(query) == "" ==>
        pending == None && messages == old(messages) && query == old(query) && loading == old(loading)
      ensures old(query) != "" ==>
        && messages == old(messages) + [Message(User, old(query), None)]
        && query == "" && loading
        && pending == Some(PendingChat(messages, old(query)))
        && Sent(pending.value)
      ensures files == old(files) && uploadStatus == old(uploadStatus)
    {
      if query == "" {
        pending := None;
        return;
      }
      var newMessages := messages + [Message(User, query, None)];
      pending := Some(PendingChat(newMessages, query));
      messages := newMessages;
      query := "";
      loading := true;
    }

    /** `handleChat` after its request: the transcript becomes the snapshot
        taken at send time plus one ai message, whatever it held meanwhile
        (last write wins), and loading is cleared on success and on failure. */
    method ResolveChat(pending: PendingChat, outcome: ChatOutcome)
      requires Valid() && Sent(pending)
      modifies this
      ensures Valid()
      ensures messages == pending.snapshot + [Reply(outcome)]
      ensures !loading
      ensures files == old(files) && query == old(query) && uploadStatus == old(uploadStatus)
    {
      messages := pending.snapshot + [Reply(outcome)];
      loading := false;
    }

    /** The `setFiles` updater the file panel passes on a pick. */
    method PickFiles(selection: Option<seq<FileUpload.StagedFile>>)
      requires Valid()
      modifies this
      ensures Valid()
      ensures files == FileUpload.Picked(old(files), selection)
      ensures messages == old(messages) && query == old(query)
      ensures loading == old(loading) && uploadStatus == old(uploadStatus)
    {
      files := FileUpload.Picked(files, selection);
    }

    /** The `setFiles` updater the file panel passes to remove one entry. */
    method RemoveFile(index: int)
      requires Valid()
      modifies this
      ensures Valid()
      ensures files == FileUpload.Removed(old(files), index)
      ensures messages == old(messages) && query == old(query)
      ensures loading == old(loading) && uploadStatus == old(uploadStatus)
    {
      files := FileUpload.Removed(files, index);
    }

    /** `setQuery`, as the input box and the suggestion chips call it. */
    method SetQuery(text: string)
      requires Valid()
      modifies this
      ensures Valid()
      ensures query == text
      ensures files == old(files) && messages == old(messages)
      ensures loading == old(loading) && uploadStatus == old(uploadStatus)
    {
      query := text;
    }

    /** `setMessages`, as the transcript view calls it when a question is
        edited; the view only ever passes a prefix that keeps the welcome
        message. */
    method SetMessages(history: seq<Message>)
      requires Valid() && |history| >= 1 && history[0] == Welcome && QuestionsAsSent(history)
      modifies this
      ensures Valid()
      ensures messages == history
      ensures files == old(files) && query == old(query)
      ensures loading == old(loading) && uploadStatus == old(uploadStatus)
    {
      messages := history;
    }
  }

  /** One send cycle with nothing in between: the transcript grows by
      exactly two, the question and then the reply, and loading ends
      cleared. */
  method SendCycle(app: AppState, outcome: ChatOutcome)
    requires app.Valid() && app.query != ""
    modifies app
    ensures app.Valid()
    ensures |app.messages| == |old(app.messages)| + 2
    ensures app.messages == old(app.messages) + [Message(User, old(app.query), None), Reply(outcome)]
    ensures !app.loading && app.query == ""
  {
    var pending := app.StartChat();
    app.ResolveChat(pending.value, outcome);
  }

  /** Two questions sent before either answer arrives, answered in order:
      the later resolution overwrites the earlier one, so the first answer is
      lost from the transcript. */
  method OverlappingSends(app: AppState, second: string, first: ChatOutcome, last: ChatOutcome)
    requires app.Valid() && app.query != "" && second != ""
    modifies app
    ensures app.Valid()
    ensures app.messages ==
      old(app.messages) + [Message(User, old(app.query), None), Message(User, second, None), Reply(last)]
    ensures Reply(first) != Reply(last) ==> Reply(first) !in app.messages[|old(app.messages)|..]
  {
    var p1 := app.StartChat();
    app.SetQuery(second);
    var p2 := app.StartChat();
    app.ResolveChat(p1.value, first);
    app.ResolveChat(p2.value, last);
  }

  // Facts about the three status texts, one per lemma: each needs a scan of
  // one literal and nothing else in scope.

  lemma IndexingLacksSuccess()
    ensures !Contains(IndexingStatus, "Success")
  {
    MissingCharNotContained(IndexingStatus, "Success", 1);
  }

  lemma ReadyLacksSuccess()
    ensures !Contains(ReadyStatus, "Success")
  {
    MissingCharNotContained(ReadyStatus, "Success", 1);
  }

  lemma FailedLacksSuccess()
    ensures !Contains(FailedStatus, "Success")
  {
    MissingCharNotContained(FailedStatus, "Success", 1);
  }

  lemma IndexingLacksReady()
    ensures !Contains(IndexingStatus, FileUpload.ReadyWord)
  {
    MissingCharNotContained(IndexingStatus, FileUpload.ReadyWord, 0);
  }

  lemma FailedLacksReady()
    ensures !Contains(FailedStatus, FileUpload.ReadyWord)
  {
    MissingCharNotContained(FailedStatus, FileUpload.ReadyWord, 0);
  }

  lemma ReadyLacksIndexing()
    ensures !Contains(ReadyStatus, "Indexing")
  {
    MissingCharNotContained(ReadyStatus, "Indexing", 4);
  }

  lemma FailedLacksIndexing()
    ensures !Contains(FailedStatus, "Indexing")
  {
    MissingCharNotContained(FailedStatus, "Indexing", 4);
  }

  /** The ready status contains "Ready". */
  lemma ReadyStatusSaysReady()
    ensures Contains(ReadyStatus, FileUpload.ReadyWord)
  {
    assert ReadyStatus == "\U{2705} System " + FileUpload.ReadyWord + ": Knowledge Base Updated";
    ContainsMiddle("\U{2705} System ", FileUpload.ReadyWord, ": Knowledge Base Updated");
  }

  /** The indexing status contains "Indexing". */
  lemma IndexingStatusSaysIndexing()
    ensures Contains(IndexingStatus, "Indexing")
  {
    assert IndexingStatus == "\U{2699}\U{FE0F} " + "Indexing" + " Vector Database...";
    ContainsMiddle("\U{2699}\U{FE0F} ", "Indexing", " Vector Database...");
  }

  /** As written, the status card is never styled as a success: none of the
      statuses the handlers set contains "Success". */
  lemma SuccessCardNeverShown(status: string)
    requires KnownStatus(status)
    ensures FileUpload.StatusCard(status) != Some(FileUpload.SuccessCard)
  {
    if status == IndexingStatus {
      IndexingLacksSuccess();
    } else if status == ReadyStatus {
      ReadyLacksSuccess();
    } else if status == FailedStatus {
      FailedLacksSuccess();
    }
  }

  /** Of the four statuses, only the ready one contains "Ready". */
  lemma ReadyOnlyWhenReady(status: string)
    requires KnownStatus(status)
    ensures Contains(status, FileUpload.ReadyWord) <==> status == ReadyStatus
  {
    if status == ReadyStatus {
      ReadyStatusSaysReady();
    } else if status == IndexingStatus {
      IndexingLacksReady();
    } else if status == FailedStatus {
      FailedLacksReady();
    }
  }

  /** With the corrected test the card is a success card exactly for the
      success status. */
  lemma CorrectedCardMarksReady(status: string)
    requires KnownStatus(status)
    ensures FileUpload.StatusCardCorrected(status) == Some(FileUpload.SuccessCard) <==> status == ReadyStatus
  {
    ReadyOnlyWhenReady(status);
  }

  /** Of the four statuses, only the indexing one mentions "Indexing". */
  lemma IndexingOnlyWhileIndexing(status: string)
    requires KnownStatus(status)
    ensures Contains(status, "Indexing") <==> status == IndexingStatus
  {
    if status == IndexingStatus {
      IndexingStatusSaysIndexing();
    } else if status == ReadyStatus {
      ReadyLacksIndexing();
    } else if status == FailedStatus {
      FailedLacksIndexing();
    }
  }

  /** The process button shows the spinner exactly while the indexing
      status is shown. */
  lemma SpinnerWhileIndexing(status: string, files: Option<seq<FileUpload.StagedFile>>)
    requires KnownStatus(status)
    ensures FileUpload.ButtonLabel(status, files) == FileUpload.Spinner <==> status == IndexingStatus
  {
    IndexingOnlyWhileIndexing(status);
  }
}
