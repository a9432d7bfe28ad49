/** The transcript view: which controls it offers (edit, suggestions, send,
    citation toggle), what it does to the root state when they are used, and
    the collapsible citation box with its own expand/collapse flag. */
module ChatInterface {
  import opened Wrappers
  import opened Text
  import opened App

  /** Citations of at least this many characters get a toggle. */
  const CollapseThreshold: nat := 150

  const Suggestions: seq<string> := [
    "Summarize this document",
    "Extract key points",
    "Find important entities",
    "Create a structured outline"
  ]

  /** The edit control is rendered for user messages only. */
  predicate EditOffered(m: Message) {
    m.role == User
  }

  /** A citation box is rendered only when the message has a non-empty
      source. */
  predicate CitationShown(m: Message) {
    m.source.Some? && m.source.value != ""
  }

  /** The suggestion chips are rendered only while the transcript holds a
      single message. */
  predicate SuggestionsShown(messages: seq<Message>) {
    |messages| == 1
  }

  /** The send button is disabled while a request is in flight or while the
      query is empty after trimming. */
  predicate SendDisabled(loading: bool, query: string) {
    loading || Trim(JavaScript, query) == ""
  }

  /** What a citation box renders. */
  datatype CitationView =
    | Flat(text: string)
    | Collapsible(text: string, expanded: bool)

  /** Short sources render flat; long ones render clamped or expanded with a
      toggle. */
  function CitationViewOf(source: string, expanded: bool): (v: CitationView)
    ensures v.text == source
    ensures v.Collapsible? <==> |source| >= CollapseThreshold
    ensures v.Collapsible? ==> v.expanded == expanded
  {
    if |source| < CollapseThreshold then Flat(source) else Collapsible(source, expanded)
  }

  /** `SourceBox`: one citation and its local expand/collapse flag. */
  class SourceBox {
    const source: string
    var isExpanded: bool

    constructor (source: string)
      ensures this.source == source && !isExpanded
      ensures View() == CitationViewOf(source, false)
    {
      this.source := source;
      isExpanded := false;
    }

    function View(): (v: CitationView)
      reads this
      ensures v.text == source
    {
      CitationViewOf(source, isExpanded)
    }

    /** The toggle flips the flag; the text shown is the same source either
        way, only the clamping changes. The button exists only for a source
        long enough to be clamped. */
    method Toggle()
      requires |source| >= CollapseThreshold
      modifies this
      ensures isExpanded == !old(isExpanded)
      ensures View().text == old(View().text) == source
      ensures View().Collapsible? == old(View().Collapsible?)
    {
      isExpanded := !isExpanded;
    }
  }

  /** Clicking the toggle twice restores the box as it was. */
  method ToggleTwice(box: SourceBox)
    requires |box.source| >= CollapseThreshold
    modifies box
    ensures box.isExpanded == old(box.isExpanded)
    ensures box.View() == old(box.View())
  {
    box.Toggle();
    box.Toggle();
  }

  /** The flag only matters for long sources: a short one renders the same
      either way, a long one differently. */
  lemma ToggleMattersOnlyWhenLong(source: string)
    ensures |source| < CollapseThreshold <==> CitationViewOf(source, true) == CitationViewOf(source, false)
  {
  }

  /** `handleEdit`: the entry goes back into the input and the transcript
      is cut back to the entries before it. The backend is not told. */
  method HandleEdit(app: AppState, index: int)
    requires app.Valid()
    requires 1 <= index < |app.messages|
    modifies app
    ensures app.Valid()
    ensures app.query == old(app.messages[index].content)
    ensures app.messages == old(app.messages[..index])
    ensures |app.messages| == index
    ensures app.files == old(app.files) && app.loading == old(app.loading)
    ensures app.uploadStatus == old(app.uploadStatus)
  {
    var messageToEdit := app.messages[index];
    app.SetQuery(messageToEdit.content);
    var newHistory := app.messages[..index];
    assert QuestionsAsSent(newHistory) by {
      forall i | 0 <= i < |newHistory|
        ensures newHistory[i] == app.messages[i]
      {
      }
    }
    app.SetMessages(newHistory);
  }

  /** Editing a question and sending it straight back restores the
      transcript up to and including that question, drops everything after
      it, and sends the same question again. */
  method EditAndResend(app: AppState, index: int) returns (pending: Option<PendingChat>)
    requires app.Valid()
    requires 1 <= index < |app.messages| && EditOffered(app.messages[index])
    modifies app
    ensures app.Valid()
    ensures app.messages == old(app.messages[..index + 1])
    ensures pending == Some(PendingChat(app.messages, old(app.messages[index].content)))
    ensures app.query == "" && app.loading
  {
    ghost var before := app.messages;
    HandleEdit(app, index);
    pending := app.StartChat();
    assert before[index] == Message(User, before[index].content, None);
    assert before[..index] + [before[index]] == before[..index + 1];
  }

  /** Choosing a suggestion fills the input and sends nothing. */
  method ChooseSuggestion(app: AppState, k: int)
    requires app.Valid() && SuggestionsShown(app.messages)
    requires 0 <= k < |Suggestions|
    modifies app
    ensures app.Valid()
    ensures app.query == Suggestions[k]
    ensures app.messages == old(app.messages) && app.loading == old(app.loading)
    ensures app.files == old(app.files) && app.uploadStatus == old(app.uploadStatus)
  {
    app.SetQuery(Suggestions[k]);
  }

  /** The send button: a click on a disabled button does nothing, otherwise
      it starts the chat. */
  method ClickSend(app: AppState) returns (pending: Option<PendingChat>)
    requires app.Valid()
    modifies app
    ensures app.Valid()
    ensures app.files == old(app.files) && app.uploadStatus == old(app.uploadStatus)
    ensures SendDisabled(old(app.loading), old(app.query)) ==>
      && pending == None && app.messages == old(app.messages)
      && app.query == old(app.query) && app.loading == old(app.loading)
    ensures !SendDisabled(old(app.loading), old(app.query)) ==>
      && app.messages == old(app.messages) + [Message(User, old(app.query), None)]
      && app.query == "" && app.loading
      && pending == Some(PendingChat(app.messages, old(app.query)))
      && Sent(pending.value)
  {
    if SendDisabled(app.loading, app.query) {
      return None;
    }
    pending := app.StartChat();
  }

  /** The Enter key calls `handleChat` directly, without the button's rule:
      a whitespace-only query, or one typed while a request is in flight, is
      sent. */
  method PressEnter(app: AppState) returns (pending: Option<PendingChat>)
    requires app.Valid()
    modifies app
    ensures app.Valid()
    ensures app.files == old(app.files) && app.uploadStatus == old(app.uploadStatus)
    ensures old(app.query) == "" ==>
      && pending == None && app.messages == old(app.messages)
      && app.query == old(app.query) && app.loading == old(app.loading)
    ensures old(app.query) != "" ==>
      && app.messages == old(app.messages) + [Message(User, old(app.query), None)]
      && app.query == "" && app.loading
      && pending == Some(PendingChat(app.messages, old(app.query)))
      && Sent(pending.value)
  {
    pending := app.StartChat();
  }

  /** An enabled send button always passes `handleChat`'s own guard. */
  lemma EnabledSendPassesGuard(loading: bool, query: string)
    ensures !SendDisabled(loading, query) ==> query != "" && !loading
  {
  }

  /** The Enter path goes further than the button: a blank query disables
      the button but still passes `handleChat`'s `!query` guard. */
  lemma BlankQueryOnlyBlockedByButton(query: string)
    requires query != [] && forall i :: 0 <= i < |query| ==> IsSpace(JavaScript, query[i])
    ensures SendDisabled(false, query)
  {
  }

  /** Which replies get a citation: only an answer with a non-empty source
      context, never the connection-error message. */
  lemma CitationOnlyForSourcedAnswers(outcome: ChatOutcome)
    ensures CitationShown(Reply(outcome)) <==>
      outcome.Answered? && outcome.sourceContext.Some? && outcome.sourceContext.value != ""
    ensures !EditOffered(Reply(outcome))
  {
  }

  /** The edit control is never offered on the welcome message, so editing
      never removes it. */
  lemma EditNeverOnWelcome(messages: seq<Message>, index: int)
    requires |messages| >= 1 && messages[0] == Welcome
    requires 0 <= index < |messages| && EditOffered(messages[index])
    ensures index >= 1 && messages[..index][0] == Welcome
  {
  }

  /** On a transcript that opens with the welcome message, the suggestions
      show exactly when nothing else has been added. */
  lemma SuggestionsOnlyOnFreshTranscript(messages: seq<Message>)
    requires |messages| >= 1 && messages[0] == Welcome
    ensures SuggestionsShown(messages) <==> messages == [Welcome]
  {
  }

  /** Sending a question hides the suggestions, whatever the transcript held
      before. */
  method SendHidesSuggestions(app: AppState) returns (pending: Option<PendingChat>)
    requires app.Valid() && app.query != ""
    modifies app
    ensures app.Valid()
    ensures pending.Some? && !SuggestionsShown(app.messages)
  {
    pending := app.StartChat();
  }

  /** The answer to a sent question keeps them hidden. */
  lemma ResolvedChatHidesSuggestions(pending: PendingChat, outcome: ChatOutcome)
    requires Sent(pending)
    ensures !SuggestionsShown(pending.snapshot + [Reply(outcome)])
  {
  }
}
