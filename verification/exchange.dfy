/** The `/chat` exchange seen from both ends: the server's reply becomes the
    client's answered outcome (`response` and `source_context` of the JSON
    body), and the client's citation rule then decides what is shown. */
module ChatExchange {
  import opened Wrappers
  import App
  import ChatInterface
  import Backend

  /** How the client sees the endpoint's result: a body is an answer (a null
      response is shown as empty text), a 500 rejects the request like a
      network failure. */
  function Received(result: Backend.ChatResult): (o: App.ChatOutcome)
    ensures result.InternalError? <==> o.Unreachable?
    ensures result.Ok? ==> o.sourceContext == Some(result.reply.sourceContext)
    ensures result.Ok? && result.reply.response.Some? ==> o.response == result.reply.response.value
  {
    match result
    case InternalError => App.Unreachable
    case Ok(reply) =>
      App.Answered(if reply.response.Some? then reply.response.value else "", Some(reply.sourceContext))
  }

  /** Before any document is indexed, no answer ever shows a citation. */
  lemma NoIndexNoCitation(question: string, documentContext: string, search: Backend.SearchOutcome,
                          generate: Backend.PromptInputs -> Backend.Completion)
    ensures !ChatInterface.CitationShown(
      App.Reply(Received(Backend.ChatWithPdf(question, false, documentContext, search, generate))))
  {
  }

  /** An answer drawn from the web always shows a citation, and it has the
      expand/collapse toggle once prefix and results reach the threshold; if
      the model call raises, the client shows the connection error instead. */
  lemma WebAnswerCited(question: string, hits: seq<Backend.SearchHit>, generate: Backend.PromptInputs -> Backend.Completion)
    requires !Backend.SkipsSearch(question) && hits != []
    ensures var c := generate(Backend.PromptInputs(Backend.WebSource, Backend.FormatResults(hits), question));
      var m := App.Reply(Received(Backend.ChatWithPdf(question, true, "", Backend.Hits(hits), generate)));
      && (c.CallFailed? ==> m == App.Reply(App.Unreachable) && !ChatInterface.CitationShown(m))
      && (c.Completed? ==>
          && ChatInterface.CitationShown(m)
          && m.source.value == Backend.WebPrefix + Backend.FormatResults(hits)
          && (ChatInterface.CitationViewOf(m.source.value, false).Collapsible? <==>
              |Backend.WebPrefix| + |Backend.FormatResults(hits)| >= ChatInterface.CollapseThreshold))
  {
    Backend.WebSourceAlwaysShown(question, hits, generate);
  }
}
